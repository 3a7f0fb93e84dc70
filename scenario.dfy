/**
 * The client program of test/test.cpp: call sites used inside loops.  A
 * site in a loop body registers on its first execution only and appends
 * one record on every execution; an outer site's reference stays valid
 * while inner sites push their records, and still closes the outer record.
 *
 * Every step is stated against the profiler's abstract state (registry,
 * counter, records) by a pure function of the state before it; the lemmas
 * beneath say what those functions leave in the registry and the records.
 */
module TestProgram {
  import opened Chunking
  import opened RapidProfile

  /** The records a site leaves when it is opened at `times[j].0` and closed at `times[j].1`, in turn. */
  function Closed(id: u32, times: seq<(int, int)>): seq<Interval>
  {
    if times == [] then [] else [Interval(id, times[0].0, times[0].1)] + Closed(id, times[1..])
  }

  /** Pass j leaves record j, with that pass's readings and the site's id. */
  lemma {:induction false} ClosedAt(id: u32, times: seq<(int, int)>)
    ensures |Closed(id, times)| == |times|
    ensures forall j :: 0 <= j < |times| ==> Closed(id, times)[j] == Interval(id, times[j].0, times[j].1)
  {
    if times != [] {
      ClosedAt(id, times[1..]);
    }
  }

  /** The clock readings of one pass of a loop with an outer site around an inner one. */
  datatype NestedTimes = NestedTimes(outerStart: int, innerStart: int, innerStop: int, outerStop: int)

  /** The records such a loop leaves: per pass, the outer site's record and then the inner site's. */
  function NestedClosed(outer: u32, inner: u32, passes: seq<NestedTimes>): seq<Interval>
  {
    if passes == [] then []
    else
      var p := passes[0];
      [Interval(outer, p.outerStart, p.outerStop), Interval(inner, p.innerStart, p.innerStop)]
        + NestedClosed(outer, inner, passes[1..])
  }

  /**
   * Pass j leaves the outer site's record at position 2j and the inner
   * site's at 2j+1, each with that pass's readings: the inner record never
   * precedes the outer one it is nested in.
   */
  lemma {:induction false} NestedClosedAt(outer: u32, inner: u32, passes: seq<NestedTimes>)
    ensures |NestedClosed(outer, inner, passes)| == 2 * |passes|
    ensures forall j :: 0 <= j < |passes| ==>
      && NestedClosed(outer, inner, passes)[2 * j] == Interval(outer, passes[j].outerStart, passes[j].outerStop)
      && NestedClosed(outer, inner, passes)[2 * j + 1] == Interval(inner, passes[j].innerStart, passes[j].innerStop)
  {
    if passes != [] {
      var rest := passes[1..];
      NestedClosedAt(outer, inner, rest);
      assert forall j :: 1 <= j < |passes| ==> passes[j] == rest[j - 1];
    }
  }

  /** The state after a site is opened and closed once per entry of `times`. */
  function Repeated(s: State, site: CallSite, cached: Option<u32>, n: nat, times: seq<(int, int)>): State
    requires n >= 1
    decreases |times|
  {
    if times == [] then s
    else Repeated(Closing(s, site, cached, n, times[0].0, times[0].1),
                  site, Some(IdFrom(cached, s.counter)), n, times[1..])
  }

  /** Passes of a registered site add only their records. */
  lemma {:induction false} RepeatedCached(s: State, site: CallSite, id: u32, n: nat, times: seq<(int, int)>)
    requires n >= 1
    ensures Repeated(s, site, Some(id), n, times) == State(s.registry, s.counter, s.records + Closed(id, times))
    decreases |times|
  {
    if times != [] {
      RepeatedCached(Closing(s, site, Some(id), n, times[0].0, times[0].1), site, id, n, times[1..]);
      assert s.registry + [] == s.registry;
      assert s.records + [Interval(id, times[0].0, times[0].1)] + Closed(id, times[1..])
          == s.records + Closed(id, times);
    }
  }

  /**
   * A site inside a loop registers once, on the first pass (adding one entry
   * if it was not registered yet, none otherwise), and every pass appends
   * one closed record stamped with the site's id.
   */
  lemma RepeatedSpec(s: State, site: CallSite, cached: Option<u32>, n: nat, times: seq<(int, int)>)
    requires n >= 1 && times != []
    ensures Repeated(s, site, cached, n, times)
         == State(s.registry + Firsts(site, cached, n), CounterFrom(cached, s.counter),
                  s.records + Closed(IdFrom(cached, s.counter), times))
  {
    var id := IdFrom(cached, s.counter);
    RepeatedCached(Closing(s, site, cached, n, times[0].0, times[0].1), site, id, n, times[1..]);
    assert s.records + [Interval(id, times[0].0, times[0].1)] + Closed(id, times[1..])
        == s.records + Closed(id, times);
  }

  /**
   * The state one pass of the nested loop leaves: both sites entered, outer
   * first, then the outer site's record and the inner site's, each with its
   * own readings.
   */
  function Nesting(s: State, outer: CallSite, inner: CallSite, oc: Option<u32>, ic: Option<u32>,
                   n: nat, t: NestedTimes): State
    requires n >= 1
  {
    var c1 := CounterFrom(oc, s.counter);
    State(s.registry + Firsts(outer, oc, n) + Firsts(inner, ic, n), CounterFrom(ic, c1),
          s.records + [Interval(IdFrom(oc, s.counter), t.outerStart, t.outerStop),
                       Interval(IdFrom(ic, c1), t.innerStart, t.innerStop)])
  }

  /**
   * INTERVAL(outer), INTERVAL(inner), INTERVAL_END(inner), then INTERVAL_END
   * through the outer reference, which still names the outer record, is a
   * nested pass.
   */
  lemma NestingSpec(s: State, outer: CallSite, inner: CallSite, oc: Option<u32>, ic: Option<u32>,
                    n: nat, t: NestedTimes)
    requires n >= 1
    ensures var o := Opening(s, outer, oc, n, t.outerStart);
      var c := Closing(o, inner, ic, n, t.innerStart, t.innerStop);
      |s.records| < |c.records| && Stopped(c, |s.records|, t.outerStop) == Nesting(s, outer, inner, oc, ic, n, t)
  {
    var o := Opening(s, outer, oc, n, t.outerStart);
    var a := Interval(IdFrom(oc, s.counter), t.outerStart, Blank.stop);
    var b := Interval(IdFrom(ic, o.counter), t.innerStart, t.innerStop);
    assert (s.records + [a] + [b])[|s.records| := a.(stop := t.outerStop)]
        == s.records + [a.(stop := t.outerStop), b];
  }

  /** The state after the nested loop runs once per entry of `passes`: two records per pass. */
  function NestedRuns(s: State, outer: CallSite, inner: CallSite, oc: Option<u32>, ic: Option<u32>,
                      n: nat, passes: seq<NestedTimes>): (r: State)
    requires n >= 1
    ensures |r.records| == |s.records| + 2 * |passes|
    decreases |passes|
  {
    if passes == [] then s
    else
      var c1 := CounterFrom(oc, s.counter);
      NestedRuns(Nesting(s, outer, inner, oc, ic, n, passes[0]), outer, inner,
                 Some(IdFrom(oc, s.counter)), Some(IdFrom(ic, c1)), n, passes[1..])
  }

  /** Passes over two registered sites add only their records. */
  lemma {:induction false} NestedRunsCached(s: State, outer: CallSite, inner: CallSite, o: u32, i: u32,
                                            n: nat, passes: seq<NestedTimes>)
    requires n >= 1
    ensures NestedRuns(s, outer, inner, Some(o), Some(i), n, passes)
         == State(s.registry, s.counter, s.records + NestedClosed(o, i, passes))
    decreases |passes|
  {
    if passes != [] {
      var p := passes[0];
      NestedRunsCached(Nesting(s, outer, inner, Some(o), Some(i), n, p), outer, inner, o, i, n, passes[1..]);
      assert s.registry + [] + [] == s.registry;
      assert s.records + [Interval(o, p.outerStart, p.outerStop), Interval(i, p.innerStart, p.innerStop)]
                       + NestedClosed(o, i, passes[1..])
          == s.records + NestedClosed(o, i, passes);
    }
  }

  /**
   * The nested loop registers each site once, outer first, on the first
   * pass, and appends an outer and an inner record per pass.
   */
  lemma NestedRunsSpec(s: State, outer: CallSite, inner: CallSite, oc: Option<u32>, ic: Option<u32>,
                       n: nat, passes: seq<NestedTimes>)
    requires n >= 1 && passes != []
    ensures var c1 := CounterFrom(oc, s.counter);
      NestedRuns(s, outer, inner, oc, ic, n, passes)
      == State(s.registry + Firsts(outer, oc, n) + Firsts(inner, ic, n), CounterFrom(ic, c1),
               s.records + NestedClosed(IdFrom(oc, s.counter), IdFrom(ic, c1), passes))
  {
    var c1 := CounterFrom(oc, s.counter);
    var o, i := IdFrom(oc, s.counter), IdFrom(ic, c1);
    var p := passes[0];
    NestedRunsCached(Nesting(s, outer, inner, oc, ic, n, p), outer, inner, o, i, n, passes[1..]);
    assert s.records + [Interval(o, p.outerStart, p.outerStop), Interval(i, p.innerStart, p.innerStop)]
                     + NestedClosed(o, i, passes[1..])
        == s.records + NestedClosed(o, i, passes);
  }

  /** The whole of test/test.cpp:12-20: INTERVAL(loop), the nested loop, INTERVAL_END(loop). */
  function Looping(s: State, loop: CallSite, outer: CallSite, inner: CallSite,
                   lc: Option<u32>, oc: Option<u32>, ic: Option<u32>,
                   n: nat, start: int, passes: seq<NestedTimes>, stop: int): (r: State)
    requires n >= 1
    ensures |r.records| == |s.records| + 1 + 2 * |passes|
  {
    var o := Opening(s, loop, lc, n, start);
    Stopped(NestedRuns(o, outer, inner, oc, ic, n, passes), |s.records|, stop)
  }

  /**
   * The loop site's record comes first and carries the loop's own start and
   * stop; the body's records follow; each of the three sites registers at
   * most once, in the order of first execution.
   */
  lemma LoopingSpec(s: State, loop: CallSite, outer: CallSite, inner: CallSite,
                    lc: Option<u32>, oc: Option<u32>, ic: Option<u32>,
                    n: nat, start: int, passes: seq<NestedTimes>, stop: int)
    requires n >= 1 && passes != []
    ensures var c1 := CounterFrom(lc, s.counter);
      var c2 := CounterFrom(oc, c1);
      Looping(s, loop, outer, inner, lc, oc, ic, n, start, passes, stop)
      == State(s.registry + Firsts(loop, lc, n) + Firsts(outer, oc, n) + Firsts(inner, ic, n),
               CounterFrom(ic, c2),
               s.records + [Interval(IdFrom(lc, s.counter), start, stop)]
                         + NestedClosed(IdFrom(oc, c1), IdFrom(ic, c2), passes))
  {
    var o := Opening(s, loop, lc, n, start);
    var c1 := CounterFrom(lc, s.counter);
    NestedRunsSpec(o, outer, inner, oc, ic, n, passes);
    var a := Interval(IdFrom(lc, s.counter), start, Blank.stop);
    var rest := NestedClosed(IdFrom(oc, c1), IdFrom(ic, CounterFrom(oc, c1)), passes);
    assert (s.records + [a] + rest)[|s.records| := a.(stop := stop)] == s.records + [a.(stop := stop)] + rest;
  }

  /** The site's cached id, when it has one, indexes the registry. */
  ghost predicate Indexed(p: Profiler, site: CallSite)
    reads p, site
  {
    site.id.Some? ==> site.id.value as int < |p.registry|
  }

  /** Two distinct sites, apart from the store, whose cached ids index the registry. */
  ghost predicate Apart(p: Profiler, outer: CallSite, inner: CallSite)
    reads p, p.store, outer, inner
  {
    && outer != inner && outer !in p.store.Repr && inner !in p.store.Repr
    && Indexed(p, outer) && Indexed(p, inner)
  }

  /** INTERVAL(NAME) at `start`, then INTERVAL_END(NAME) at `stop`. */
  method Pass(p: Profiler, site: CallSite, start: int, stop: int)
    requires p.Valid() && site !in p.store.Repr
    requires IdsKnown(p.Records(), p.registry) && Indexed(p, site)
    modifies p, site, p.store.Repr
    ensures p.Valid() && fresh(p.store.Repr - old(p.store.Repr))
    ensures IdsKnown(p.Records(), p.registry) && Indexed(p, site) && old(|p.registry|) <= |p.registry|
    ensures site.id == Some(IdFrom(old(site.id), old(p.counter)))
    ensures p.Abstract() == Closing(old(p.Abstract()), site, old(site.id), p.N, start, stop)
  {
    var r := p.IntervalOpen(site, start);
    p.IntervalEnd(r, stop);
    ClosingSpec(old(p.Abstract()), site, old(site.id), p.N, start, stop);
  }

  /** A loop whose body is INTERVAL(NAME) and INTERVAL_END(NAME) for one site, one pass per entry of `times`. */
  method Repeat(p: Profiler, site: CallSite, times: seq<(int, int)>)
    requires p.Valid() && site !in p.store.Repr
    requires IdsKnown(p.Records(), p.registry) && Indexed(p, site)
    modifies p, site, p.store.Repr
    ensures p.Valid() && fresh(p.store.Repr - old(p.store.Repr))
    ensures IdsKnown(p.Records(), p.registry) && Indexed(p, site)
    ensures site.id == if times == [] then old(site.id) else Some(IdFrom(old(site.id), old(p.counter)))
    ensures p.Abstract() == Repeated(old(p.Abstract()), site, old(site.id), p.N, times)
  {
    var i := 0;
    while i < |times|
      invariant 0 <= i <= |times|
      invariant p.Valid() && site !in p.store.Repr && fresh(p.store.Repr - old(p.store.Repr))
      invariant IdsKnown(p.Records(), p.registry) && Indexed(p, site)
      invariant i == 0 ==> p.Abstract() == old(p.Abstract())
      invariant site.id == if i == 0 then old(site.id) else Some(IdFrom(old(site.id), old(p.counter)))
      invariant Repeated(p.Abstract(), site, site.id, p.N, times[i..])
             == Repeated(old(p.Abstract()), site, old(site.id), p.N, times)
    {
      assert times[i..][1..] == times[i + 1..];
      Pass(p, site, times[i].0, times[i].1);
      i := i + 1;
    }
  }

  /**
   * INTERVAL(NAME) and INTERVAL_END(NAME) for `site` while a reference
   * `held` to an earlier record is kept, then INTERVAL_END through `held`.
   */
  method HoldPass(p: Profiler, site: CallSite, held: Ref, start: int, stop: int, close: int)
    requires p.Valid() && site !in p.store.Repr && IsRefIn(p.store.Elems, held)
    requires IdsKnown(p.Records(), p.registry) && Indexed(p, site)
    modifies p, site, p.store.Repr
    ensures p.Valid() && fresh(p.store.Repr - old(p.store.Repr))
    ensures IdsKnown(p.Records(), p.registry) && Indexed(p, site) && old(|p.registry|) <= |p.registry|
    ensures site.id == Some(IdFrom(old(site.id), old(p.counter)))
    ensures Index(held, p.store.chunkSize) < |old(p.Records())|
    ensures p.Abstract() == Stopped(Closing(old(p.Abstract()), site, old(site.id), p.N, start, stop),
                                    Index(held, p.store.chunkSize), close)
  {
    ShapedIndex(p.store.Elems, p.store.chunkSize, held);
    ghost var elems := p.store.Elems;
    Pass(p, site, start, stop);
    RefStaysIn(elems, p.store.Elems, p.store.chunkSize, held);
    p.IntervalEnd(held, close);
  }

  /** One pass of the loop at test/test.cpp:13-19. */
  method NestedPass(p: Profiler, outer: CallSite, inner: CallSite, t: NestedTimes)
    requires p.Valid() && Apart(p, outer, inner) && IdsKnown(p.Records(), p.registry)
    modifies p, outer, inner, p.store.Repr
    ensures p.Valid() && fresh(p.store.Repr - old(p.store.Repr))
    ensures Apart(p, outer, inner) && IdsKnown(p.Records(), p.registry)
    ensures outer.id == Some(IdFrom(old(outer.id), old(p.counter)))
    ensures inner.id == Some(IdFrom(old(inner.id), CounterFrom(old(outer.id), old(p.counter))))
    ensures p.Abstract() == Nesting(old(p.Abstract()), outer, inner, old(outer.id), old(inner.id), p.N, t)
  {
    var ro := p.IntervalOpen(outer, t.outerStart);
    assert p.Records()[|p.Records()| - 1].id == outer.id.value;
    HoldPass(p, inner, ro, t.innerStart, t.innerStop, t.outerStop);
    NestingSpec(old(p.Abstract()), outer, inner, old(outer.id), old(inner.id), p.N, t);
  }

  /** The loop at test/test.cpp:13-19, one NestedPass per entry of `passes`. */
  method NestedRepeat(p: Profiler, outer: CallSite, inner: CallSite, passes: seq<NestedTimes>)
    requires p.Valid() && Apart(p, outer, inner) && IdsKnown(p.Records(), p.registry)
    modifies p, outer, inner, p.store.Repr
    ensures p.Valid() && fresh(p.store.Repr - old(p.store.Repr))
    ensures Apart(p, outer, inner) && IdsKnown(p.Records(), p.registry)
    ensures p.Abstract() == NestedRuns(old(p.Abstract()), outer, inner, old(outer.id), old(inner.id), p.N, passes)
  {
    var i := 0;
    while i < |passes|
      invariant 0 <= i <= |passes|
      invariant p.Valid() && Apart(p, outer, inner) && IdsKnown(p.Records(), p.registry)
      invariant fresh(p.store.Repr - old(p.store.Repr))
      invariant NestedRuns(p.Abstract(), outer, inner, outer.id, inner.id, p.N, passes[i..])
             == NestedRuns(old(p.Abstract()), outer, inner, old(outer.id), old(inner.id), p.N, passes)
    {
      assert passes[i..][1..] == passes[i + 1..];
      NestedPass(p, outer, inner, passes[i]);
      i := i + 1;
    }
  }

  /** Three distinct sites, apart from the store, whose cached ids index the registry. */
  ghost predicate Apart3(p: Profiler, loop: CallSite, outer: CallSite, inner: CallSite)
    reads p, p.store, loop, outer, inner
  {
    && loop != outer && loop != inner && loop !in p.store.Repr && Indexed(p, loop)
    && Apart(p, outer, inner)
  }

  /**
   * INTERVAL(loop) at `start`, then the nested loop; returns the loop's
   * reference, which every push of the body leaves valid.
   */
  method OpenLoop(p: Profiler, loop: CallSite, outer: CallSite, inner: CallSite,
                  start: int, passes: seq<NestedTimes>) returns (r: Ref)
    requires p.Valid() && Apart3(p, loop, outer, inner) && IdsKnown(p.Records(), p.registry)
    modifies p, loop, outer, inner, p.store.Repr
    ensures p.Valid() && fresh(p.store.Repr - old(p.store.Repr))
    ensures IdsKnown(p.Records(), p.registry)
    ensures loop.id == Some(IdFrom(old(loop.id), old(p.counter)))
    ensures IsRefIn(p.store.Elems, r) && Index(r, p.store.chunkSize) == old(|p.Records()|)
    ensures p.Abstract() == NestedRuns(Opening(old(p.Abstract()), loop, old(loop.id), p.N, start),
                                       outer, inner, old(outer.id), old(inner.id), p.N, passes)
  {
    r := p.IntervalOpen(loop, start);
    ghost var held := p.store.Elems;
    NestedRepeat(p, outer, inner, passes);
    RefStaysIn(held, p.store.Elems, p.store.chunkSize, r);
  }

  /**
   * test/test.cpp:12-20: INTERVAL(loop) at `start`, the nested loop, then
   * INTERVAL_END(loop) at `stop` through the reference taken before the
   * loop.
   */
  method LoopScenario(p: Profiler, loop: CallSite, outer: CallSite, inner: CallSite,
                      start: int, passes: seq<NestedTimes>, stop: int)
    requires p.Valid() && Apart3(p, loop, outer, inner) && IdsKnown(p.Records(), p.registry)
    modifies p, loop, outer, inner, p.store.Repr
    ensures p.Valid() && fresh(p.store.Repr - old(p.store.Repr))
    ensures IdsKnown(p.Records(), p.registry)
    ensures loop.id == Some(IdFrom(old(loop.id), old(p.counter)))
    ensures p.Abstract() == Looping(old(p.Abstract()), loop, outer, inner, old(loop.id), old(outer.id), old(inner.id),
                                    p.N, start, passes, stop)
  {
    var r := OpenLoop(p, loop, outer, inner, start, passes);
    p.IntervalEnd(r, stop);
  }

  /** The clock readings of one run of test/test.cpp, one pair per INTERVAL / INTERVAL_END. */
  datatype RunTimes = RunTimes(runStart: int, emptyStart: int, emptyStop: int,
                               loopStart: int, passes: seq<NestedTimes>, loopStop: int,
                               incStart: int, incStop: int, runStop: int)

  /** The six call sites of main() of test/test.cpp, in order of appearance. */
  datatype Sites = Sites(runtime: CallSite, empty: CallSite, loop: CallSite, outer: CallSite, inner: CallSite,
                         inc: CallSite)

  /** The sites carry the program's names (#NAME), its `__FILE__` and their `__LINE__`. */
  ghost predicate Named(ss: Sites, file: seq<char>)
  {
    && ss.runtime.name == "RUNTIME" && ss.runtime.file == file && ss.runtime.line == 7
    && ss.empty.name == "EMPTY" && ss.empty.file == file && ss.empty.line == 9
    && ss.loop.name == "LOOP" && ss.loop.file == file && ss.loop.line == 12
    && ss.outer.name == "REPEAT_OUTER" && ss.outer.file == file && ss.outer.line == 15
    && ss.inner.name == "REPEAT_INNER" && ss.inner.file == file && ss.inner.line == 16
    && ss.inc.name == "INCREMENT" && ss.inc.file == file && ss.inc.line == 22
  }

  /** The registry after a run: the six sites in order of first execution. */
  function Registered(ss: Sites, n: nat): seq<Info>
    requires n >= 1
  {
    [Entry(ss.runtime.name, ss.runtime.file, ss.runtime.line, n), Entry(ss.empty.name, ss.empty.file, ss.empty.line, n),
     Entry(ss.loop.name, ss.loop.file, ss.loop.line, n), Entry(ss.outer.name, ss.outer.file, ss.outer.line, n),
     Entry(ss.inner.name, ss.inner.file, ss.inner.line, n), Entry(ss.inc.name, ss.inc.file, ss.inc.line, n)]
  }

  /** The registry main() of test/test.cpp builds: its six sites in order of first execution, with their lines. */
  function RunRegistry(file: seq<char>, n: nat): seq<Info>
    requires n >= 1
  {
    [Entry("RUNTIME", file, 7, n), Entry("EMPTY", file, 9, n), Entry("LOOP", file, 12, n),
     Entry("REPEAT_OUTER", file, 15, n), Entry("REPEAT_INNER", file, 16, n), Entry("INCREMENT", file, 22, n)]
  }

  /** Sites carrying the program's names and lines register as main() of test/test.cpp does. */
  lemma RunNamed(ss: Sites, file: seq<char>, n: nat)
    requires n >= 1 && Named(ss, file)
    ensures Registered(ss, n) == RunRegistry(file, n)
  {
  }

  /**
   * The records after a run, in push order: RUNTIME's first though it closes
   * last, then EMPTY, LOOP, two per loop pass, and INCREMENT.
   */
  function RunRecords(t: RunTimes): seq<Interval>
  {
    [Interval(0, t.runStart, t.runStop), Interval(1, t.emptyStart, t.emptyStop), Interval(2, t.loopStart, t.loopStop)]
      + NestedClosed(3, 4, t.passes) + [Interval(5, t.incStart, t.incStop)]
  }

  /** The opening of main(): INTERVAL(RUNTIME) on the empty profiler, then EMPTY's full pass. */
  lemma RunBegins(ss: Sites, n: nat, t: RunTimes)
    requires n >= 1
    ensures Closing(Opening(State([], 0, []), ss.runtime, None, n, t.runStart), ss.empty, None, n,
                    t.emptyStart, t.emptyStop)
         == State(Registered(ss, n)[..2], 2, [Interval(0, t.runStart, Blank.stop), Interval(1, t.emptyStart, t.emptyStop)])
  {
  }

  /** The loop of main() after two sites have registered: ids 2, 3 and 4 for its three sites. */
  lemma RunLoops(ss: Sites, n: nat, t: RunTimes, s: State)
    requires n >= 1 && t.passes != [] && s.counter == 2 && s.registry == Registered(ss, n)[..2]
    ensures Looping(s, ss.loop, ss.outer, ss.inner, None, None, None, n, t.loopStart, t.passes, t.loopStop)
         == State(Registered(ss, n)[..5], 5,
                  s.records + [Interval(2, t.loopStart, t.loopStop)] + NestedClosed(3, 4, t.passes))
  {
    LoopingSpec(s, ss.loop, ss.outer, ss.inner, None, None, None, n, t.loopStart, t.passes, t.loopStop);
    var reg := Registered(ss, n);
    assert reg[..2] + [reg[2]] + [reg[3]] + [reg[4]] == reg[..5];
  }

  /** INTERVAL_END(RUNTIME) after INCREMENT's pass stops the first record, which is RUNTIME's. */
  lemma RunStops(t: RunTimes)
    ensures ([Interval(0, t.runStart, Blank.stop), Interval(1, t.emptyStart, t.emptyStop)]
               + [Interval(2, t.loopStart, t.loopStop)] + NestedClosed(3, 4, t.passes)
               + [Interval(5, t.incStart, t.incStop)])[0 := Interval(0, t.runStart, t.runStop)]
         == RunRecords(t)
  {
    var rest := [Interval(1, t.emptyStart, t.emptyStop), Interval(2, t.loopStart, t.loopStop)]
                + NestedClosed(3, 4, t.passes) + [Interval(5, t.incStart, t.incStop)];
    assert [Interval(0, t.runStart, Blank.stop), Interval(1, t.emptyStart, t.emptyStop)]
             + [Interval(2, t.loopStart, t.loopStop)] + NestedClosed(3, 4, t.passes)
             + [Interval(5, t.incStart, t.incStop)]
        == [Interval(0, t.runStart, Blank.stop)] + rest;
  }

  /**
   * The state main() of test/test.cpp leaves, step by step from the empty
   * profiler: ids 0 to 5 for its six sites in order of first execution, and
   * every record its site's id and its own readings, RUNTIME's first though
   * it closes last.
   */
  lemma RunSpec(ss: Sites, n: nat, t: RunTimes)
    requires n >= 1 && t.passes != []
    ensures var s1 := Closing(Opening(State([], 0, []), ss.runtime, None, n, t.runStart), ss.empty, None, n,
                              t.emptyStart, t.emptyStop);
      var s2 := Looping(s1, ss.loop, ss.outer, ss.inner, None, None, None, n, t.loopStart, t.passes, t.loopStop);
      var s3 := Closing(s2, ss.inc, None, n, t.incStart, t.incStop);
      Stopped(s3, 0, t.runStop) == State(Registered(ss, n), 6, RunRecords(t))
  {
    var s1 := Closing(Opening(State([], 0, []), ss.runtime, None, n, t.runStart), ss.empty, None, n,
                      t.emptyStart, t.emptyStop);
    RunBegins(ss, n, t);
    RunLoops(ss, n, t, s1);
    RunStops(t);
    var reg := Registered(ss, n);
    assert reg[..5] + [reg[5]] == reg;
  }

  /**
   * With the sites carrying the program's names, file and lines, the
   * registry main() leaves is the six literal entries of RunRegistry:
   * RUNTIME, EMPTY, LOOP, REPEAT_OUTER, REPEAT_INNER, INCREMENT.
   */
  lemma RunSpecNamed(ss: Sites, file: seq<char>, n: nat, t: RunTimes)
    requires n >= 1 && t.passes != [] && Named(ss, file)
    ensures var s1 := Closing(Opening(State([], 0, []), ss.runtime, None, n, t.runStart), ss.empty, None, n,
                              t.emptyStart, t.emptyStop);
      var s2 := Looping(s1, ss.loop, ss.outer, ss.inner, None, None, None, n, t.loopStart, t.passes, t.loopStop);
      var s3 := Closing(s2, ss.inc, None, n, t.incStart, t.incStop);
      Stopped(s3, 0, t.runStop) == State(RunRegistry(file, n), 6, RunRecords(t))
  {
    RunSpec(ss, n, t);
    RunNamed(ss, file, n);
  }

  /**
   * INTERVAL(first), then a full pass of `second` while the first record is
   * held; returns the reference to the first record.
   */
  method Begin(p: Profiler, first: CallSite, second: CallSite, start: int, secondStart: int, secondStop: int)
    returns (r: Ref)
    requires p.Valid() && Apart(p, first, second) && IdsKnown(p.Records(), p.registry)
    modifies p, first, second, p.store.Repr
    ensures p.Valid() && fresh(p.store.Repr - old(p.store.Repr)) && IdsKnown(p.Records(), p.registry)
    ensures IsRefIn(p.store.Elems, r) && Index(r, p.store.chunkSize) == old(|p.Records()|)
    ensures p.Abstract() == Closing(Opening(old(p.Abstract()), first, old(first.id), p.N, start),
                                    second, old(second.id), p.N, secondStart, secondStop)
  {
    r := p.IntervalOpen(first, start);
    ghost var held := p.store.Elems;
    Pass(p, second, secondStart, secondStop);
    RefStaysIn(held, p.store.Elems, p.store.chunkSize, r);
  }

  /**
   * The rest of main() while `held` refers to RUNTIME's record: the loop of
   * test/test.cpp:12-20, INCREMENT's full pass, then INTERVAL_END(RUNTIME).
   */
  method Finish(p: Profiler, held: Ref, loop: CallSite, outer: CallSite, inner: CallSite, inc: CallSite, t: RunTimes)
    requires p.Valid() && IsRefIn(p.store.Elems, held) && IdsKnown(p.Records(), p.registry)
    requires Apart3(p, loop, outer, inner) && inc != loop && inc != outer && inc != inner
    requires inc !in p.store.Repr && inc.id == None
    modifies p, loop, outer, inner, inc, p.store.Repr
    ensures p.Valid() && IdsKnown(p.Records(), p.registry)
    ensures Index(held, p.store.chunkSize) < |old(p.Records())|
    ensures p.Abstract() == Stopped(Closing(Looping(old(p.Abstract()), loop, outer, inner, old(loop.id), old(outer.id),
                                                    old(inner.id), p.N, t.loopStart, t.passes, t.loopStop),
                                            inc, old(inc.id), p.N, t.incStart, t.incStop),
                                    Index(held, p.store.chunkSize), t.runStop)
  {
    ShapedIndex(p.store.Elems, p.store.chunkSize, held);
    ghost var elems := p.store.Elems;
    LoopScenario(p, loop, outer, inner, t.loopStart, t.passes, t.loopStop);
    RefStaysIn(elems, p.store.Elems, p.store.chunkSize, held);
    HoldPass(p, inc, held, t.incStart, t.incStop, t.runStop);
  }
}
