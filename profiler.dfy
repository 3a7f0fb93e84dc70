/**
 * The recorder `api<N>`: a registry of call-site metadata with a counter
 * that hands out site ids, a chunked store of interval records, the
 * INTERVAL / INTERVAL_END / INTERVAL_START operations a call site performs
 * on its record, and the report that joins every record to its site.
 *
 * Clock readings are integer ticks passed in by the caller.  The
 * process-wide statics become the fields of one `Profiler` object and the
 * per-call-site static id becomes a `CallSite` object with a cached id.
 */
module RapidProfile {
  import opened CStrings
  import opened Chunking

  /** The capacity of the name and file fields (NNN) and the chunk size the store is built with. */
  const NNN: nat := 32
  const CHUNK_SIZE: nat := 1048576

  /** `type::id` is `unsigned int`: 32 bits, and `id++` wraps. */
  const IdLimit: int := 0x1_0000_0000
  newtype u32 = x: int | 0 <= x < 0x1_0000_0000

  datatype Option<T> = None | Some(value: T)

  /** `interval`: a site id and the start and stop clock readings, as ticks. */
  datatype Interval = Interval(id: u32, start: int, stop: int)

  /**
   * The record `push_back()` stores for `get_interval`.  C++ leaves the
   * fields of a default-constructed interval uninitialised; the model
   * fixes them at zero.
   */
  const Blank: Interval := Interval(0, 0, 0)

  /** `interval::info<N>`: two `char[N]` fields and a line number. */
  datatype Info = Info(name: seq<char>, file: seq<char>, line: int)

  /** One report line: `<name> @ (<file>:<line>)` and the two readings its duration is taken from. */
  datatype Line = Line(name: seq<char>, file: seq<char>, line: int, start: int, stop: int)

  /** `id++` on an unsigned int. */
  function Next(id: u32): (n: u32)
    ensures n as int == (id as int + 1) % IdLimit
  {
    if id as int == IdLimit - 1 then 0 else id + 1
  }

  /** The counter holds the number of entries modulo 2^32. */
  ghost predicate Tracks(counter: u32, entries: nat)
  {
    counter as int == entries % IdLimit
  }

  /**
   * `id++` keeps the counter tracking the number of entries, and while
   * fewer than 2^32 ids have been handed out the counter equals that number.
   */
  lemma CounterStep(counter: u32, entries: nat)
    requires Tracks(counter, entries)
    ensures Tracks(Next(counter), entries + 1)
    ensures entries < IdLimit ==> counter as int == entries
  {
    var q, r := entries / IdLimit, entries % IdLimit;
    assert entries == q * IdLimit + r;
    if r == IdLimit - 1 {
      assert entries + 1 == (q + 1) * IdLimit;
    } else {
      assert entries + 1 == q * IdLimit + (r + 1);
    }
  }

  /** The registry entry `get_id(name, file, line)` fills in. */
  function Entry(name: seq<char>, file: seq<char>, line: int, n: nat): Info
    requires n >= 1
  {
    Info(Bounded(name, n), Bounded(file, n), line)
  }

  /**
   * A registry entry holds two `char[n]` fields that read back as the
   * name and file cut to at most n-1 characters, and the line unchanged.
   */
  lemma EntryReadsBack(name: seq<char>, file: seq<char>, line: int, n: nat)
    requires n >= 1
    ensures var e := Entry(name, file, line, n);
      && |e.name| == n && |e.file| == n && e.line == line
      && CStr(e.name) == Truncated(name, n) && CStr(e.file) == Truncated(file, n)
  {
    BoundedReadsBack(name, n);
    BoundedReadsBack(file, n);
  }

  /** The line `log` prints for record `rec` whose site entry is `info`. */
  function Join(rec: Interval, info: Info): Line
  {
    Line(CStr(info.name), CStr(info.file), info.line, rec.start, rec.stop)
  }

  /** Every record's id indexes the registry (out of range is undefined in C++). */
  ghost predicate IdsKnown(recs: seq<Interval>, info: seq<Info>)
  {
    forall k :: 0 <= k < |recs| ==> recs[k].id as int < |info|
  }

  /**
   * The report: one line per record, in the order given, each joined to
   * the registry entry its id indexes; nothing is filtered or reordered.
   */
  function Report(recs: seq<Interval>, info: seq<Info>): (lines: seq<Line>)
    requires IdsKnown(recs, info)
    ensures |lines| == |recs|
    ensures forall k :: 0 <= k < |recs| ==> lines[k] == Join(recs[k], info[recs[k].id])
  {
    if recs == [] then []
    else
      var last := recs[|recs| - 1];
      Report(recs[..|recs| - 1], info) + [Join(last, info[last.id])]
  }

  /** Extending the records by one extends the report by that record's line. */
  lemma ReportStep(recs: seq<Interval>, m: nat, info: seq<Info>)
    requires IdsKnown(recs, info) && m < |recs|
    ensures IdsKnown(recs[..m], info) && IdsKnown(recs[..m + 1], info)
    ensures Report(recs[..m + 1], info) == Report(recs[..m], info) + [Join(recs[m], info[recs[m].id])]
  {
    assert recs[..m + 1][..m] == recs[..m];
  }

  /** Appending a record with a known id, or growing the registry, keeps every id known. */
  lemma IdsKnownAppend(recs: seq<Interval>, rec: Interval, info: seq<Info>, info': seq<Info>)
    requires IdsKnown(recs, info) && |info| <= |info'| && rec.id as int < |info'|
    ensures IdsKnown(recs + [rec], info')
  {
  }

  /** A prefix of records with known ids has known ids. */
  lemma IdsKnownPrefix(recs: seq<Interval>, p: seq<Interval>, info: seq<Info>)
    requires IdsKnown(recs, info) && p <= recs
    ensures IdsKnown(p, info)
  {
    assert forall k :: 0 <= k < |p| ==> p[k] == recs[k];
  }

  /** The report of two runs of records is the two reports one after the other. */
  lemma {:induction false} ReportAppend(a: seq<Interval>, b: seq<Interval>, info: seq<Info>)
    requires IdsKnown(a + b, info)
    ensures IdsKnown(a, info) && IdsKnown(b, info)
    ensures Report(a + b, info) == Report(a, info) + Report(b, info)
  {
    assert forall k :: 0 <= k < |a| ==> (a + b)[k] == a[k];
    assert forall k :: 0 <= k < |b| ==> (a + b)[|a| + k] == b[k];
  }

  /**
   * A report line shows its site's name and file cut to at most n-1
   * characters, and its line number unchanged.
   */
  lemma ReportShowsSite(recs: seq<Interval>, info: seq<Info>, k: nat,
                        name: seq<char>, file: seq<char>, line: int, n: nat)
    requires IdsKnown(recs, info) && k < |recs| && n >= 1
    requires info[recs[k].id] == Entry(name, file, line, n)
    ensures var l := Report(recs, info)[k];
      && l.name == Truncated(name, n) && l.file == Truncated(file, n)
      && l.line == line && l.start == recs[k].start && l.stop == recs[k].stop
  {
    var e := Entry(name, file, line, n);
    EntryReadsBack(name, file, line, n);
    var l := Report(recs, info)[k];
    assert l == Join(recs[k], e);
    assert l.name == CStr(e.name) && l.file == CStr(e.file);
  }

  /**
   * The chunks after INTERVAL's three steps (push a default record, store
   * the id, store the start) are those of one push of the finished record.
   */
  lemma OpenedSpec(ss: seq<seq<Interval>>, size: nat, id: u32, t: int)
    requires Shaped(ss, size)
    ensures var p := Pushed(ss, size, Blank);
      && |p| >= 2 && |p[|p| - 2]| >= 1 && IsRefIn(p, LastRef(p))
      && p[LastRef(p).chunk][LastRef(p).offset] == Blank
      && IsRefIn(Written(p, LastRef(p), Blank.(id := id)), LastRef(p))
      && Written(Written(p, LastRef(p), Blank.(id := id)), LastRef(p), Blank.(id := id).(start := t))
         == Pushed(ss, size, Interval(id, t, Blank.stop))
      && Concat(Pushed(ss, size, Interval(id, t, Blank.stop))) == Concat(ss) + [Interval(id, t, Blank.stop)]
  {
    var p := Pushed(ss, size, Blank);
    var rec := Interval(id, t, Blank.stop);
    PushedShaped(ss, size, Blank);
    WrittenTwice(p, LastRef(p), Blank.(id := id), rec);
    WrittenPushed(ss, size, Blank, rec);
    PushedConcat(ss, size, rec);
  }

  /** The entries one execution of a site adds: its own on the first execution, none after. */
  function Firsts(site: CallSite, cached: Option<u32>, n: nat): seq<Info>
    requires n >= 1
  {
    if cached.None? then [Entry(site.name, site.file, site.line, n)] else []
  }

  /** The id a site executes with: its cached id, or else the counter's current value. */
  function IdFrom(cached: Option<u32>, counter: u32): u32
  {
    if cached.Some? then cached.value else counter
  }

  /** The counter after a site executes: bumped only on the site's first execution. */
  function CounterFrom(cached: Option<u32>, counter: u32): u32
  {
    if cached.None? then Next(counter) else counter
  }

  /** What the profiler holds: the registry, the id counter and the records in append order. */
  datatype State = State(registry: seq<Info>, counter: u32, records: seq<Interval>)

  /** The state after a site's id is looked up: registered on its first execution only. */
  function Enter(s: State, site: CallSite, cached: Option<u32>, n: nat): State
    requires n >= 1
  {
    State(s.registry + Firsts(site, cached, n), CounterFrom(cached, s.counter), s.records)
  }

  /** The state after INTERVAL(NAME) at `t`: the site entered, then one record with its id and start. */
  function Opening(s: State, site: CallSite, cached: Option<u32>, n: nat, t: int): State
    requires n >= 1
  {
    var e := Enter(s, site, cached, n);
    State(e.registry, e.counter, s.records + [Interval(IdFrom(cached, s.counter), t, Blank.stop)])
  }

  /** The state after INTERVAL_END through a reference to record `k`. */
  function Stopped(s: State, k: nat, t: int): State
    requires k < |s.records|
  {
    State(s.registry, s.counter, s.records[k := s.records[k].(stop := t)])
  }

  /** The state after INTERVAL_START through a reference to record `k`. */
  function Started(s: State, k: nat, t: int): State
    requires k < |s.records|
  {
    State(s.registry, s.counter, s.records[k := s.records[k].(start := t)])
  }

  /**
   * The state a site's full pass leaves: the site entered, and one more
   * record with the site's id and both readings.
   */
  function Closing(s: State, site: CallSite, cached: Option<u32>, n: nat, start: int, stop: int): State
    requires n >= 1
  {
    State(s.registry + Firsts(site, cached, n), CounterFrom(cached, s.counter),
          s.records + [Interval(IdFrom(cached, s.counter), start, stop)])
  }

  /**
   * INTERVAL(NAME) at `start` followed by INTERVAL_END(NAME) at `stop`,
   * through the reference the first returned, is a full pass.
   */
  lemma ClosingSpec(s: State, site: CallSite, cached: Option<u32>, n: nat, start: int, stop: int)
    requires n >= 1
    ensures Stopped(Opening(s, site, cached, n, start), |s.records|, stop) == Closing(s, site, cached, n, start, stop)
  {
    var id := IdFrom(cached, s.counter);
    assert (s.records + [Interval(id, start, Blank.stop)])[|s.records| := Interval(id, start, stop)]
        == s.records + [Interval(id, start, stop)];
  }

  /**
   * `strncpy(field, src, n); field[n - 1] = '\0';` on a `char[n]` field,
   * returning the field's contents.
   */
  method CopyField(src: seq<char>, n: nat) returns (field: seq<char>)
    requires n >= 1
    ensures field == Bounded(src, n)
  {
    var a := new char[n];
    StrNCopy(a, src);
    a[n - 1] := NUL;
    field := a[..];
  }

  /** One expansion site of the INTERVAL macro, with its static site id. */
  class CallSite {
    const name: seq<char>
    const file: seq<char>
    const line: int
    var id: Option<u32>

    constructor (name: seq<char>, file: seq<char>, line: int)
      ensures this.name == name && this.file == file && this.line == line
      ensures id == None
    {
      this.name, this.file, this.line := name, file, line;
      id := None;
    }
  }

  /**
   * `api<N>` with its statics: `interval_info()` (the registry), the
   * counter inside `get_id`, and `intervals()` (the store).
   */
  class Profiler {
    const N: nat
    const store: Chunker<Interval>
    var registry: seq<Info>
    var counter: u32

    ghost predicate Valid()
      reads this, store, store.Repr
    {
      && N >= 1
      && this !in store.Repr
      && store.Valid()
      && Tracks(counter, |registry|)
    }

    /** The records in append order. */
    ghost function Records(): seq<Interval>
      reads this, store
    {
      store.Contents()
    }

    /** The abstract state: registry, counter and records. */
    ghost function Abstract(): State
      reads this, store
    {
      State(registry, counter, Records())
    }

    /** The statics on first use: an empty registry, a zero counter, a store of two empty chunks. */
    constructor (n: nat, chunkSize: nat)
      requires n >= 1 && chunkSize > 0
      ensures Valid() && fresh(store) && fresh(store.Repr)
      ensures N == n && store.chunkSize == chunkSize
      ensures registry == [] && counter == 0 && Records() == []
    {
      N := n;
      store := new Chunker<Interval>(chunkSize);
      registry := [];
      counter := 0;
    }

    /** get_interval(): appends a default record and returns a reference to it. */
    method GetInterval() returns (r: Ref)
      requires Valid()
      modifies store.Repr
      ensures Valid() && fresh(store.Repr - old(store.Repr))
      ensures registry == old(registry) && counter == old(counter)
      ensures store.Elems == Pushed(old(store.Elems), store.chunkSize, Blank)
      ensures |store.Elems[|store.Elems| - 2]| >= 1 && r == LastRef(store.Elems)
      ensures Records() == old(Records()) + [Blank]
      ensures Index(r, store.chunkSize) == old(|Records()|)
    {
      r := store.PushBack(Blank);
    }

    /**
     * get_id(name, file, line): appends an entry holding the bounded
     * copies of `name` and `file` and the line, and returns the counter's
     * old value, which is the entry's index until the counter wraps.
     */
    method GetId(name: seq<char>, file: seq<char>, line: int) returns (id: u32)
      requires Valid()
      modifies this
      ensures Valid()
      ensures registry == old(registry) + [Entry(name, file, line, N)]
      ensures id == old(counter) && counter == Next(old(counter))
      ensures Tracks(id, old(|registry|))
      ensures old(|registry|) < IdLimit ==>
        id as int == old(|registry|) && |registry| == id as int + 1 && registry[id] == Entry(name, file, line, N)
    {
      var nm := CopyField(name, N);
      var fl := CopyField(file, N);
      registry := registry + [Info(nm, fl, line)];
      CounterStep(counter, |registry| - 1);
      id := counter;
      counter := Next(counter);
    }

    /**
     * The static-local initialisation `static id = get_id(#NAME, __FILE__,
     * __LINE__)`: runs `get_id` on the site's first execution only and
     * caches the id it returns.  The records are not touched.
     */
    method SiteId(site: CallSite) returns (id: u32)
      requires Valid() && site !in store.Repr
      modifies this, site
      ensures Valid() && site.id == Some(id)
      ensures id == IdFrom(old(site.id), old(counter))
      ensures registry == old(registry) + Firsts(site, old(site.id), N)
      ensures counter == CounterFrom(old(site.id), old(counter))
      ensures (old(site.id).Some? ==> old(site.id).value as int < old(|registry|)) ==> id as int < |registry|
    {
      if site.id.None? {
        var got := GetId(site.name, site.file, site.line);
        site.id := Some(got);
      }
      id := site.id.value;
    }

    /**
     * INTERVAL(NAME): gets the site id (registering the site on its first
     * execution only), then opens a record stamped with it.  Returns the
     * reference INTERVAL_INST(NAME).
     */
    method IntervalOpen(site: CallSite, t: int) returns (r: Ref)
      requires Valid() && site !in store.Repr
      modifies this, site, store.Repr
      ensures Valid() && fresh(store.Repr - old(store.Repr))
      ensures site.id == Some(IdFrom(old(site.id), old(counter)))
      ensures registry == old(registry) + Firsts(site, old(site.id), N)
      ensures counter == CounterFrom(old(site.id), old(counter))
      ensures store.Elems == Pushed(old(store.Elems), store.chunkSize, Interval(site.id.value, t, Blank.stop))
      ensures |store.Elems[|store.Elems| - 2]| >= 1 && r == LastRef(store.Elems)
      ensures Records() == old(Records()) + [Interval(site.id.value, t, Blank.stop)]
      ensures Index(r, store.chunkSize) == old(|Records()|)
      ensures Abstract() == Opening(old(Abstract()), site, old(site.id), N, t)
      ensures old(IdsKnown(Records(), registry)) &&
              (old(site.id).Some? ==> old(site.id).value as int < old(|registry|))
              ==> IdsKnown(Records(), registry)
    {
      ghost var recs, info := Records(), registry;
      ghost var known := IdsKnown(recs, info) && (site.id.Some? ==> site.id.value as int < |info|);
      var id := SiteId(site);
      r := OpenRecord(id, t);
      if known {
        IdsKnownAppend(recs, Interval(id, t, Blank.stop), info, registry);
      }
    }

    /**
     * The rest of INTERVAL(NAME): `get_interval()`, then the stores of the
     * id and of the start reading into the fresh record.
     */
    method OpenRecord(id: u32, t: int) returns (r: Ref)
      requires Valid()
      modifies store.Repr
      ensures Valid() && fresh(store.Repr - old(store.Repr))
      ensures registry == old(registry) && counter == old(counter)
      ensures store.Elems == Pushed(old(store.Elems), store.chunkSize, Interval(id, t, Blank.stop))
      ensures |store.Elems[|store.Elems| - 2]| >= 1 && r == LastRef(store.Elems)
      ensures Records() == old(Records()) + [Interval(id, t, Blank.stop)]
      ensures Index(r, store.chunkSize) == old(|Records()|)
    {
      ghost var pre := store.Elems;
      r := GetInterval();
      SetId(r, id);
      IntervalStart(r, t);
      OpenedSpec(pre, store.chunkSize, id, t);
    }

    /** `INTERVAL_INST(NAME).id = INTERVAL_ID(NAME)`: stores the site id in the record `r` refers to. */
    method SetId(r: Ref, id: u32)
      requires Valid() && IsRefIn(store.Elems, r)
      modifies store`Elems, store.chunks[r.chunk]
      ensures Valid() && registry == old(registry) && counter == old(counter)
      ensures store.Elems == Written(old(store.Elems), r, old(store.Elems[r.chunk][r.offset]).(id := id))
      ensures Index(r, store.chunkSize) < |old(Records())|
      ensures Records() == old(Records())[Index(r, store.chunkSize) :=
                                          old(Records()[Index(r, store.chunkSize)]).(id := id)]
    {
      ShapedIndex(store.Elems, store.chunkSize, r);
      var rec := store.Get(r);
      store.Write(r, rec.(id := id));
    }

    /** INTERVAL_END(NAME): stores `t` in the stop field of the record `r` refers to, and nothing else. */
    method IntervalEnd(r: Ref, t: int)
      requires Valid() && IsRefIn(store.Elems, r)
      modifies store`Elems, store.chunks[r.chunk]
      ensures Valid() && registry == old(registry) && counter == old(counter)
      ensures store.Elems == Written(old(store.Elems), r, old(store.Elems[r.chunk][r.offset]).(stop := t))
      ensures Index(r, store.chunkSize) < |old(Records())|
      ensures Records() == old(Records())[Index(r, store.chunkSize) :=
                                          old(Records()[Index(r, store.chunkSize)]).(stop := t)]
      ensures Abstract() == Stopped(old(Abstract()), Index(r, store.chunkSize), t)
      ensures IdsKnown(old(Records()), registry) ==> IdsKnown(Records(), registry)
    {
      ShapedIndex(store.Elems, store.chunkSize, r);
      var rec := store.Get(r);
      store.Write(r, rec.(stop := t));
    }

    /** INTERVAL_START(NAME): stores `t` in the start field of the record `r` refers to, and nothing else. */
    method IntervalStart(r: Ref, t: int)
      requires Valid() && IsRefIn(store.Elems, r)
      modifies store`Elems, store.chunks[r.chunk]
      ensures Valid() && registry == old(registry) && counter == old(counter)
      ensures store.Elems == Written(old(store.Elems), r, old(store.Elems[r.chunk][r.offset]).(start := t))
      ensures Index(r, store.chunkSize) < |old(Records())|
      ensures Records() == old(Records())[Index(r, store.chunkSize) :=
                                          old(Records()[Index(r, store.chunkSize)]).(start := t)]
      ensures Abstract() == Started(old(Abstract()), Index(r, store.chunkSize), t)
      ensures IdsKnown(old(Records()), registry) ==> IdsKnown(Records(), registry)
    {
      ShapedIndex(store.Elems, store.chunkSize, r);
      var rec := store.Get(r);
      store.Write(r, rec.(start := t));
    }

    /**
     * log(): walks the chunks in list order and each chunk in index order,
     * emitting for every record the line joined to its registry entry.
     */
    method Log() returns (lines: seq<Line>)
      requires Valid() && IdsKnown(Records(), registry)
      ensures lines == Report(Records(), registry)
    {
      ghost var elems := store.Elems;
      var chunks := store.Chunks();
      lines := [];
      var i := 0;
      while i < |chunks|
        invariant 0 <= i <= |chunks|
        invariant IdsKnown(Concat(elems[..i]), registry)
        invariant lines == Report(Concat(elems[..i]), registry)
      {
        ConcatPrefix(elems, i + 1);
        ConcatStep(elems, i);
        IdsKnownPrefix(Records(), Concat(elems[..i + 1]), registry);
        ReportAppend(Concat(elems[..i]), elems[i], registry);
        var part := LogChunk(chunks[i], store.fill[i]);
        lines := lines + part;
        i := i + 1;
      }
      assert elems[..i] == elems;
    }

    /** The inner loop of log(): the lines for the first n records of one vector. */
    method LogChunk(v: array<Interval>, n: nat) returns (lines: seq<Line>)
      requires n <= v.Length && IdsKnown(v[..n], registry)
      ensures lines == Report(v[..n], registry)
    {
      ghost var recs := v[..n];
      lines := [];
      var j := 0;
      while j < n
        invariant 0 <= j <= n
        invariant IdsKnown(recs[..j], registry)
        invariant lines == Report(recs[..j], registry)
      {
        ReportStep(recs, j, registry);
        var rec := v[j];
        assert rec == recs[j];
        var e := registry[rec.id];
        lines := lines + [Line(CStr(e.name), CStr(e.file), e.line, rec.start, rec.stop)];
        j := j + 1;
      }
      assert recs[..j] == recs;
    }
  }

  /**
   * The profiler the macros address: `api<NNN>`, whose store is built on
   * first use with chunks of CHUNK_SIZE records; RAPID_PROFILE_INIT() finds
   * it empty.
   */
  method Init() returns (p: Profiler)
    ensures p.Valid() && fresh(p) && fresh(p.store) && fresh(p.store.Repr)
    ensures p.N == NNN && p.store.chunkSize == CHUNK_SIZE
    ensures p.Abstract() == State([], 0, [])
  {
    p := new Profiler(NNN, CHUNK_SIZE);
  }
}
