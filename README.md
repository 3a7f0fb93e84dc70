# rapid-profile in Dafny

rapid-profile is a header-only C++ interval profiler. Its parts:

- **Call-site registry.** On its first execution, a call site marked with `INTERVAL(NAME)` registers its name, file and line. The name and file are copied into fixed `char[N]` fields. The site gets back a small integer id.
- **Interval records.** Every execution of the site appends an interval record (id, start, stop) to an append-only chunked store, `chunker<interval>`. The store never moves a record once it is stored, so the reference the macro keeps stays valid. `INTERVAL_END(NAME)` and `INTERVAL_START(NAME)` store clock readings through that reference.
- **Report.** At exit, `log()` walks the store and prints one line per record, joined to the record's site entry.

This project models that core as imperative Dafny:

- `cstrings.dfy` (module `CStrings`):
  - C strings as character sequences ending at their first NUL;
  - `strncpy` as section 7.24.2.4 of ISO C describes it;
  - the bounded copy `get_id` performs: `strncpy` to N, then a NUL stored at index N-1;
  - the way `operator<<` reads a `char` array back.
- `chunker.dfy` (module `Chunking`) models `chunker<T>`:
  - an abstract view of the chunk list as a `seq<seq<T>>`, with the layout invariant (full chunks, then the cursor chunk, then one empty spare), the effect of a push and of a store through a reference, and the lemmas about them;
  - the class `Chunker`, over one `array<T>` per reserved vector, with a fill count per chunk and a cursor index, proved against that view.
- `profiler.dfy` (module `RapidProfile`) models `api<N>`:
  - the registry of `info<N>` entries, and the 32-bit id counter (with wrap-around);
  - `get_interval`, `get_id`, and the static per-site id cache;
  - the three macros, as operations on the record a reference names;
  - `log()`, modelled as the sequence of report lines it prints;
  - an abstract `State` (registry, counter, records) with one step function per macro, which the methods are proved against.
- `scenario.dfy` (module `TestProgram`) models the client program `test/test.cpp`:
  - a site inside a loop, and the nested loop of `REPEAT_OUTER` around `REPEAT_INNER` inside `LOOP`, where the outer reference is held across the inner push;
  - `main()` from the empty profiler to `INTERVAL_END(RUNTIME)`, with the ids and records it leaves.

The process-wide statics become the fields of one `Profiler` object:

- `interval_info()` becomes `registry`;
- the counter inside `get_id` becomes `counter`;
- `intervals()` becomes `store`.

Each expansion of `INTERVAL` is a `CallSite` object holding its static id as an `Option<u32>`. Clock readings are integer ticks passed in by the caller.

One model `char` stands for one C `char`, that is one byte. Lengths and the N-1 cut count bytes, as `strlen` and `strncpy` do, so a multi-byte UTF-8 name or `__FILE__` can be cut inside a character. The model agrees with the source only when its `char`s are read as bytes, not as the Unicode scalars a Dafny `char` can hold.

## Model

| member | source | states |
|---|---|---|
| CStrings.CLen | rapid-profile.hpp:139-142 | strlen: all characters before the result are non-NUL, and the character at the result is NUL, or the result is the length |
| CStrings.CStr | rapid-profile.hpp:165 | the string `<<` prints from a char array is a prefix of it, holds no NUL, and stops at the first NUL |
| CStrings.Strncpy | rapid-profile.hpp:139 | strncpy writes exactly n characters: the source's characters before its terminator, then NUL padding |
| CStrings.Bounded | rapid-profile.hpp:139-142 | after strncpy to N and the store at N-1, the field has length N and ends in NUL; each position holds the source's character when it is below strlen and below N-1, and NUL otherwise |
| CStrings.StrNCopy | rapid-profile.hpp:139 | the copy loop on a `char` array leaves the array equal to Strncpy of the source at the array's length |
| CStrings.BoundedReadsBack | rapid-profile.hpp:139-142 | a stored field reads back as the first min(strlen, N-1) characters of the input: long inputs are truncated, never rejected |
| CStrings.ShortKeptWhole | rapid-profile.hpp:139-142 | an input shorter than N reads back whole |
| Chunking.PushedShaped | rapid-profile.hpp:74-81 | a push keeps the layout: chunks before the cursor are full, the cursor chunk is within bounds, and the last chunk is an empty spare. A new chunk is entered exactly when the cursor chunk's size equals chunk_size. The returned slot holds the item. |
| Chunking.PushedConcat | rapid-profile.hpp:74-81 | the chunks in list order gain exactly the pushed item at the end; the returned slot's position in that order is the old element count |
| Chunking.PushedKeeps | rapid-profile.hpp:74-81 | every slot that held an element before a push holds the same element after it (reference stability) |
| Chunking.ShapedIndex | rapid-profile.hpp:74-81 | in the layout, the element count is (full chunks) × chunk_size plus the cursor chunk's size; slot (c, o) is element c × chunk_size + o in append order |
| Chunking.ShapedLength | rapid-profile.hpp:74-81 | the element count is (full chunks) × chunk_size plus the cursor chunk's size |
| Chunking.WrittenSpec | rapid-profile.hpp:198-200 | a store through a reference keeps the layout and changes exactly one element in append order, the referenced one; every other slot is unchanged |
| Chunking.WrittenTwice | rapid-profile.hpp:199-200 | a second store through the same reference overrides the first |
| Chunking.WrittenPushed | rapid-profile.hpp:198-200 | storing into the slot a push just returned equals pushing the stored value |
| Chunking.ConcatPrefix | rapid-profile.hpp:160-164 | the elements of the first k chunks are a prefix of all elements in list order |
| Chunking.ConcatUpdate | rapid-profile.hpp:198-200 | overwriting slot o of chunk c overwrites exactly one element of the concatenation |
| Chunking.RefStaysIn | rapid-profile.hpp:74-81 | a reference into the store is still a reference into any later layout with at least as many elements: a push never gives up a filled slot |
| Chunking.Chunker.constructor | rapid-profile.hpp:58-65 | a new store holds two empty chunks with the cursor on the first, in the valid layout, and holds no elements |
| Chunking.Chunker.Rechunk | rapid-profile.hpp:89-96 | the cursor moves to the old last chunk; one fresh empty reserved chunk is appended; no existing array is replaced; the layout holds afterwards when the chunks before the old last one are full |
| Chunking.Chunker.PushBack | rapid-profile.hpp:74-81 | the new chunks are Pushed of the old ones, so Contents() gains exactly the item and the returned slot holds it. The cursor advances iff the cursor chunk was full. The old arrays stay a prefix of the chunk list. |
| Chunking.Chunker.Place | rapid-profile.hpp:79 | `chunk_->push_back(item)` into a reserved slot: the cursor chunk gains exactly the item at its end and one more filled slot; no other chunk changes |
| Chunking.Chunker.Get | rapid-profile.hpp:80 | reading through a reference gives the element in that slot |
| Chunking.Chunker.Write | rapid-profile.hpp:198-200 | storing through a reference changes that slot's element and no other; Contents() changes at that reference's index only |
| Chunking.Chunker.Chunks | rapid-profile.hpp:83-86 | the chunk list has one vector per chunk (cursor + 2 of them), each reserved to chunk_size and holding the chunk's elements |
| RapidProfile.Next | rapid-profile.hpp:20 | `id++` on `unsigned int` is the successor modulo 2^32 |
| RapidProfile.CounterStep | rapid-profile.hpp:134-144 | `id++` keeps the counter equal to the number of entries modulo 2^32; below 2^32 entries the counter equals that number |
| RapidProfile.EntryReadsBack | rapid-profile.hpp:136-143 | an entry's fields have length N and read back as name and file cut to at most N-1 characters; the line is stored unchanged |
| RapidProfile.Report | rapid-profile.hpp:158-168 | one line per record, in record order, each joined to `interval_info[id]` |
| RapidProfile.ReportStep | rapid-profile.hpp:161-166 | one more record adds exactly its own line at the end of the report |
| RapidProfile.ReportAppend | rapid-profile.hpp:161-164 | the report of two runs of records is the two reports in sequence (no reordering, no filtering) |
| RapidProfile.ReportShowsSite | rapid-profile.hpp:139-143 | report line k shows its site's name and file cut to N-1 characters, the site's line, and record k's start and stop |
| RapidProfile.IdsKnownAppend | rapid-profile.hpp:165 | appending a record whose id indexes the registry, or growing the registry, keeps every id indexing it |
| RapidProfile.OpenedSpec | rapid-profile.hpp:196-200 | pushing a default record, then storing the id, then storing the start, gives the chunks of one push of the finished record |
| RapidProfile.ClosingSpec | rapid-profile.hpp:196-204 | INTERVAL at one reading, then INTERVAL_END at another through the reference it returned, is one full pass: the site is entered once, and exactly one record is appended, with the site's id and both readings |
| RapidProfile.CopyField | rapid-profile.hpp:139-142 | `strncpy(field, src, N); field[N-1] = '\0'` on a fresh `char[N]` leaves Bounded(src, N) |
| RapidProfile.CallSite.constructor | rapid-profile.hpp:197 | a site starts with no cached id |
| RapidProfile.Profiler.constructor | rapid-profile.hpp:177-187 | the statics on first use: empty registry, counter 0, a store of two empty chunks, in the valid state |
| RapidProfile.Profiler.GetInterval | rapid-profile.hpp:126-130 | appends one default record to the store and returns its slot. The slot's index is the old record count. The registry and counter are unchanged. |
| RapidProfile.Profiler.GetId | rapid-profile.hpp:132-145 | appends the entry with the bounded name and file and the line, and returns the old counter. The counter becomes its successor mod 2^32. While fewer than 2^32 sites exist, the returned id is the entry's index (ids 0, 1, 2, …) and the registry holds id + 1 entries. |
| RapidProfile.Profiler.SiteId | rapid-profile.hpp:197 | the first execution registers the site through get_id and caches that id; later executions return the cached id and leave the registry and counter unchanged |
| RapidProfile.Profiler.IntervalOpen | rapid-profile.hpp:196-200 | registers the site once. Appends exactly one record, holding the site's id and the start reading, and returns its slot (index: the old record count). No earlier record changes, and every id still indexes the registry. The new abstract state is Opening of the old one. |
| RapidProfile.Profiler.OpenRecord | rapid-profile.hpp:198-200 | get_interval, then the stores of id and start: exactly one new record, with that id and start and the default stop |
| RapidProfile.Profiler.SetId | rapid-profile.hpp:199 | stores the id in the referenced record only; its other fields, the other records and the registry are unchanged |
| RapidProfile.Profiler.IntervalEnd | rapid-profile.hpp:203-204 | stores the stop reading in the referenced record only; its other fields, the other records, the registry and the counter are unchanged (the abstract state becomes Stopped of the old one) |
| RapidProfile.Profiler.IntervalStart | rapid-profile.hpp:207-208 | stores the start reading in the referenced record only; its other fields, the other records, the registry and the counter are unchanged (the abstract state becomes Started of the old one) |
| RapidProfile.Profiler.Log | rapid-profile.hpp:158-168 | the nested walk over the chunk list and each vector emits exactly Report(records, registry) |
| RapidProfile.Profiler.LogChunk | rapid-profile.hpp:163-166 | the inner walk over one vector emits the report of that vector's records |
| RapidProfile.Init | rapid-profile.hpp:183-191 | the profiler the macros address is `api<NNN>` with N = 32, whose store is built with chunks of CHUNK_SIZE = 1048576 records; it starts valid, with an empty registry, counter 0 and no records |
| TestProgram.ClosedAt | rapid-profile.hpp:197-204 | a site opened and closed once per pass leaves one record per pass: record j carries the site's id and pass j's readings |
| TestProgram.RepeatedCached | rapid-profile.hpp:197 | once a site's id is cached, further passes leave the registry and the counter as they are and only append that site's records |
| TestProgram.RepeatedSpec | rapid-profile.hpp:196-204 | a site inside a loop of at least one pass registers once, on the first pass (one entry if it was new, none otherwise), and appends one closed record per pass, in pass order |
| TestProgram.Pass | test/test.cpp:16-17 | INTERVAL then INTERVAL_END at one site: the abstract state becomes Closing of the old one (one full pass), the site's id is cached, and every record id still indexes the registry |
| TestProgram.Repeat | rapid-profile.hpp:196-204 | the site's macros run once per loop pass: the abstract state becomes Repeated of the old one, so zero passes change nothing and otherwise RepeatedSpec applies; the site's id is cached from the first pass on |
| TestProgram.HoldPass | test/test.cpp:15-18 | a full pass of an inner site while an earlier record is held, then INTERVAL_END through the held reference: that reference still names the same earlier record, and only its stop changes after the inner pass |
| TestProgram.NestingSpec | test/test.cpp:15-18 | INTERVAL(REPEAT_OUTER), the full pass of REPEAT_INNER, then INTERVAL_END(REPEAT_OUTER) through the held reference: both sites entered, outer first; the outer record, then the inner one, each with its own readings |
| TestProgram.NestedPass | test/test.cpp:15-18 | one pass of the loop body on the profiler: the abstract state becomes Nesting of the old one, and both sites' ids are cached |
| TestProgram.NestedClosedAt | test/test.cpp:13-19 | the nested loop leaves two records per pass: pass j's outer record at 2j and its inner record at 2j+1, each with its site's id and its own readings |
| TestProgram.NestedRuns | test/test.cpp:13-19 | the nested loop appends exactly two records per pass |
| TestProgram.NestedRunsCached | test/test.cpp:13-19 | once both sites are registered, further passes leave the registry and counter unchanged and only append the two records per pass |
| TestProgram.NestedRunsSpec | test/test.cpp:13-19 | over at least one pass, each of the two sites registers once, outer first, and the records are those of NestedClosed with the two ids |
| TestProgram.NestedRepeat | test/test.cpp:13-19 | the `for` loop over the nested body: the abstract state becomes NestedRuns of the old one |
| TestProgram.Looping | test/test.cpp:12-20 | the loop with INTERVAL(LOOP) around it appends one record for LOOP plus two per pass |
| TestProgram.LoopingSpec | test/test.cpp:12-20 | LOOP's record comes first and carries LOOP's own start and stop; the body's records follow in pass order; LOOP, REPEAT_OUTER and REPEAT_INNER each register at most once, in that order |
| TestProgram.OpenLoop | test/test.cpp:12-19 | INTERVAL(LOOP), then the loop: returns LOOP's reference, which after all the body's pushes still names LOOP's record (the old record count) |
| TestProgram.LoopScenario | test/test.cpp:12-20 | the whole loop on the profiler: the abstract state becomes Looping of the old one |
| TestProgram.Begin | test/test.cpp:7-10 | INTERVAL(RUNTIME), then EMPTY's full pass: returns RUNTIME's reference, still naming RUNTIME's record, and the abstract state is Closing of Opening of the old one |
| TestProgram.Finish | test/test.cpp:12-27 | the loop, INCREMENT's full pass, then INTERVAL_END(RUNTIME) through the reference held since line 7: the held record is an earlier one, and only its stop changes at the end |
| TestProgram.RunNamed | test/test.cpp:7-22 | sites carrying the program's names, file and lines register as the six entries RUNTIME 7, EMPTY 9, LOOP 12, REPEAT_OUTER 15, REPEAT_INNER 16, INCREMENT 22 |
| TestProgram.RunSpecNamed | test/test.cpp:5-27 | with the sites carrying the program's names, file and lines, main() leaves exactly the registry RUNTIME 7, EMPTY 9, LOOP 12, REPEAT_OUTER 15, REPEAT_INNER 16, INCREMENT 22 (ids 0 to 5), counter 6, and the records of RunSpec |
| TestProgram.RunBegins | test/test.cpp:5-10 | from the empty profiler, RUNTIME gets id 0 and EMPTY id 1; RUNTIME's record is still open |
| TestProgram.RunLoops | test/test.cpp:12-20 | after two registrations, LOOP, REPEAT_OUTER and REPEAT_INNER get ids 2, 3 and 4; LOOP's record is followed by two records per pass |
| TestProgram.RunStops | test/test.cpp:27 | INTERVAL_END(RUNTIME) stops record 0, which is RUNTIME's, without moving any other record |
| TestProgram.RunSpec | test/test.cpp:5-27 | main() leaves six entries, one per site in order of first execution, counter 6, and the records RUNTIME, EMPTY, LOOP, two per pass, INCREMENT, each with its site's id (0 to 5) and its own readings; RUNTIME's record is first though it closes last |

## Left out

- Clock and floating point:
  - `steady_clock::now()` readings are integer ticks passed in by the caller.
  - The `float` duration, `relative`, `since_start` and the `* 1e6` microsecond scaling are not modelled.
  - A report line carries a record's start and stop rather than the printed duration (rapid-profile.hpp:21-25, 37-40, 147-156, 165).
- `std::mutex` and `lock_guard`: concurrency. All operations are modelled as serialised calls (rapid-profile.hpp:128, 135, 171-175).
- `init`, `exit`, `signal`, `std::atexit`, `::signal` and `std::cout` formatting: process hooks and output. `Log` returns the lines instead of printing the text (rapid-profile.hpp:108-124, 165).
- Thread-safe lazy statics:
  - The function-local statics become the fields of one `Profiler` object and a cached id per `CallSite` object (rapid-profile.hpp:134, 179, 185, 197). The other two, `start_time` and the mutex (rapid-profile.hpp:154, 173), are left out with the clock and the lock.
  - The constructor takes N and the chunk size as parameters; `Init` builds the profiler with `NNN` and `CHUNK_SIZE`, as `api<NNN>` and `intervals()` do.
- The chunker destructor and `reserve(1000)`: deallocation and a capacity hint, neither visible to the profiler (rapid-profile.hpp:67-72, 111).
- Uninitialised fields of a default interval:
  - `push_back()` stores `interval()`, which leaves `id` uninitialised. The model fixes it at 0.
  - The default start and stop time points (the clock's epoch) are tick 0.
- Out-of-range ids: an id in `log` that does not index the registry is undefined behaviour in C++. `Log` instead requires every record's id to index the registry, and `IntervalOpen`, `IntervalEnd`, `IntervalStart` and the methods of `TestProgram` preserve that.
- The cursor `chunk_` is a pointer into the list. The model keeps it as an index into the chunk sequence, always equal to the second-to-last position.
- The `std::list` of chunks is modelled as a sequence of arrays plus a fill count per chunk. The `std::list` nodes and each vector's heap buffer are abstracted away: a chunk is one `array<T>` of `chunk_size` slots. The arrays are pairwise distinct, and the store owns them (`Repr`): neither the profiler nor a call site is among them.
- RapidProfile.Profiler.GetId: the source pushes an uninitialised `info_` and then fills the copy at `back()`; the model builds the filled entry and then appends it. No other code observes the intermediate state.
- RapidProfile.Profiler.GetId: once 2^32 sites have registered, the counter wraps and the id no longer equals the entry's index. The contract states the general case only as the counter tracking the entry count modulo 2^32.
- Chunking.Chunker.constructor: requires a chunk size above 0. With 0, the source's cursor sticks on one vector that grows without bound, so references would not stay stable.
- RapidProfile.Profiler.OpenRecord: `INTERVAL`'s two stores into the fresh record (id, then start) are modelled as two separate writes through the reference, `SetId` and then `IntervalStart`.
- Report idempotence: calling `log` twice prints the same lines. It follows from `Log` changing nothing (it has no `modifies` clause) and is not stated separately.
- main() of test/test.cpp is not written out as one method. `Init`, `Begin` and `Finish` are proved against the step functions, and `RunSpec` states what their composition leaves. The local `int i`, its increment and `return i` do not touch the profiler and are not modelled (test/test.cpp:23-24, 29).
- TestProgram.RunSpec, TestProgram.RunLoops: they require at least one loop pass; main() runs five (test/test.cpp:13). With no pass the inner sites never register, and INCREMENT would get id 3.
- TestProgram.NestedRepeat: its contract does not name the two sites' cached ids afterwards. The new state it ends in is stated, and with it the registry and counter.
- TestProgram.Finish: requires INCREMENT not to be registered yet, as in main(), where it runs once.
- The sites given to one scenario method must be distinct objects that the store does not own. In C++ each expansion of `INTERVAL` has its own statics.
