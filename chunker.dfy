/**
 * The append-only chunked store `chunker<T>`.
 *
 * The store keeps a list of vectors ("chunks"), each of which reserves
 * `chunk_size` slots when it is created, and a cursor on the chunk being
 * filled.  There is always one empty spare chunk after the cursor.  A push
 * moves to the spare (and appends a new spare) when the cursor chunk is
 * full, so no vector ever grows past its reservation and a reference to a
 * slot stays valid for the life of the store.
 *
 * The first half of the module is the abstract view: the chunks as a
 * sequence of sequences, with the layout invariant, the effect of a push
 * and of a write through a reference, and the lemmas about them.  The
 * class `Chunker` is the in-place store over arrays, proved against that
 * view.
 */
module Chunking {

  /** A reference into the store: slot `offset` of chunk number `chunk`. */
  datatype Ref = Ref(chunk: nat, offset: nat)

  /** The elements of the chunks in list order, each chunk in index order. */
  function Concat<T>(ss: seq<seq<T>>): seq<T>
  {
    if ss == [] then [] else Concat(ss[..|ss| - 1]) + ss[|ss| - 1]
  }

  /**
   * The layout the store keeps: two or more chunks, the last one empty
   * (the spare), the one before it (the cursor chunk) holding at most
   * `size` elements, and every chunk before the cursor holding exactly
   * `size`.
   */
  ghost predicate Shaped<T>(ss: seq<seq<T>>, size: nat)
  {
    && size > 0
    && |ss| >= 2
    && (forall i :: 0 <= i < |ss| - 2 ==> |ss[i]| == size)
    && |ss[|ss| - 2]| <= size
    && ss[|ss| - 1] == []
  }

  /** `r` names a slot that holds an element. */
  ghost predicate IsRefIn<T>(ss: seq<seq<T>>, r: Ref)
  {
    r.chunk < |ss| && r.offset < |ss[r.chunk]|
  }

  /** The position of slot `r` in append order when chunks hold `size` slots. */
  function Index(r: Ref, size: nat): nat
  {
    r.chunk * size + r.offset
  }

  /**
   * The chunks after `push_back(item)`: when the cursor chunk is full the
   * cursor moves to the spare and a new spare is appended; the item then
   * goes at the end of the cursor chunk.
   */
  ghost function Pushed<T>(ss: seq<seq<T>>, size: nat, item: T): seq<seq<T>>
    requires |ss| >= 2
  {
    var c := |ss| - 2;
    if |ss[c]| == size then ss[..c + 1] + [[item], []]
    else ss[c := ss[c] + [item]]
  }

  /** The slot `push_back` returns: the last element of the cursor chunk. */
  ghost function LastRef<T>(ss: seq<seq<T>>): Ref
    requires |ss| >= 2 && |ss[|ss| - 2]| >= 1
  {
    Ref(|ss| - 2, |ss[|ss| - 2]| - 1)
  }

  /** The chunks after storing `v` through reference `r`. */
  ghost function Written<T>(ss: seq<seq<T>>, r: Ref, v: T): seq<seq<T>>
    requires IsRefIn(ss, r)
  {
    ss[r.chunk := ss[r.chunk][r.offset := v]]
  }

  lemma ConcatSnoc<T>(ss: seq<seq<T>>, s: seq<T>)
    ensures Concat(ss + [s]) == Concat(ss) + s
  {
    assert (ss + [s])[..|ss|] == ss;
  }

  /** One more chunk of the prefix adds that chunk's elements. */
  lemma ConcatStep<T>(ss: seq<seq<T>>, i: nat)
    requires i < |ss|
    ensures Concat(ss[..i + 1]) == Concat(ss[..i]) + ss[i]
  {
    assert ss[..i + 1][..i] == ss[..i];
  }

  /** Concatenating a prefix of the chunks gives a prefix of the elements. */
  lemma {:induction false} ConcatPrefix<T>(ss: seq<seq<T>>, k: nat)
    requires k <= |ss|
    ensures Concat(ss[..k]) <= Concat(ss)
    decreases |ss|
  {
    if k < |ss| {
      var init := ss[..|ss| - 1];
      ConcatPrefix(init, k);
      assert init[..k] == ss[..k];
    } else {
      assert ss[..k] == ss;
    }
  }

  /** k chunks of `size` elements hold k * size elements. */
  lemma {:induction false} ConcatUniform<T>(ss: seq<seq<T>>, k: nat, size: nat)
    requires k <= |ss|
    requires forall i :: 0 <= i < k ==> |ss[i]| == size
    ensures |Concat(ss[..k])| == k * size
  {
    if k > 0 {
      ConcatUniform(ss, k - 1, size);
      assert ss[..k][..k - 1] == ss[..k - 1];
    }
  }

  /** Element `o` of chunk `c` follows the elements of the chunks before c. */
  lemma ConcatAt<T>(ss: seq<seq<T>>, c: nat, o: nat)
    requires c < |ss| && o < |ss[c]|
    ensures |Concat(ss[..c])| + o < |Concat(ss)|
    ensures Concat(ss)[|Concat(ss[..c])| + o] == ss[c][o]
  {
    ConcatPrefix(ss, c + 1);
    assert ss[..c + 1][..c] == ss[..c];
  }

  /** Overwriting one slot of one chunk overwrites one element of the concatenation. */
  lemma {:induction false} ConcatUpdate<T>(ss: seq<seq<T>>, c: nat, o: nat, v: T)
    requires c < |ss| && o < |ss[c]|
    ensures |Concat(ss[..c])| + o < |Concat(ss)|
    ensures Concat(ss[c := ss[c][o := v]]) == Concat(ss)[|Concat(ss[..c])| + o := v]
    decreases |ss|
  {
    ConcatAt(ss, c, o);
    var n := |ss|;
    var ss' := ss[c := ss[c][o := v]];
    if c == n - 1 {
      assert ss'[..n - 1] == ss[..n - 1] == ss[..c];
    } else {
      var init := ss[..n - 1];
      ConcatUpdate(init, c, o, v);
      ConcatAt(init, c, o);
      assert ss'[..n - 1] == init[c := init[c][o := v]];
      assert init[..c] == ss[..c];
    }
  }

  /** The two last chunks split off the concatenation. */
  lemma ConcatLastTwo<T>(ss: seq<seq<T>>)
    requires |ss| >= 2
    ensures Concat(ss) == Concat(ss[..|ss| - 2]) + ss[|ss| - 2] + ss[|ss| - 1]
  {
    var n := |ss|;
    assert ss[..n - 1][..n - 2] == ss[..n - 2];
  }

  /**
   * In the store's layout, the elements number (chunks before the cursor)
   * times `size` plus the cursor chunk's count, and slot `o` of chunk `c`
   * is element number c * size + o in append order.
   */
  lemma ShapedIndex<T>(ss: seq<seq<T>>, size: nat, r: Ref)
    requires Shaped(ss, size) && IsRefIn(ss, r)
    ensures |Concat(ss)| == (|ss| - 2) * size + |ss[|ss| - 2]|
    ensures r.chunk <= |ss| - 2
    ensures Index(r, size) < |Concat(ss)| && Concat(ss)[Index(r, size)] == ss[r.chunk][r.offset]
  {
    var n := |ss|;
    ConcatLastTwo(ss);
    ConcatUniform(ss, n - 2, size);
    ConcatUniform(ss, r.chunk, size);
    ConcatAt(ss, r.chunk, r.offset);
  }

  /**
   * In the layout the element count is (chunks before the cursor) times
   * `size` plus the cursor chunk's count.
   */
  lemma ShapedLength<T>(ss: seq<seq<T>>, size: nat)
    requires Shaped(ss, size)
    ensures |Concat(ss)| == (|ss| - 2) * size + |ss[|ss| - 2]|
  {
    ConcatLastTwo(ss);
    ConcatUniform(ss, |ss| - 2, size);
  }

  /**
   * Slot `off` of chunk `k` lies before the end of a layout whose cursor is
   * chunk `c` holding `last` elements only when `k` is at most `c`, and
   * within the first `last` slots when `k` is `c`.
   */
  lemma SlotBound(k: nat, off: nat, c: nat, last: nat, size: nat)
    requires off < size && last <= size && k * size + off < c * size + last
    ensures k <= c && (k == c ==> off < last)
  {
    assert k * size < (c + 1) * size;
    MulLess(k, c + 1, size);
  }

  /** a * size < b * size means a < b. */
  lemma MulLess(a: nat, b: nat, size: nat)
    requires a * size < b * size
    ensures a < b
  {
  }

  /**
   * A reference into a store stays a reference into any later state of it
   * that holds at least as many elements: a slot, once written, is never
   * given up.
   */
  lemma RefStaysIn<T>(ss: seq<seq<T>>, ss': seq<seq<T>>, size: nat, r: Ref)
    requires Shaped(ss, size) && Shaped(ss', size) && IsRefIn(ss, r)
    requires |Concat(ss)| <= |Concat(ss')|
    ensures IsRefIn(ss', r)
  {
    ShapedIndex(ss, size, r);
    ShapedLength(ss', size);
    var c := |ss'| - 2;
    assert r.offset < |ss[r.chunk]| <= size;
    SlotBound(r.chunk, r.offset, c, |ss'[c]|, size);
  }

  /**
   * push_back keeps the layout, enters a new chunk exactly when the cursor
   * chunk is full, and puts the item in the slot it returns.
   */
  lemma PushedShaped<T>(ss: seq<seq<T>>, size: nat, item: T)
    requires Shaped(ss, size)
    ensures var p := Pushed(ss, size, item);
      && Shaped(p, size)
      && |p| == (if |ss[|ss| - 2]| == size then |ss| + 1 else |ss|)
      && |p[|p| - 2]| >= 1
      && IsRefIn(p, LastRef(p)) && p[LastRef(p).chunk][LastRef(p).offset] == item
  {
  }

  /**
   * push_back appends the item to the elements in append order, and the
   * slot it returns is the next index in that order.
   */
  lemma PushedConcat<T>(ss: seq<seq<T>>, size: nat, item: T)
    requires Shaped(ss, size)
    ensures var p := Pushed(ss, size, item);
      && |p| >= 2 && |p[|p| - 2]| >= 1
      && Index(LastRef(p), size) == |Concat(ss)|
      && Concat(p) == Concat(ss) + [item]
  {
    var p := Pushed(ss, size, item);
    var n := |ss|;
    PushedShaped(ss, size, item);
    ShapedLength(ss, size);
    ShapedLength(p, size);
    ConcatLastTwo(ss);
    ConcatLastTwo(p);
    if |ss[n - 2]| == size {
      assert p[..|p| - 2] == ss[..n - 1] == ss[..n - 2] + [ss[n - 2]];
      ConcatSnoc(ss[..n - 2], ss[n - 2]);
    } else {
      assert p[..|p| - 2] == ss[..n - 2];
    }
  }

  /** Every slot that held an element before a push holds the same element after it. */
  lemma PushedKeeps<T>(ss: seq<seq<T>>, size: nat, item: T, r: Ref)
    requires Shaped(ss, size) && IsRefIn(ss, r)
    ensures IsRefIn(Pushed(ss, size, item), r)
    ensures Pushed(ss, size, item)[r.chunk][r.offset] == ss[r.chunk][r.offset]
  {
  }

  /**
   * A store through a reference keeps the layout and changes exactly one
   * element of the append order: the one at the reference's index.
   */
  lemma WrittenSpec<T>(ss: seq<seq<T>>, size: nat, r: Ref, v: T)
    requires Shaped(ss, size) && IsRefIn(ss, r)
    ensures var w := Written(ss, r, v);
      && Shaped(w, size)
      && Index(r, size) < |Concat(ss)|
      && Concat(w) == Concat(ss)[Index(r, size) := v]
      && forall c, o :: 0 <= c < |ss| && 0 <= o < |ss[c]| ==>
           o < |w[c]| && w[c][o] == if Ref(c, o) == r then v else ss[c][o]
  {
    ShapedIndex(ss, size, r);
    ConcatUniform(ss, r.chunk, size);
    ConcatUpdate(ss, r.chunk, r.offset, v);
  }

  /** A second store through the same reference overrides the first. */
  lemma WrittenTwice<T>(ss: seq<seq<T>>, r: Ref, a: T, b: T)
    requires IsRefIn(ss, r)
    ensures IsRefIn(Written(ss, r, a), r)
    ensures Written(Written(ss, r, a), r, b) == Written(ss, r, b)
  {
    assert ss[r.chunk][r.offset := a][r.offset := b] == ss[r.chunk][r.offset := b];
  }

  /** Storing into the slot a push just returned is the same as pushing the stored value. */
  lemma WrittenPushed<T>(ss: seq<seq<T>>, size: nat, item: T, v: T)
    requires Shaped(ss, size)
    ensures |Pushed(ss, size, item)| >= 2 && |Pushed(ss, size, item)[|Pushed(ss, size, item)| - 2]| >= 1
    ensures Written(Pushed(ss, size, item), LastRef(Pushed(ss, size, item)), v) == Pushed(ss, size, v)
  {
    PushedShaped(ss, size, item);
    var n := |ss|;
    if |ss[n - 2]| == size {
      assert [item][0 := v] == [v];
    } else {
      assert (ss[n - 2] + [item])[|ss[n - 2]| := v] == ss[n - 2] + [v];
    }
  }

  /**
   * `chunker<T>`: a list of arrays of `chunkSize` slots (the reserved
   * vectors), the number of slots each one fills (its size), and the index
   * of the chunk being filled (`chunk_`).  `Elems` is the abstract content
   * of each vector.
   */
  class Chunker<T(0)> {
    const chunkSize: nat
    var chunks: seq<array<T>>
    var fill: seq<nat>
    var cursor: nat

    ghost var Elems: seq<seq<T>>
    ghost var Repr: set<object>

    /** The arrays are distinct, reserved to `chunkSize`, and hold `Elems`. */
    ghost predicate Stored()
      reads this, Repr
    {
      && this in Repr
      && |chunks| == |fill| == |Elems|
      && (forall i :: 0 <= i < |chunks| ==> chunks[i] in Repr && chunks[i].Length == chunkSize)
      && (forall i, j :: 0 <= i < j < |chunks| ==> chunks[i] != chunks[j])
      && (forall i :: 0 <= i < |chunks| ==>
            fill[i] == |Elems[i]| && fill[i] <= chunkSize && chunks[i][..fill[i]] == Elems[i])
    }

    /** Stored, in the layout, with the cursor on the second-to-last chunk. */
    ghost predicate Valid()
      reads this, Repr
    {
      Stored() && Shaped(Elems, chunkSize) && cursor == |chunks| - 2
    }

    /** All elements in list order, each chunk in index order. */
    ghost function Contents(): seq<T>
      reads this
    {
      Concat(Elems)
    }

    /** chunker(chunk_size): one reserved chunk, then `rechunk()`. */
    constructor (chunkSize: nat)
      requires chunkSize > 0
      ensures Valid() && fresh(Repr)
      ensures this.chunkSize == chunkSize
      ensures |chunks| == 2 && cursor == 0 && Elems == [[], []] && Contents() == []
    {
      this.chunkSize := chunkSize;
      var first := new T[chunkSize];
      chunks, fill, cursor := [first], [0], 0;
      Elems, Repr := [[]], {this, first};
      new;
      Rechunk();
      ConcatLastTwo(Elems);
      assert Elems[..0] == [];
    }

    /**
     * rechunk(): the cursor moves to the current last chunk and a fresh
     * reserved chunk is appended.  When every chunk but the last is full
     * the layout holds afterwards.
     */
    method Rechunk()
      requires Stored() && |chunks| >= 1
      modifies this
      ensures Stored() && fresh(Repr - old(Repr))
      ensures cursor == old(|chunks|) - 1
      ensures |chunks| == old(|chunks|) + 1 && chunks[..old(|chunks|)] == old(chunks)
      ensures fresh(chunks[|chunks| - 1])
      ensures fill == old(fill) + [0] && Elems == old(Elems) + [[]]
      ensures old(chunks[|chunks| - 1]) == chunks[cursor]
      ensures (chunkSize > 0 && forall i :: 0 <= i < old(|chunks|) - 1 ==> old(fill)[i] == chunkSize) ==> Valid()
    {
      cursor := |chunks| - 1;
      var next := new T[chunkSize];
      chunks := chunks + [next];
      fill := fill + [0];
      Elems := Elems + [[]];
      Repr := Repr + {next};
    }

    /**
     * push_back(item): rechunks when the cursor chunk is full, then appends
     * `item` to the cursor chunk and returns its slot.  No array is replaced.
     */
    method PushBack(item: T) returns (r: Ref)
      requires Valid()
      modifies Repr
      ensures Valid() && fresh(Repr - old(Repr))
      ensures old(chunks) <= chunks
      ensures cursor == if old(fill[cursor]) == chunkSize then old(cursor) + 1 else old(cursor)
      ensures Elems == Pushed(old(Elems), chunkSize, item)
      ensures |Elems[cursor]| >= 1 && r == LastRef(Elems)
      ensures IsRefIn(Elems, r) && Elems[r.chunk][r.offset] == item
      ensures Index(r, chunkSize) == old(|Contents()|)
      ensures Contents() == old(Contents()) + [item]
    {
      PushedShaped(Elems, chunkSize, item);
      PushedConcat(Elems, chunkSize, item);
      ghost var before := Elems;
      ghost var full := fill[cursor] == chunkSize;
      if fill[cursor] == chunkSize {
        Rechunk();
        assert Elems == before[..cursor] + [[], []];
      }
      ghost var mid := Elems;
      Place(item);
      r := Ref(cursor, fill[cursor] - 1);
      if full {
        assert mid[cursor] == [] && [] + [item] == [item];
        assert Elems == before[..cursor] + [[item], []];
      }
    }

    /**
     * `chunk_->push_back(item)` on a vector with a free reserved slot: the
     * item goes in the next slot of the cursor's array, in place.
     */
    method Place(item: T)
      requires Stored() && cursor < |chunks| && fill[cursor] < chunkSize
      modifies chunks[cursor], this`fill, this`Elems
      ensures Stored()
      ensures fill == old(fill)[cursor := old(fill[cursor]) + 1]
      ensures Elems == old(Elems)[cursor := old(Elems[cursor]) + [item]]
    {
      var a, k := chunks[cursor], fill[cursor];
      a[k] := item;
      assert a[..k + 1] == old(a[..k]) + [item];
      fill := fill[cursor := k + 1];
      Elems := Elems[cursor := Elems[cursor] + [item]];
    }

    /** Reading through a reference. */
    function Get(r: Ref): (v: T)
      reads this, Repr
      requires Valid() && IsRefIn(Elems, r)
      ensures v == Elems[r.chunk][r.offset]
    {
      chunks[r.chunk][r.offset]
    }

    /** Storing through a reference: only that slot of that chunk changes. */
    method Write(r: Ref, v: T)
      requires Valid() && IsRefIn(Elems, r)
      modifies this`Elems, chunks[r.chunk]
      ensures Valid()
      ensures Elems == Written(old(Elems), r, v)
      ensures Index(r, chunkSize) < |old(Contents())|
      ensures Contents() == old(Contents())[Index(r, chunkSize) := v]
    {
      WrittenSpec(Elems, chunkSize, r, v);
      chunks[r.chunk][r.offset] := v;
      Elems := Written(Elems, r, v);
    }

    /** chunks(): the list of vectors, each reserved to chunkSize and filled to `fill`. */
    function Chunks(): (cs: seq<array<T>>)
      reads this, Repr
      requires Valid()
      ensures |cs| == |fill| == cursor + 2
      ensures forall i :: 0 <= i < |cs| ==>
        cs[i].Length == chunkSize && fill[i] <= chunkSize && cs[i][..fill[i]] == Elems[i]
    {
      chunks
    }
  }
}
