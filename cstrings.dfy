/**
 * C strings as the site registry sees them: the bounded copy that
 * `get_id` performs with `strncpy` followed by a store of the terminator
 * at index N-1, and the way `operator<<` reads a `char` array back (up to
 * its first NUL).
 *
 * A C string passed by pointer is modelled by the characters the pointer
 * addresses: the string ends at the first NUL, or just past the end of the
 * sequence when it holds none (the terminator is then implicit).
 *
 * Each element of such a sequence stands for one C `char`, that is one
 * byte: lengths and bounds count bytes, as `strlen` and `strncpy` do. A
 * name or file holding multi-byte UTF-8 is cut after N-1 bytes, which may
 * fall inside a character; the model says the same only when its `char`s
 * are read as bytes, not as the Unicode scalars Dafny's `char` can hold.
 */
module CStrings {

  const NUL: char := '\0'

  /** strlen: the number of characters before the first NUL. */
  function CLen(s: seq<char>): (n: nat)
    ensures n <= |s|
    ensures forall i :: 0 <= i < n ==> s[i] != NUL
    ensures n < |s| ==> s[n] == NUL
  {
    if s == [] || s[0] == NUL then 0 else 1 + CLen(s[1..])
  }

  /** The logical string held by a character buffer: what `<<` prints. */
  function CStr(s: seq<char>): (r: seq<char>)
    ensures r <= s
    ensures NUL !in r
    ensures |r| < |s| ==> s[|r|] == NUL
  {
    s[..CLen(s)]
  }

  /**
   * strncpy(dst, src, n) as section 7.24.2.4 of ISO C describes it: the
   * characters of `src` are copied up to its terminator, never more than
   * `n` of them, and when the terminator comes first the rest of the `n`
   * positions are filled with NUL.  The result is the `n` characters
   * written to `dst`.
   */
  function Strncpy(src: seq<char>, n: nat): (dst: seq<char>)
    ensures |dst| == n
    ensures forall i :: 0 <= i < n ==> dst[i] == if i < CLen(src) then src[i] else NUL
    decreases n
  {
    if n == 0 then []
    else if src == [] || src[0] == NUL then [NUL] + Strncpy([], n - 1)
    else [src[0]] + Strncpy(src[1..], n - 1)
  }

  /**
   * What `get_id` leaves in a `char[n]` field: strncpy of `src` bounded to
   * `n`, then the store of NUL at index n-1.  Every character is either one
   * of the first min(strlen(src), n-1) characters of `src`, in place, or NUL.
   */
  function Bounded(src: seq<char>, n: nat): (field: seq<char>)
    requires n >= 1
    ensures |field| == n && field[n - 1] == NUL
    ensures forall i :: 0 <= i < n ==>
      field[i] == if i < CLen(src) && i < n - 1 then src[i] else NUL
  {
    Strncpy(src, n)[n - 1 := NUL]
  }

  /** The first min(strlen(s), n-1) characters of `s`: the C string cut to fit `char[n]`. */
  function Truncated(s: seq<char>, n: nat): (t: seq<char>)
    requires n >= 1
  {
    s[..if CLen(s) < n - 1 then CLen(s) else n - 1]
  }

  /** The strncpy call on a `char` array of length n: writes Strncpy(src, n). */
  method StrNCopy(dst: array<char>, src: seq<char>)
    modifies dst
    ensures dst[..] == Strncpy(src, dst.Length)
  {
    var i := 0;
    while i < dst.Length && i < |src| && src[i] != NUL
      invariant 0 <= i <= dst.Length && i <= CLen(src)
      invariant forall j :: 0 <= j < i ==> dst[j] == src[j]
    {
      dst[i] := src[i];
      i := i + 1;
    }
    ghost var copied := i;
    assert copied == dst.Length || copied == CLen(src);
    while i < dst.Length
      invariant copied <= i <= dst.Length
      invariant forall j :: 0 <= j < copied ==> dst[j] == src[j]
      invariant forall j :: copied <= j < i ==> dst[j] == NUL
    {
      dst[i] := NUL;
      i := i + 1;
    }
    assert forall j :: 0 <= j < dst.Length ==> dst[..][j] == Strncpy(src, dst.Length)[j];
  }

  /** strlen is determined by the position of the first NUL. */
  lemma {:induction false} CLenAt(s: seq<char>, k: nat)
    requires k <= |s|
    requires forall i :: 0 <= i < k ==> s[i] != NUL
    requires k < |s| ==> s[k] == NUL
    ensures CLen(s) == k
  {
    if k > 0 {
      CLenAt(s[1..], k - 1);
    }
  }

  /**
   * Reading a registered field back gives the first min(strlen(src), n-1)
   * characters of the argument: longer strings are truncated, never
   * rejected, and the terminator sits at or before index n-1.
   */
  lemma BoundedReadsBack(src: seq<char>, n: nat)
    requires n >= 1
    ensures CLen(Bounded(src, n)) == |Truncated(src, n)|
    ensures CStr(Bounded(src, n)) == Truncated(src, n)
  {
    var k := if CLen(src) < n - 1 then CLen(src) else n - 1;
    CLenAt(Bounded(src, n), k);
  }

  /** A string shorter than the capacity is kept whole. */
  lemma ShortKeptWhole(src: seq<char>, n: nat)
    requires n >= 1 && CLen(src) < n
    ensures CStr(Bounded(src, n)) == CStr(src)
  {
    BoundedReadsBack(src, n);
  }
}
