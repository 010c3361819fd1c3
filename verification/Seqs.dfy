/** Sequence operations that the board's list code is written with:
    `Array.prototype.filter` and the first / last position of an element. */
module Seqs {

  import opened Wrappers

  /** `s.filter(p)`: the elements of `s` that satisfy `p`, in their original order. */
  function Filter<T(!new)>(s: seq<T>, p: T -> bool): (r: seq<T>)
    ensures |r| <= |s|
    ensures forall x :: x in r <==> x in s && p(x)
    ensures forall x :: multiset(r)[x] == if p(x) then multiset(s)[x] else 0
  {
    if |s| == 0 then []
    else
      assert s == [s[0]] + s[1..];
      if p(s[0]) then [s[0]] + Filter(s[1..], p) else Filter(s[1..], p)
  }

  /** Filtering distributes over concatenation, so the kept elements stay in order. */
  lemma {:induction false} FilterConcat<T(!new)>(a: seq<T>, b: seq<T>, p: T -> bool)
    ensures Filter(a + b, p) == Filter(a, p) + Filter(b, p)
  {
    if |a| == 0 {
      assert a + b == b;
    } else {
      assert (a + b)[0] == a[0];
      assert (a + b)[1..] == a[1..] + b;
      FilterConcat(a[1..], b, p);
    }
  }

  /** A sequence whose elements all pass the test is kept whole. */
  lemma {:induction false} FilterKeepsAll<T(!new)>(s: seq<T>, p: T -> bool)
    requires forall i :: 0 <= i < |s| ==> p(s[i])
    ensures Filter(s, p) == s
  {
    if |s| > 0 {
      FilterKeepsAll(s[1..], p);
    }
  }

  /** The position of the first occurrence of `x` in `s`. */
  function IndexOf<T(==)>(s: seq<T>, x: T): (r: Option<nat>)
    ensures r.None? <==> x !in s
    ensures r.Some? ==> r.value < |s| && s[r.value] == x && x !in s[..r.value]
  {
    if |s| == 0 then None
    else if s[0] == x then Some(0)
    else
      match IndexOf(s[1..], x)
      case None => None
      case Some(i) =>
        assert s[..i + 1] == [s[0]] + s[1..][..i];
        Some(i + 1)
  }

  /** The position of the last occurrence of `x` in `s`. */
  function LastIndexOf<T(==)>(s: seq<T>, x: T): (r: Option<nat>)
    ensures r.None? <==> x !in s
    ensures r.Some? ==> r.value < |s| && s[r.value] == x && x !in s[r.value + 1..]
  {
    if |s| == 0 then None
    else if s[|s| - 1] == x then Some(|s| - 1)
    else
      var front := s[..|s| - 1];
      assert s == front + [s[|s| - 1]];
      match LastIndexOf(front, x)
      case None => None
      case Some(i) =>
        assert s[i + 1..] == front[i + 1..] + [s[|s| - 1]];
        Some(i)
  }
}
