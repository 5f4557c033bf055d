/**
 * Sequence combinators with JavaScript's `Array.prototype` meaning:
 * `filter` keeps the elements that satisfy a predicate in their original
 * order, `reduce` folds from the left starting at an initial value.
 * Both are defined by recursion on the last element so that a loop that
 * walks the array from index 0 upwards can be proved against them.
 */
module Seqs {
  import opened Wrappers

  /** `s.filter(p)` */
  function Filter<T>(s: seq<T>, p: T -> bool): (r: seq<T>)
    ensures |r| <= |s|
    ensures forall i :: 0 <= i < |r| ==> r[i] in s && p(r[i])
    ensures forall i :: 0 <= i < |s| && p(s[i]) ==> s[i] in r
  {
    if s == [] then []
    else Filter(s[..|s| - 1], p) + (if p(s[|s| - 1]) then [s[|s| - 1]] else [])
  }

  /** `s.reduce(f, init)` */
  function FoldLeft<A, B>(f: (B, A) -> B, init: B, s: seq<A>): B
  {
    if s == [] then init else f(FoldLeft(f, init, s[..|s| - 1]), s[|s| - 1])
  }

  /** Filtering distributes over concatenation: order is kept. */
  lemma {:induction false} FilterAppend<T>(a: seq<T>, b: seq<T>, p: T -> bool)
    ensures Filter(a + b, p) == Filter(a, p) + Filter(b, p)
  {
    if b == [] {
      assert a + b == a;
    } else {
      assert (a + b)[..|a + b| - 1] == a + b[..|b| - 1];
      FilterAppend(a, b[..|b| - 1], p);
    }
  }

  /** A predicate that holds everywhere keeps the whole sequence. */
  lemma {:induction false} FilterAll<T>(s: seq<T>, p: T -> bool)
    requires forall i :: 0 <= i < |s| ==> p(s[i])
    ensures Filter(s, p) == s
  {
    if s != [] {
      FilterAll(s[..|s| - 1], p);
    }
  }

  /** Filtering twice with the same predicate is filtering once. */
  lemma {:induction false} FilterIdempotent<T>(s: seq<T>, p: T -> bool)
    ensures Filter(Filter(s, p), p) == Filter(s, p)
  {
    FilterAll(Filter(s, p), p);
  }

  /** `filter(p)` and `filter(not p)` split a sequence between them. */
  lemma {:induction false} FilterPartition<T>(s: seq<T>, p: T -> bool, q: T -> bool)
    requires forall x :: q(x) == !p(x)
    ensures |Filter(s, p)| + |Filter(s, q)| == |s|
  {
    if s != [] {
      FilterPartition(s[..|s| - 1], p, q);
    }
  }

  /** `s.findIndex(p)`: the index of the first element satisfying `p`, if any. */
  function IndexOf<T>(s: seq<T>, p: T -> bool): (r: Option<nat>)
    ensures r.Some? ==> r.value < |s| && p(s[r.value])
    ensures r.Some? ==> forall k :: 0 <= k < r.value ==> !p(s[k])
    ensures r.None? <==> forall k :: 0 <= k < |s| ==> !p(s[k])
  {
    if s == [] then None
    else if p(s[0]) then Some(0)
    else
      match IndexOf(s[1..], p)
      case None => None
      case Some(k) => Some(k + 1)
  }

  /** Two searches that give the same verdict at every index stop at the same place. */
  lemma {:induction false} IndexOfPointwise<T, U>(s: seq<T>, t: seq<U>, p: T -> bool, q: U -> bool)
    requires |s| == |t| && forall k :: 0 <= k < |s| ==> p(s[k]) == q(t[k])
    ensures IndexOf(s, p) == IndexOf(t, q)
  {
    if s != [] {
      IndexOfPointwise(s[1..], t[1..], p, q);
    }
  }
}
