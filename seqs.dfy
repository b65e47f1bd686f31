/** Generic sequence helpers standing for JavaScript's `Array.prototype.find`,
    `findIndex` and `filter`. */
module Seqs {
  import opened Wrappers

  /** `a` is obtained from `b` by deleting elements (order is kept). */
  ghost predicate IsSubsequence<T>(a: seq<T>, b: seq<T>)
    decreases |b|
  {
    if a == [] then true
    else if b == [] then false
    else (a[0] == b[0] && IsSubsequence(a[1..], b[1..])) || IsSubsequence(a, b[1..])
  }

  /** Appending to the longer sequence, or to both, keeps a subsequence. */
  lemma {:induction false} SubsequenceSnoc<T>(a: seq<T>, b: seq<T>, x: T)
    requires IsSubsequence(a, b)
    ensures IsSubsequence(a, b + [x])
    ensures IsSubsequence(a + [x], b + [x])
    decreases |b|
  {
    if a == [] {
      assert IsSubsequence([x], [x]) by {
        assert [x][1..] == [];
      }
      SubsequenceOfSnoc([x], b, x);
      assert a + [x] == [x];
    } else {
      assert b != [];
      assert (b + [x])[1..] == b[1..] + [x];
      assert (a + [x])[1..] == a[1..] + [x];
      if a[0] == b[0] && IsSubsequence(a[1..], b[1..]) {
        SubsequenceSnoc(a[1..], b[1..], x);
      } else {
        SubsequenceSnoc(a, b[1..], x);
      }
    }
  }

  /** One step of a filter: the kept elements stay a subsequence whether
      or not the next element is kept. */
  lemma SubsequenceStep<T>(kept: seq<T>, b: seq<T>, x: T, next: seq<T>)
    requires IsSubsequence(kept, b)
    requires next == kept || next == kept + [x]
    ensures IsSubsequence(next, b + [x])
  {
    SubsequenceSnoc(kept, b, x);
  }

  /** A subsequence of `[x]` padded on the left by `b`. */
  lemma {:induction false} SubsequenceOfSnoc<T>(a: seq<T>, b: seq<T>, x: T)
    requires IsSubsequence(a, [x])
    ensures IsSubsequence(a, b + [x])
    decreases |b|
  {
    if b != [] && a != [] {
      assert (b + [x])[1..] == b[1..] + [x];
      SubsequenceOfSnoc(a, b[1..], x);
    }
  }

  /** Index of the first element satisfying `p`, as `findIndex` (None for -1). */
  function FirstIndex<T>(s: seq<T>, p: T -> bool): (r: Option<nat>)
    ensures r.Some? ==> r.value < |s| && p(s[r.value])
    ensures r.Some? ==> forall j :: 0 <= j < r.value ==> !p(s[j])
    ensures r.None? ==> forall j :: 0 <= j < |s| ==> !p(s[j])
  {
    if s == [] then None
    else if p(s[0]) then Some(0)
    else match FirstIndex(s[1..], p)
      case Some(i) => Some(i + 1)
      case None => None
  }

  /** The first element satisfying `p`, as `find` (None for undefined). */
  function Find<T(!new)>(s: seq<T>, p: T -> bool): (r: Option<T>)
    ensures r.Some? ==> p(r.value) && r.value in s
    ensures r.None? <==> forall x :: x in s ==> !p(x)
    ensures r.Some? ==> exists i :: 0 <= i < |s| && s[i] == r.value && forall j :: 0 <= j < i ==> !p(s[j])
  {
    match FirstIndex(s, p)
    case Some(i) => Some(s[i])
    case None => None
  }

  /** The elements satisfying `p`, in their original order, as `filter`. */
  function Filter<T(!new)>(s: seq<T>, p: T -> bool): (r: seq<T>)
    ensures |r| <= |s|
    ensures forall x :: x in r <==> x in s && p(x)
    ensures IsSubsequence(r, s)
    ensures forall x :: multiset(r)[x] == (if p(x) then multiset(s)[x] else 0)
  {
    if s == [] then []
    else
      assert s == [s[0]] + s[1..];
      if p(s[0]) then [s[0]] + Filter(s[1..], p)
      else Filter(s[1..], p)
  }
}
