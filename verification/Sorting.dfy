/** What the library sort does to a slice: it leaves the same elements, ordered by key. */
module Sorting {

  ghost predicate OrderedBy<T>(key: T -> int, xs: seq<T>) {
    forall i, j :: 0 <= i < j < |xs| ==> key(xs[i]) <= key(xs[j])
  }

  ghost predicate IsSorting<T>(key: T -> int, dst: seq<T>, src: seq<T>) {
    OrderedBy(key, dst) && multiset(dst) == multiset(src)
  }

  lemma {:induction false} SortingKeepsMembers<T>(key: T -> int, dst: seq<T>, src: seq<T>)
    requires IsSorting(key, dst, src)
    ensures |dst| == |src| && forall x :: x in dst <==> x in src
  {
    assert |multiset(dst)| == |multiset(src)|;
    forall x ensures x in dst <==> x in src {
      assert x in dst <==> x in multiset(dst);
      assert x in src <==> x in multiset(src);
    }
  }

  ghost predicate Distinct<T>(xs: seq<T>) { forall i, j :: 0 <= i < j < |xs| ==> xs[i] != xs[j] }

  lemma {:induction false} DistinctCounts<T>(xs: seq<T>, x: T)
    requires Distinct(xs)
    ensures multiset(xs)[x] <= 1
  {
    if xs != [] {
      var n := |xs| - 1;
      DistinctCounts(xs[..n], x);
      assert xs == xs[..n] + [xs[n]];
      if xs[n] == x { assert x !in xs[..n]; }
    }
  }

  lemma {:induction false} SortingKeepsDistinct<T>(key: T -> int, dst: seq<T>, src: seq<T>)
    requires IsSorting(key, dst, src) && Distinct(src)
    ensures Distinct(dst)
  {
    forall i, j | 0 <= i < j < |dst| ensures dst[i] != dst[j] {
      DistinctCounts(src, dst[i]);
      assert dst == dst[..j] + dst[j..];
      assert dst[i] in dst[..j] && dst[j] in dst[j..];
    }
  }

  lemma {:induction false} InsertedMultiset<T>(xs: seq<T>, k: nat, x: T)
    requires k <= |xs|
    ensures multiset(xs[..k] + [x] + xs[k..]) == multiset(xs) + multiset{x}
  {
    assert xs == xs[..k] + xs[k..];
  }

  lemma {:induction false} InsertedOrder<T>(key: T -> int, xs: seq<T>, k: nat, x: T)
    requires k <= |xs| && OrderedBy(key, xs)
    requires forall j :: 0 <= j < k ==> key(xs[j]) < key(x)
    requires k < |xs| ==> key(x) <= key(xs[k])
    ensures OrderedBy(key, xs[..k] + [x] + xs[k..])
  {
    var ys := xs[..k] + [x] + xs[k..];
    forall i, j | 0 <= i < j < |ys| ensures key(ys[i]) <= key(ys[j]) {
      if i < k { assert ys[i] == xs[i]; }
      if k < i { assert ys[i] == xs[i - 1]; }
      if j < k { assert ys[j] == xs[j]; }
      if k < j { assert ys[j] == xs[j - 1]; }
    }
  }

  method Position<T>(key: T -> int, xs: seq<T>, x: T) returns (k: nat)
    ensures k <= |xs| && forall j :: 0 <= j < k ==> key(xs[j]) < key(x)
    ensures k < |xs| ==> key(x) <= key(xs[k])
  {
    k := 0;
    while k < |xs| && key(xs[k]) < key(x)
      invariant 0 <= k <= |xs|
      invariant forall j :: 0 <= j < k ==> key(xs[j]) < key(x)
    {
      k := k + 1;
    }
  }

  /** A stand-in for the library sort. */
  method Sort<T(==)>(key: T -> int, src: seq<T>) returns (dst: seq<T>)
    ensures IsSorting(key, dst, src)
  {
    dst := [];
    for i := 0 to |src|
      invariant IsSorting(key, dst, src[..i])
    {
      var k := Position(key, dst, src[i]);
      InsertedMultiset(dst, k, src[i]);
      InsertedOrder(key, dst, k, src[i]);
      dst := dst[..k] + [src[i]] + dst[k..];
      assert src[..i + 1] == src[..i] + [src[i]];
    }
    assert src[..|src|] == src;
  }
}
