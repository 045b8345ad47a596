/** Small vocabulary shared by the models. */
module Common {

  datatype Option<+T> = None | Some(value: T)

  function Min(a: nat, b: nat): nat {
    if a <= b then a else b
  }

  function Max(a: nat, b: nat): nat {
    if a <= b then b else a
  }

  lemma {:induction false} SubsetSize<T>(xs: set<T>, ys: set<T>)
    requires xs <= ys
    ensures |xs| <= |ys|
  {
    if xs != {} {
      var x :| x in xs;
      SubsetSize(xs - {x}, ys - {x});
    }
  }
}

/** Selecting the `limit` smallest of a pool by key: what the stores do before they claim a batch. */
module Sorting {
  import opened Common

  /** Lexicographic order on two-part keys such as `(created_at, id)`. */
  predicate KeyLeq(a: (int, int), b: (int, int)) {
    a.0 < b.0 || (a.0 == b.0 && a.1 <= b.1)
  }

  ghost predicate SortedBy<T>(xs: seq<T>, key: T -> (int, int)) {
    forall i, j :: 0 <= i < j < |xs| ==> KeyLeq(key(xs[i]), key(xs[j]))
  }

  method SortByKey<T>(xs: seq<T>, key: T -> (int, int)) returns (ys: seq<T>)
    ensures multiset(ys) == multiset(xs)
    ensures SortedBy(ys, key)
  {
    ys := [];
    for i := 0 to |xs|
      invariant multiset(ys) == multiset(xs[..i])
      invariant SortedBy(ys, key)
    {
      assert xs[..i + 1] == xs[..i] + [xs[i]];
      ys := InsertByKey(ys, xs[i], key);
    }
    assert xs[..|xs|] == xs;
  }

  method InsertByKey<T>(ys: seq<T>, x: T, key: T -> (int, int)) returns (zs: seq<T>)
    requires SortedBy(ys, key)
    ensures multiset(zs) == multiset(ys) + multiset{x}
    ensures SortedBy(zs, key)
  {
    var k := |ys|;
    while 0 < k && !KeyLeq(key(ys[k - 1]), key(x))
      invariant 0 <= k <= |ys|
      invariant forall j :: k <= j < |ys| ==> KeyLeq(key(x), key(ys[j]))
    {
      k := k - 1;
    }
    zs := ys[..k] + [x] + ys[k..];
    InsertionKeepsOrder(ys, x, k, key);
    assert ys == ys[..k] + ys[k..];
  }

  lemma InsertionKeepsOrder<T>(ys: seq<T>, x: T, k: nat, key: T -> (int, int))
    requires SortedBy(ys, key)
    requires k <= |ys| && (k > 0 ==> KeyLeq(key(ys[k - 1]), key(x)))
    requires forall j :: k <= j < |ys| ==> KeyLeq(key(x), key(ys[j]))
    ensures SortedBy(ys[..k] + [x] + ys[k..], key)
  {
    var zs := ys[..k] + [x] + ys[k..];
    forall i, j | 0 <= i < j < |zs| ensures KeyLeq(key(zs[i]), key(zs[j])) {
      var before := if i < k then ys[i] else if i == k then x else ys[i - 1];
      var after := if j < k then ys[j] else if j == k then x else ys[j - 1];
      assert zs[i] == before && zs[j] == after;
      if j == k {
        assert KeyLeq(key(ys[i]), key(ys[k - 1]));
      }
    }
  }

  ghost predicate Distinct<T>(xs: seq<T>) {
    forall i, j :: 0 <= i < j < |xs| ==> xs[i] != xs[j]
  }

  /** `picked` is as much of `pool` as the limit allows, in key order, leaving nothing smaller behind. */
  ghost predicate SmallestBy<T>(pool: set<T>, key: T -> (int, int), limit: nat, picked: seq<T>) {
    && Distinct(picked)
    && |picked| == Min(limit, |pool|)
    && (forall i :: 0 <= i < |picked| ==> picked[i] in pool)
    && SortedBy(picked, key)
    && (forall i, x :: 0 <= i < |picked| && x in pool && x !in picked ==> KeyLeq(key(picked[i]), key(x)))
  }

  /** Collect, sort, truncate. The pool is visited in no particular order, as a hash map is. */
  method SelectSmallest<T(==)>(pool: set<T>, key: T -> (int, int), limit: nat) returns (picked: seq<T>)
    ensures SmallestBy(pool, key, limit, picked)
  {
    var all := Collect(pool);
    var sorted := SortByKey(all, key);
    PermutationKeepsDistinct(all, sorted);
    picked := sorted[..Min(limit, |sorted|)];
    TruncationIsSmallest(pool, key, limit, sorted);
  }

  method Collect<T(==)>(pool: set<T>) returns (all: seq<T>)
    ensures Distinct(all) && |all| == |pool|
    ensures forall x :: x in all <==> x in pool
  {
    all := [];
    var left := pool;
    while left != {}
      invariant Distinct(all)
      invariant |all| + |left| == |pool|
      invariant forall x :: x in pool <==> x in all || x in left
      invariant forall x :: x in all ==> x !in left
      decreases |left|
    {
      var x :| x in left;
      all := all + [x];
      left := left - {x};
    }
  }

  lemma PermutationKeepsDistinct<T>(xs: seq<T>, ys: seq<T>)
    requires multiset(xs) == multiset(ys) && Distinct(xs)
    ensures Distinct(ys) && |ys| == |xs|
    ensures forall x :: x in xs <==> x in ys
  {
    assert |multiset(xs)| == |xs| && |multiset(ys)| == |ys|;
    forall x ensures x in xs <==> x in ys {
      assert x in xs <==> x in multiset(xs);
      assert x in ys <==> x in multiset(ys);
    }
    forall i, j | 0 <= i < j < |ys| ensures ys[i] != ys[j] {
      if ys[i] == ys[j] {
        TwiceMeansTwo(ys, i, j);
        OnceAtMost(xs, ys[i]);
      }
    }
  }

  lemma TwiceMeansTwo<T>(ys: seq<T>, i: nat, j: nat)
    requires i < j < |ys| && ys[i] == ys[j]
    ensures multiset(ys)[ys[i]] >= 2
  {
    assert ys == ys[..j] + [ys[j]] + ys[j + 1..];
    assert ys[i] in ys[..j];
  }

  lemma {:induction false} OnceAtMost<T>(xs: seq<T>, x: T)
    requires Distinct(xs)
    ensures multiset(xs)[x] <= 1
  {
    if xs != [] {
      var n := |xs| - 1;
      OnceAtMost(xs[..n], x);
      assert xs == xs[..n] + [xs[n]];
      if xs[n] == x {
        assert x !in xs[..n];
      }
    }
  }

  lemma TruncationIsSmallest<T>(pool: set<T>, key: T -> (int, int), limit: nat, sorted: seq<T>)
    requires Distinct(sorted) && |sorted| == |pool|
    requires forall x :: x in sorted <==> x in pool
    requires SortedBy(sorted, key)
    ensures SmallestBy(pool, key, limit, sorted[..Min(limit, |sorted|)])
  {
    var picked := sorted[..Min(limit, |sorted|)];
    forall i | 0 <= i < |picked| ensures picked[i] in pool {
      assert sorted[i] in sorted;
    }
    forall i, x | 0 <= i < |picked| && x in pool && x !in picked ensures KeyLeq(key(picked[i]), key(x)) {
      var rest := sorted[|picked|..];
      assert sorted == picked + rest;
      var k :| 0 <= k < |rest| && rest[k] == x;
      assert sorted[|picked| + k] == x;
    }
  }

  lemma {:induction false} DistinctCount<T>(xs: seq<T>)
    requires Distinct(xs)
    ensures |set x | x in xs| == |xs|
  {
    if xs != [] {
      var n := |xs| - 1;
      DistinctCount(xs[..n]);
      assert (set x | x in xs) == (set x | x in xs[..n]) + {xs[n]};
      assert xs[n] !in xs[..n];
    }
  }

  lemma {:induction false} SameSizeSubset<T>(xs: set<T>, ys: set<T>)
    requires xs <= ys && |xs| == |ys|
    ensures xs == ys
  {
    if xs != {} {
      var x :| x in xs;
      SameSizeSubset(xs - {x}, ys - {x});
    }
  }

  /** A selection that stops short of its limit has taken everything. */
  lemma ShortSelectionIsAll<T>(pool: set<T>, key: T -> (int, int), limit: nat, picked: seq<T>)
    requires SmallestBy(pool, key, limit, picked) && |picked| < limit
    ensures forall x :: x in pool ==> x in picked
  {
    DistinctCount(picked);
    var taken := set x | x in picked;
    SameSizeSubset(taken, pool);
  }
}
