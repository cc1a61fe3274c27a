/** Sorting whose result on equal keys is unspecified, as with sort.Slice. */
module Sorting {

  predicate SortedBy<T>(xs: seq<T>, key: T -> int) {
    forall i, j :: 0 <= i < j < |xs| ==> key(xs[i]) <= key(xs[j])
  }

  /** Some arrangement of `xs` in ascending order of the key. */
  predicate Arranged<T(==)>(ys: seq<T>, xs: seq<T>, key: T -> int) {
    multiset(ys) == multiset(xs) && SortedBy(ys, key)
  }

  predicate DistinctKeys<T>(xs: seq<T>, key: T -> int) {
    forall i, j :: 0 <= i < j < |xs| ==> key(xs[i]) != key(xs[j])
  }

  lemma SameElements<T>(ys: seq<T>, xs: seq<T>)
    requires multiset(ys) == multiset(xs)
    ensures |ys| == |xs| && forall x :: x in ys <==> x in xs
  {
    assert |multiset(ys)| == |ys| && |multiset(xs)| == |xs|;
    forall x ensures x in ys <==> x in xs {
      assert x in multiset(ys) <==> x in ys;
      assert x in multiset(xs) <==> x in xs;
    }
  }

  lemma HeadIsLeast<T>(ys: seq<T>, zs: seq<T>, key: T -> int)
    requires ys != [] && zs != [] && multiset(ys) == multiset(zs) && SortedBy(ys, key) && SortedBy(zs, key)
    requires forall x, y :: x in ys && y in ys && key(x) == key(y) ==> x == y
    ensures ys[0] == zs[0]
  {
    SameElements(ys, zs);
    assert ys[0] in ys && zs[0] in zs;
    assert ys[0] in zs && zs[0] in ys;
    var i :| 0 <= i < |zs| && zs[i] == ys[0];
    var j :| 0 <= j < |ys| && ys[j] == zs[0];
  }

  /** With no equal keys, an unstable sort has only one possible result. */
  lemma {:induction false} ArrangementUnique<T>(ys: seq<T>, zs: seq<T>, key: T -> int)
    requires multiset(ys) == multiset(zs) && SortedBy(ys, key) && SortedBy(zs, key)
    requires forall x, y :: x in ys && y in ys && key(x) == key(y) ==> x == y
    ensures ys == zs
  {
    SameElements(ys, zs);
    if ys != [] {
      HeadIsLeast(ys, zs, key);
      SameTails(ys, zs);
      TailKeepsKeys(ys, key);
      ArrangementUnique(ys[1..], zs[1..], key);
      assert ys == [ys[0]] + ys[1..] && zs == [zs[0]] + zs[1..];
    }
  }

  lemma TailKeepsKeys<T>(ys: seq<T>, key: T -> int)
    requires ys != []
    requires forall x, y :: x in ys && y in ys && key(x) == key(y) ==> x == y
    ensures forall x, y :: x in ys[1..] && y in ys[1..] && key(x) == key(y) ==> x == y
  {
    forall x | x in ys[1..] ensures x in ys {
    }
  }

  lemma SameTails<T>(ys: seq<T>, zs: seq<T>)
    requires ys != [] && zs != [] && ys[0] == zs[0] && multiset(ys) == multiset(zs)
    ensures multiset(ys[1..]) == multiset(zs[1..])
  {
    assert ys == [ys[0]] + ys[1..] && zs == [zs[0]] + zs[1..];
    assert multiset(ys[1..]) == multiset(ys) - multiset{ys[0]};
    assert multiset(zs[1..]) == multiset(zs) - multiset{zs[0]};
  }

  /** Distinct keys stay distinct in every arrangement, so it is strictly ascending. */
  lemma ArrangementStrict<T>(ys: seq<T>, xs: seq<T>, key: T -> int)
    requires Arranged(ys, xs, key) && DistinctKeys(xs, key)
    ensures forall x, y :: x in ys && y in ys && key(x) == key(y) ==> x == y
    ensures forall i, j :: 0 <= i < j < |ys| ==> key(ys[i]) < key(ys[j])
  {
    SameElements(ys, xs);
    forall i, j | 0 <= i < j < |ys| ensures key(ys[i]) < key(ys[j]) {
      if key(ys[i]) == key(ys[j]) {
        TwiceInMultiset(ys, i, j);
        assert ys[i] in ys && ys[j] in ys;
        assert ys[i] == ys[j];
        AtMostOnce(xs, ys[i], key);
      }
    }
  }

  lemma TwiceInMultiset<T>(ys: seq<T>, i: nat, j: nat)
    requires i < j < |ys|
    ensures ys[i] == ys[j] ==> multiset(ys)[ys[i]] >= 2
  {
    assert ys == ys[..j] + ys[j..];
    assert ys[i] == ys[..j][i] && ys[j] == ys[j..][0];
    assert ys[i] in ys[..j] && ys[j] in ys[j..];
    assert multiset(ys) == multiset(ys[..j]) + multiset(ys[j..]);
  }

  lemma {:induction false} AtMostOnce<T>(xs: seq<T>, x: T, key: T -> int)
    requires DistinctKeys(xs, key)
    ensures multiset(xs)[x] <= 1
  {
    if xs != [] {
      AtMostOnce(xs[1..], x, key);
      assert xs == [xs[0]] + xs[1..];
      var tail := xs[1..];
      assert forall i :: 0 <= i < |tail| ==> key(tail[i]) != key(xs[0]);
      assert xs[0] == x ==> x !in xs[1..];
    }
  }

  lemma InsertedElements<T>(ys: seq<T>, i: nat, x: T)
    requires i <= |ys|
    ensures multiset(ys[..i] + [x] + ys[i..]) == multiset(ys) + multiset{x}
  {
    assert ys == ys[..i] + ys[i..];
  }

  method Insert<T(==)>(ys: seq<T>, x: T, key: T -> int) returns (zs: seq<T>)
    requires SortedBy(ys, key)
    ensures SortedBy(zs, key) && multiset(zs) == multiset(ys) + multiset{x}
  {
    var i := 0;
    while i < |ys| && key(ys[i]) <= key(x)
      invariant 0 <= i <= |ys|
      invariant forall k :: 0 <= k < i ==> key(ys[k]) <= key(x)
    {
      i := i + 1;
    }
    InsertedElements(ys, i, x);
    zs := ys[..i] + [x] + ys[i..];
    assert forall k :: 0 <= k < |zs| ==> zs[k] == if k < i then ys[k] else if k == i then x else ys[k - 1];
  }

  /** A sort; callers may rely on no more than the order of its keys. */
  method SortBy<T(==)>(xs: seq<T>, key: T -> int) returns (ys: seq<T>)
    ensures Arranged(ys, xs, key)
  {
    ys := [];
    for n := 0 to |xs|
      invariant SortedBy(ys, key) && multiset(ys) == multiset(xs[..n])
    {
      assert xs[..n + 1] == xs[..n] + [xs[n]];
      ys := Insert(ys, xs[n], key);
    }
    assert xs[..|xs|] == xs;
  }
}
