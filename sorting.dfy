/** Python's `sorted(xs, key=k, reverse=True)` and `list.sort(key=k, reverse=True)`:
    a stable sort into descending key order. Modelled as insertion sort; its
    three properties (ordered, a permutation, stable) are proved below and
    together determine the result. */
module Sorting {

  predicate SortedDesc<T>(s: seq<T>, key: T -> int) {
    forall i, j :: 0 <= i < j < |s| ==> key(s[i]) >= key(s[j])
  }

  /** The elements of s whose key is v, in their order in s. */
  function WithKey<T>(s: seq<T>, key: T -> int, v: int): (r: seq<T>)
    ensures |r| <= |s|
  {
    if s == [] then []
    else if key(s[0]) == v then [s[0]] + WithKey(s[1..], key, v)
    else WithKey(s[1..], key, v)
  }

  /** Places x after the elements whose key is strictly greater, so before its equals. */
  function Insert<T>(x: T, s: seq<T>, key: T -> int): (r: seq<T>)
    ensures |r| == |s| + 1
  {
    if s == [] then [x]
    else if key(s[0]) > key(x) then [s[0]] + Insert(x, s[1..], key)
    else [x] + s
  }

  function SortDesc<T>(s: seq<T>, key: T -> int): (r: seq<T>)
    ensures |r| == |s|
  {
    if s == [] then [] else Insert(s[0], SortDesc(s[1..], key), key)
  }

  lemma {:induction false} InsertSorted<T>(x: T, s: seq<T>, key: T -> int)
    requires SortedDesc(s, key)
    ensures SortedDesc(Insert(x, s, key), key)
    ensures forall y :: y in Insert(x, s, key) ==> y == x || y in s
  {
    if s != [] && key(s[0]) > key(x) {
      InsertSorted(x, s[1..], key);
      var r := Insert(x, s[1..], key);
      forall y | y in r ensures key(s[0]) >= key(y) {
        if y != x { var k :| 0 <= k < |r| && r[k] == y; assert y in s[1..]; }
      }
    }
  }

  lemma {:induction false} SortDescSorted<T>(s: seq<T>, key: T -> int)
    ensures SortedDesc(SortDesc(s, key), key)
  {
    if s != [] {
      SortDescSorted(s[1..], key);
      InsertSorted(s[0], SortDesc(s[1..], key), key);
    }
  }

  lemma {:induction false} InsertPermutation<T>(x: T, s: seq<T>, key: T -> int)
    ensures multiset(Insert(x, s, key)) == multiset(s) + multiset{x}
  {
    if s != [] && key(s[0]) > key(x) {
      InsertPermutation(x, s[1..], key);
      assert s == [s[0]] + s[1..];
    }
  }

  lemma {:induction false} SortDescPermutation<T>(s: seq<T>, key: T -> int)
    ensures multiset(SortDesc(s, key)) == multiset(s)
  {
    if s != [] {
      SortDescPermutation(s[1..], key);
      InsertPermutation(s[0], SortDesc(s[1..], key), key);
      assert s == [s[0]] + s[1..];
    }
  }

  lemma {:induction false} InsertWithKey<T>(x: T, s: seq<T>, key: T -> int, v: int)
    ensures WithKey(Insert(x, s, key), key, v) == WithKey([x] + s, key, v)
  {
    if s != [] && key(s[0]) > key(x) {
      InsertWithKey(x, s[1..], key, v);
      assert ([x] + s)[1..] == s;
      assert ([x] + s[1..])[1..] == s[1..];
      assert ([s[0]] + Insert(x, s[1..], key))[1..] == Insert(x, s[1..], key);
      assert WithKey(s, key, v) == (if key(s[0]) == v then [s[0]] else []) + WithKey(s[1..], key, v);
    }
  }

  /** Stability: among elements with equal keys, the sort keeps their input order. */
  lemma {:induction false} SortDescStable<T>(s: seq<T>, key: T -> int, v: int)
    ensures WithKey(SortDesc(s, key), key, v) == WithKey(s, key, v)
  {
    if s != [] {
      SortDescStable(s[1..], key, v);
      InsertWithKey(s[0], SortDesc(s[1..], key), key, v);
      assert ([s[0]] + SortDesc(s[1..], key))[1..] == SortDesc(s[1..], key);
    }
  }

  lemma SortDescProperties<T>(s: seq<T>, key: T -> int)
    ensures SortedDesc(SortDesc(s, key), key)
    ensures multiset(SortDesc(s, key)) == multiset(s)
    ensures forall v :: WithKey(SortDesc(s, key), key, v) == WithKey(s, key, v)
  {
    SortDescSorted(s, key);
    SortDescPermutation(s, key);
    forall v ensures WithKey(SortDesc(s, key), key, v) == WithKey(s, key, v) {
      SortDescStable(s, key, v);
    }
  }

  /** In a descending sequence, an element left out of a prefix has a key no
      larger than any element of the prefix. */
  lemma PrefixDominates<T>(s: seq<T>, key: T -> int, n: nat, x: T)
    requires SortedDesc(s, key) && n <= |s|
    requires x in s && x !in s[..n]
    ensures forall y :: y in s[..n] ==> key(y) >= key(x)
  {
    var j :| 0 <= j < |s| && s[j] == x;
    assert j >= n;
    forall y | y in s[..n] ensures key(y) >= key(x) {
      var k :| 0 <= k < n && s[..n][k] == y;
    }
  }

  /** The first n elements of the descending sort: ordered, each taken at most
      as often as it occurs, and none smaller than an element left out. */
  lemma TopPrefix<T>(s: seq<T>, key: T -> int, n: nat)
    requires n <= |s|
    ensures var t := SortDesc(s, key)[..n];
      SortedDesc(t, key) && multiset(t) <= multiset(s)
      && forall x, y :: x in s && x !in t && y in t ==> key(y) >= key(x)
  {
    var sorted := SortDesc(s, key);
    SortDescSorted(s, key);
    SortDescPermutation(s, key);
    var t := sorted[..n];
    PrefixMultiset(sorted, n);
    forall x, y | x in s && x !in t && y in t ensures key(y) >= key(x) {
      assert x in multiset(sorted);
      PrefixDominates(sorted, key, n, x);
    }
  }

  lemma PrefixMultiset<T>(s: seq<T>, n: nat)
    requires n <= |s|
    ensures multiset(s[..n]) <= multiset(s)
  {
    assert s == s[..n] + s[n..];
  }
}
