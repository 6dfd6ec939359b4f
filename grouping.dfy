/** A Python dict with string keys, as the aggregations use it: entries in
    insertion order, each key once. `Upsert` is `d[k]` on a defaultdict
    followed by an update of the value. */
module Grouping {
  import opened Wrappers
  import opened Text

  type Groups<A> = seq<(string, A)>

  function Keys<A>(g: Groups<A>): (r: seq<string>)
    ensures |r| == |g| && forall i :: 0 <= i < |g| ==> r[i] == g[i].0
  {
    seq(|g|, i requires 0 <= i < |g| => g[i].0)
  }

  predicate DistinctKeys<A>(g: Groups<A>) {
    forall i, j :: 0 <= i < j < |g| ==> g[i].0 != g[j].0
  }

  function Get<A>(g: Groups<A>, k: string): (r: Option<A>)
    ensures r.None? <==> k !in Keys(g)
    ensures r.Some? ==> exists i :: 0 <= i < |g| && g[i] == (k, r.value)
  {
    if g == [] then None
    else if g[|g| - 1].0 == k then Some(g[|g| - 1].1)
    else
      var r := Get(g[..|g| - 1], k);
      assert Keys(g) == Keys(g[..|g| - 1]) + [g[|g| - 1].0];
      r
  }

  /** `d[k] = f(d[k])` on a defaultdict whose default is `zero`. */
  function Upsert<A>(g: Groups<A>, k: string, zero: A, f: A -> A): Groups<A> {
    match IndexOf(Keys(g), k)
    case None => g + [(k, f(zero))]
    case Some(i) => g[i := (k, f(g[i].1))]
  }

  /** A new key goes to the end; an existing key keeps its place. */
  lemma UpsertKeys<A>(g: Groups<A>, k: string, zero: A, f: A -> A)
    ensures Keys(Upsert(g, k, zero, f)) == if k in Keys(g) then Keys(g) else Keys(g) + [k]
  {
    match IndexOf(Keys(g), k)
    case None =>
    case Some(i) =>
      assert Keys(Upsert(g, k, zero, f)) == Keys(g);
  }

  /** Only the value under k changes, and it becomes f of the old value (or of zero). */
  lemma UpsertGet<A>(g: Groups<A>, k: string, zero: A, f: A -> A, k2: string)
    requires DistinctKeys(g)
    ensures DistinctKeys(Upsert(g, k, zero, f))
    ensures Get(Upsert(g, k, zero, f), k2) ==
      if k2 == k then Some(f(Get(g, k).GetOr(zero))) else Get(g, k2)
  {
    UpsertDistinct(g, k, zero, f);
    match IndexOf(Keys(g), k)
    case None => UpsertGetNew(g, k, zero, f, k2);
    case Some(i) => UpsertGetExisting(g, k, zero, f, k2, i);
  }

  lemma UpsertDistinct<A>(g: Groups<A>, k: string, zero: A, f: A -> A)
    requires DistinctKeys(g)
    ensures DistinctKeys(Upsert(g, k, zero, f))
  {
    UpsertKeys(g, k, zero, f);
    var u := Upsert(g, k, zero, f);
    forall i, j | 0 <= i < j < |u| ensures u[i].0 != u[j].0 {
      assert Keys(u)[i] == u[i].0 && Keys(u)[j] == u[j].0;
      if k !in Keys(g) && j == |g| {
        assert Keys(g)[i] == g[i].0;
      } else {
        assert Keys(g)[i] == g[i].0 && Keys(g)[j] == g[j].0;
      }
    }
  }

  lemma UpsertGetNew<A>(g: Groups<A>, k: string, zero: A, f: A -> A, k2: string)
    requires IndexOf(Keys(g), k).None?
    ensures Get(Upsert(g, k, zero, f), k2) == if k2 == k then Some(f(Get(g, k).GetOr(zero))) else Get(g, k2)
  {
    var u := Upsert(g, k, zero, f);
    assert u == g + [(k, f(zero))];
    assert u[..|u| - 1] == g;
  }

  lemma UpsertGetExisting<A>(g: Groups<A>, k: string, zero: A, f: A -> A, k2: string, i: nat)
    requires DistinctKeys(g) && IndexOf(Keys(g), k) == Some(i)
    ensures Get(Upsert(g, k, zero, f), k2) == if k2 == k then Some(f(Get(g, k).GetOr(zero))) else Get(g, k2)
  {
    var u := Upsert(g, k, zero, f);
    UpsertDistinct(g, k, zero, f);
    assert u == g[i := (k, f(g[i].1))];
    assert g[i].0 == k;
    GetAt(g, i);
    GetAt(u, i);
    if k2 != k {
      GetSame(g, u, k2);
    }
  }

  lemma {:induction false} GetAt<A>(g: Groups<A>, i: nat)
    requires DistinctKeys(g) && i < |g|
    ensures Get(g, g[i].0) == Some(g[i].1)
  {
    if i < |g| - 1 {
      GetAt(g[..|g| - 1], i);
    }
  }

  /** Two groupings that agree except on keys other than k2 agree on k2. */
  lemma {:induction false} GetSame<A>(g: Groups<A>, u: Groups<A>, k2: string)
    requires |g| == |u|
    requires forall j :: 0 <= j < |g| ==> g[j].0 == u[j].0
    requires forall j :: 0 <= j < |g| && g[j].0 == k2 ==> g[j] == u[j]
    ensures Get(g, k2) == Get(u, k2)
  {
    if g != [] && g[|g| - 1].0 != k2 {
      GetSame(g[..|g| - 1], u[..|u| - 1], k2);
    }
  }

  // ---------------------------------------------------------------------------
  // Grouping rows: `for r in rows: if key(r): d[key(r)] = step(d[key(r)], r)`

  /** The truthy keys of the rows, in row order (repeats kept). */
  function KeysIn<R>(rows: seq<R>, key: R -> Option<string>): seq<string> {
    if rows == [] then []
    else
      var k := key(rows[|rows| - 1]);
      KeysIn(rows[..|rows| - 1], key) + if Truthy(k) then [k.value] else []
  }

  /** The rows whose key is v, in row order. */
  function Having<R>(rows: seq<R>, key: R -> Option<string>, v: string): (r: seq<R>)
    ensures |r| <= |rows|
  {
    if rows == [] then []
    else Having(rows[..|rows| - 1], key, v) + if key(rows[|rows| - 1]) == Some(v) then [rows[|rows| - 1]] else []
  }

  /** The left fold of step over rows, starting from a. */
  function Fold<R, A>(a: A, step: (A, R) -> A, rows: seq<R>): A {
    if rows == [] then a else step(Fold(a, step, rows[..|rows| - 1]), rows[|rows| - 1])
  }

  /** One iteration of the grouping loop. */
  function Step<R, A>(g: Groups<A>, r: R, key: R -> Option<string>, zero: A, step: (A, R) -> A): Groups<A> {
    var k := key(r);
    if Truthy(k) then Upsert(g, k.value, zero, (a: A) => step(a, r)) else g
  }

  function GroupBy<R, A>(rows: seq<R>, key: R -> Option<string>, zero: A, step: (A, R) -> A): Groups<A> {
    if rows == [] then [] else Step(GroupBy(rows[..|rows| - 1], key, zero, step), rows[|rows| - 1], key, zero, step)
  }

  lemma {:induction false} HavingEmpty<R>(rows: seq<R>, key: R -> Option<string>, v: string)
    requires v != ""
    ensures Having(rows, key, v) == [] <==> v !in KeysIn(rows, key)
  {
    if rows != [] {
      HavingEmpty(rows[..|rows| - 1], key, v);
    }
  }

  lemma {:induction false} KeysInTruthy<R>(rows: seq<R>, key: R -> Option<string>)
    ensures forall v :: v in KeysIn(rows, key) ==> v != ""
  {
    if rows != [] {
      KeysInTruthy(rows[..|rows| - 1], key);
    }
  }

  /** A value is among the keys exactly when it is non-empty and some row has it. */
  lemma {:induction false} KeysInMembers<R>(rows: seq<R>, key: R -> Option<string>)
    ensures forall v :: v in KeysIn(rows, key) <==> v != "" && exists r :: r in rows && key(r) == Some(v)
  {
    if rows != [] {
      var init := rows[..|rows| - 1];
      KeysInMembers(init, key);
      assert rows == init + [rows[|rows| - 1]];
    }
  }

  /** What the grouping computes: the distinct truthy keys in first-seen
      order, and under each key the fold of step over exactly its rows. */
  lemma GroupByMeaning<R, A>(rows: seq<R>, key: R -> Option<string>, zero: A, step: (A, R) -> A)
    ensures DistinctKeys(GroupBy(rows, key, zero, step))
    ensures Keys(GroupBy(rows, key, zero, step)) == Dedup(KeysIn(rows, key))
    ensures forall v :: Get(GroupBy(rows, key, zero, step), v) ==
                        if v in KeysIn(rows, key) then Some(Fold(zero, step, Having(rows, key, v))) else None
  {
    GroupByKeys(rows, key, zero, step);
    forall v ensures Get(GroupBy(rows, key, zero, step), v) ==
      if v in KeysIn(rows, key) then Some(Fold(zero, step, Having(rows, key, v))) else None
    {
      GroupByGet(rows, key, zero, step, v);
    }
  }

  lemma {:induction false} GroupByKeys<R, A>(rows: seq<R>, key: R -> Option<string>, zero: A, step: (A, R) -> A)
    ensures DistinctKeys(GroupBy(rows, key, zero, step))
    ensures Keys(GroupBy(rows, key, zero, step)) == Dedup(KeysIn(rows, key))
  {
    if rows != [] {
      var init := rows[..|rows| - 1];
      var last := rows[|rows| - 1];
      var g := GroupBy(init, key, zero, step);
      GroupByKeys(init, key, zero, step);
      var k := key(last);
      assert KeysIn(rows, key) == KeysIn(init, key) + if Truthy(k) then [k.value] else [];
      if Truthy(k) {
        var f := (a: A) => step(a, last);
        UpsertKeys(g, k.value, zero, f);
        UpsertDistinct(g, k.value, zero, f);
        var ks := KeysIn(rows, key);
        assert ks[..|ks| - 1] == KeysIn(init, key);
      } else {
        assert KeysIn(rows, key) == KeysIn(init, key);
      }
    }
  }

  lemma {:induction false} GroupByGet<R, A>(rows: seq<R>, key: R -> Option<string>, zero: A, step: (A, R) -> A, v: string)
    ensures Get(GroupBy(rows, key, zero, step), v) ==
      if v in KeysIn(rows, key) then Some(Fold(zero, step, Having(rows, key, v))) else None
  {
    if rows != [] {
      var init := rows[..|rows| - 1];
      var last := rows[|rows| - 1];
      var g := GroupBy(init, key, zero, step);
      GroupByGet(init, key, zero, step, v);
      GroupByKeys(init, key, zero, step);
      var k := key(last);
      assert KeysIn(rows, key) == KeysIn(init, key) + if Truthy(k) then [k.value] else [];
      if Truthy(k) {
        var f := (a: A) => step(a, last);
        UpsertGet(g, k.value, zero, f, v);
        if v == k.value {
          HavingEmpty(init, key, v);
          var h := Having(rows, key, v);
          assert h[..|h| - 1] == Having(init, key, v);
        } else {
          assert Having(rows, key, v) == Having(init, key, v);
        }
      } else if v in KeysIn(init, key) {
        KeysInTruthy(init, key);
        assert Having(rows, key, v) == Having(init, key, v);
      }
    }
  }
}
