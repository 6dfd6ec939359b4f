/** The few dataframe operations the Delta Lake backend relies on, stated
    directly on rows: column selection `df[[...]]`, boolean masks, `head`,
    and the left merge `merge(..., how='left')` with pandas' many-match
    semantics (a left row with k matching right rows yields k rows, one
    with none yields one row with nulls in the added columns). */
module Frames {
  import opened Wrappers
  import opened Text
  import opened Stats
  import opened Responses

  /** A cell: null (None/NaN/NaT), a string or an integer. */
  datatype Value = Null | Str(s: string) | Int(i: int)

  type Row = map<string, Value>

  datatype Frame = Frame(columns: seq<string>, rows: seq<Row>)

  predicate Distinct(cs: seq<string>) {
    forall i, j :: 0 <= i < j < |cs| ==> cs[i] != cs[j]
  }

  predicate HasColumns(r: Row, cs: seq<string>) {
    (forall c :: c in r ==> c in cs) && (forall c :: c in cs ==> c in r)
  }

  /** Columns are named once and every row has exactly the frame's columns. */
  predicate Valid(f: Frame) {
    Distinct(f.columns) && forall k :: 0 <= k < |f.rows| ==> HasColumns(f.rows[k], f.columns)
  }

  /** `row.get(c)`: a missing column reads as null. */
  function Cell(r: Row, c: string): Value {
    if c in r then r[c] else Null
  }

  function StrOf(v: Value): Option<string> {
    if v.Str? then Some(v.s) else None
  }

  function IntOf(v: Value): Option<int> {
    if v.Int? then Some(v.i) else None
  }

  /** `pd.DataFrame()`: no columns, no rows. */
  function EmptyFrame(): (f: Frame)
    ensures Valid(f) && f.rows == [] && f.columns == []
  {
    Frame([], [])
  }

  // ---------------------------------------------------------------------------
  // Masks, head and selection

  function Filter(rows: seq<Row>, p: Row -> bool): (r: seq<Row>)
    ensures |r| <= |rows|
  {
    if rows == [] then []
    else Filter(rows[..|rows| - 1], p) + if p(rows[|rows| - 1]) then [rows[|rows| - 1]] else []
  }

  /** `df[mask]`: the rows the mask holds for, in order. */
  function Where(f: Frame, p: Row -> bool): Frame {
    Frame(f.columns, Filter(f.rows, p))
  }

  /** `df.head(n)`, which slices like `[:n]` (a negative n drops rows from the end). */
  function Head(f: Frame, n: int): Frame {
    Frame(f.columns, Take(f.rows, n))
  }

  lemma {:induction false} FilterMembers(rows: seq<Row>, p: Row -> bool)
    ensures forall r :: r in Filter(rows, p) <==> r in rows && p(r)
    ensures multiset(Filter(rows, p)) <= multiset(rows)
  {
    if rows != [] {
      var init := rows[..|rows| - 1];
      FilterMembers(init, p);
      assert rows == init + [rows[|rows| - 1]];
    }
  }

  /** A mask keeps a valid frame valid and keeps exactly the rows it holds for. */
  lemma WhereMeaning(f: Frame, p: Row -> bool)
    requires Valid(f)
    ensures Valid(Where(f, p)) && Where(f, p).columns == f.columns
    ensures forall r :: r in Where(f, p).rows <==> r in f.rows && p(r)
    ensures multiset(Where(f, p).rows) <= multiset(f.rows)
  {
    FilterMembers(f.rows, p);
    var g := Where(f, p);
    forall k | 0 <= k < |g.rows| ensures HasColumns(g.rows[k], f.columns) {
      assert g.rows[k] in f.rows;
    }
  }

  /** Two masks in a row keep the rows both hold for. */
  lemma {:induction false} FilterTwice(rows: seq<Row>, p: Row -> bool, q: Row -> bool, pq: Row -> bool)
    requires forall r :: pq(r) == (p(r) && q(r))
    ensures Filter(Filter(rows, p), q) == Filter(rows, pq)
  {
    if rows != [] {
      var init := rows[..|rows| - 1];
      FilterTwice(init, p, q, pq);
      var last := rows[|rows| - 1];
      var fp := Filter(rows, p);
      if p(last) {
        assert fp[..|fp| - 1] == Filter(init, p);
      } else {
        assert fp == Filter(init, p);
      }
    }
  }

  lemma HeadMeaning(f: Frame, n: int)
    requires Valid(f)
    ensures Valid(Head(f, n)) && Head(f, n).columns == f.columns
    ensures Head(f, n).rows <= f.rows && |Head(f, n).rows| == SliceLength(|f.rows|, n)
  {
  }

  /** `df[cols]` for a list of existing, distinct column names. */
  function Select(f: Frame, cols: seq<string>): (g: Frame)
    requires forall c :: c in cols ==> c in f.columns
    ensures |g.rows| == |f.rows| && g.columns == cols
    ensures forall k :: 0 <= k < |f.rows| ==> forall c :: c in cols ==> Cell(g.rows[k], c) == Cell(f.rows[k], c)
  {
    Frame(cols, seq(|f.rows|, k requires 0 <= k < |f.rows| => map c | c in cols :: Cell(f.rows[k], c)))
  }

  lemma SelectValid(f: Frame, cols: seq<string>)
    requires forall c :: c in cols ==> c in f.columns
    requires Distinct(cols)
    ensures Valid(Select(f, cols))
  {
  }

  // ---------------------------------------------------------------------------
  // Left merge

  /** The columns of cs not in drop, in order. */
  function Without(cs: seq<string>, drop: seq<string>): (r: seq<string>)
    ensures forall c :: c in r <==> c in cs && c !in drop
  {
    if cs == [] then []
    else
      var init := Without(cs[..|cs| - 1], drop);
      assert forall c :: c in cs <==> c in cs[..|cs| - 1] || c == cs[|cs| - 1] by {
        assert cs == cs[..|cs| - 1] + [cs[|cs| - 1]];
      }
      if cs[|cs| - 1] in drop then init else init + [cs[|cs| - 1]]
  }

  lemma {:induction false} WithoutDistinct(cs: seq<string>, drop: seq<string>)
    requires Distinct(cs)
    ensures Distinct(Without(cs, drop))
  {
    if cs != [] {
      var init := cs[..|cs| - 1];
      WithoutDistinct(init, drop);
    }
  }

  /** The merge is defined without pandas' `_x`/`_y` renaming: the frames
      share no column except a key of the same name on both sides. */
  predicate Joinable(left: Frame, right: Frame, lkey: string, rkey: string) {
    lkey in left.columns && rkey in right.columns
    && forall c :: c in right.columns && c in left.columns ==> c == lkey && c == rkey
  }

  /** The columns the merge adds to the left frame. */
  function Added(left: Frame, right: Frame): seq<string> {
    Without(right.columns, left.columns)
  }

  /** The right rows whose key equals v (null matches null, as in pandas). */
  function MatchesOf(rows: seq<Row>, key: string, v: Value): (r: seq<Row>)
    ensures |r| <= |rows|
  {
    if rows == [] then []
    else MatchesOf(rows[..|rows| - 1], key, v) + if Cell(rows[|rows| - 1], key) == v then [rows[|rows| - 1]] else []
  }

  function Nulls(cols: seq<string>): Row {
    map c | c in cols :: Null
  }

  /** The rows one left row turns into. */
  function MergeRow(l: Row, left: Frame, right: Frame, lkey: string, rkey: string): (r: seq<Row>)
    ensures |r| >= 1
  {
    var ms := MatchesOf(right.rows, rkey, Cell(l, lkey));
    if ms == [] then [l + Nulls(Added(left, right))]
    else seq(|ms|, k requires 0 <= k < |ms| => l + ms[k])
  }

  function Joined(lrows: seq<Row>, left: Frame, right: Frame, lkey: string, rkey: string): (r: seq<Row>)
    ensures |r| >= |lrows|
  {
    if lrows == [] then []
    else Joined(lrows[..|lrows| - 1], left, right, lkey, rkey) + MergeRow(lrows[|lrows| - 1], left, right, lkey, rkey)
  }

  /** `left.merge(right, left_on=lkey, right_on=rkey, how='left')`. */
  function LeftJoin(left: Frame, right: Frame, lkey: string, rkey: string): Frame
    requires Joinable(left, right, lkey, rkey)
  {
    Frame(left.columns + Added(left, right), Joined(left.rows, left, right, lkey, rkey))
  }

  // ---------------------------------------------------------------------------
  // What the merge keeps

  lemma {:induction false} MatchesOfMembers(rows: seq<Row>, key: string, v: Value)
    ensures forall r :: r in MatchesOf(rows, key, v) <==> r in rows && Cell(r, key) == v
  {
    if rows != [] {
      var init := rows[..|rows| - 1];
      MatchesOfMembers(init, key, v);
      assert rows == init + [rows[|rows| - 1]];
    }
  }

  /** No two right rows share a key value. */
  predicate UniqueOn(rows: seq<Row>, key: string) {
    forall i, j :: 0 <= i < j < |rows| ==> Cell(rows[i], key) != Cell(rows[j], key)
  }

  lemma {:induction false} MatchesOfNone(rows: seq<Row>, key: string, v: Value)
    requires forall i :: 0 <= i < |rows| ==> Cell(rows[i], key) != v
    ensures MatchesOf(rows, key, v) == []
  {
    if rows != [] {
      MatchesOfNone(rows[..|rows| - 1], key, v);
    }
  }

  lemma {:induction false} MatchesOfUnique(rows: seq<Row>, key: string, v: Value)
    requires UniqueOn(rows, key)
    ensures |MatchesOf(rows, key, v)| <= 1
  {
    if rows != [] {
      var init := rows[..|rows| - 1];
      MatchesOfUnique(init, key, v);
      if Cell(rows[|rows| - 1], key) == v {
        forall i | 0 <= i < |init| ensures Cell(init[i], key) != v {
          assert init[i] == rows[i];
        }
        MatchesOfNone(init, key, v);
      }
    }
  }

  /** r has every column of l, with l's values. */
  predicate Extends(r: Row, l: Row) {
    forall c :: c in l ==> c in r && r[c] == l[c]
  }

  /** A row of a valid frame keeps its own cells when extended by the merge. */
  lemma MergeRowKeeps(l: Row, left: Frame, right: Frame, lkey: string, rkey: string)
    requires Valid(right) && Joinable(left, right, lkey, rkey)
    requires HasColumns(l, left.columns)
    ensures forall r :: r in MergeRow(l, left, right, lkey, rkey) ==>
      HasColumns(r, left.columns + Added(left, right))
      && Extends(r, l)
  {
    var ms := MatchesOf(right.rows, rkey, Cell(l, lkey));
    MatchesOfMembers(right.rows, rkey, Cell(l, lkey));
    forall r | r in MergeRow(l, left, right, lkey, rkey)
      ensures HasColumns(r, left.columns + Added(left, right))
      ensures Extends(r, l)
    {
      if ms != [] {
        var k :| 0 <= k < |ms| && r == l + ms[k];
        var m := ms[k];
        assert m in ms;
        var i :| 0 <= i < |right.rows| && right.rows[i] == m;
        assert HasColumns(m, right.columns);
        forall c | c in l ensures r[c] == l[c] {
          if c in m {
            assert c == lkey && c == rkey;
          }
        }
      }
    }
  }

  lemma {:induction false} JoinedMembers(lrows: seq<Row>, left: Frame, right: Frame, lkey: string, rkey: string)
    requires Valid(right) && Joinable(left, right, lkey, rkey)
    requires forall k :: 0 <= k < |lrows| ==> HasColumns(lrows[k], left.columns)
    ensures forall r :: r in Joined(lrows, left, right, lkey, rkey) ==> HasColumns(r, left.columns + Added(left, right))
  {
    if lrows != [] {
      var init := lrows[..|lrows| - 1];
      var last := lrows[|lrows| - 1];
      JoinedMembers(init, left, right, lkey, rkey);
      MergeRowKeeps(last, left, right, lkey, rkey);
      var ji := Joined(init, left, right, lkey, rkey);
      var mr := MergeRow(last, left, right, lkey, rkey);
      assert forall r :: r in ji + mr ==> r in ji || r in mr;
    }
  }

  lemma JoinedColumns(lrows: seq<Row>, left: Frame, right: Frame, lkey: string, rkey: string)
    requires Valid(right) && Joinable(left, right, lkey, rkey)
    requires forall k :: 0 <= k < |lrows| ==> HasColumns(lrows[k], left.columns)
    ensures forall k :: 0 <= k < |Joined(lrows, left, right, lkey, rkey)| ==>
      HasColumns(Joined(lrows, left, right, lkey, rkey)[k], left.columns + Added(left, right))
  {
    var j := Joined(lrows, left, right, lkey, rkey);
    JoinedMembers(lrows, left, right, lkey, rkey);
    forall k | 0 <= k < |j| ensures HasColumns(j[k], left.columns + Added(left, right)) {
      assert j[k] in j;
    }
  }

  lemma {:induction false} JoinedAppend(a: seq<Row>, b: seq<Row>, left: Frame, right: Frame, lkey: string, rkey: string)
    ensures Joined(a + b, left, right, lkey, rkey) == Joined(a, left, right, lkey, rkey) + Joined(b, left, right, lkey, rkey)
  {
    if b != [] {
      var binit := b[..|b| - 1];
      JoinedAppend(a, binit, left, right, lkey, rkey);
      assert (a + b)[..|a + b| - 1] == a + binit;
    } else {
      assert a + b == a;
    }
  }

  /** Left row i reappears, extended, where the rows produced before it end. */
  lemma JoinedKeepsAt(lrows: seq<Row>, left: Frame, right: Frame, lkey: string, rkey: string, i: nat)
    requires Valid(right) && Joinable(left, right, lkey, rkey)
    requires i < |lrows| && HasColumns(lrows[i], left.columns)
    ensures |Joined(lrows[..i], left, right, lkey, rkey)| < |Joined(lrows, left, right, lkey, rkey)|
    ensures Extends(Joined(lrows, left, right, lkey, rkey)[|Joined(lrows[..i], left, right, lkey, rkey)|], lrows[i])
  {
    var pre, rest := lrows[..i], lrows[i + 1..];
    assert lrows == pre + [lrows[i]] + rest;
    JoinedAppend(pre + [lrows[i]], rest, left, right, lkey, rkey);
    JoinedAppend(pre, [lrows[i]], left, right, lkey, rkey);
    assert [lrows[i]][..0] == [];
    assert Joined([lrows[i]], left, right, lkey, rkey) == MergeRow(lrows[i], left, right, lkey, rkey);
    MergeRowKeeps(lrows[i], left, right, lkey, rkey);
    var mr := MergeRow(lrows[i], left, right, lkey, rkey);
    assert mr[0] in mr;
  }

  /** The left merge of valid frames is valid, has the left columns followed
      by the added ones, keeps every left row's cells, and never loses a row. */
  lemma LeftJoinValid(left: Frame, right: Frame, lkey: string, rkey: string)
    requires Valid(left) && Valid(right) && Joinable(left, right, lkey, rkey)
    ensures Valid(LeftJoin(left, right, lkey, rkey))
    ensures LeftJoin(left, right, lkey, rkey).columns == left.columns + Added(left, right)
    ensures |LeftJoin(left, right, lkey, rkey).rows| >= |left.rows|
    ensures forall l :: l in left.rows ==>
      exists r :: r in LeftJoin(left, right, lkey, rkey).rows && Extends(r, l)
  {
    JoinedColumns(left.rows, left, right, lkey, rkey);
    forall l | l in left.rows ensures exists r :: r in LeftJoin(left, right, lkey, rkey).rows && Extends(r, l) {
      var i :| 0 <= i < |left.rows| && left.rows[i] == l;
      JoinedKeepsAt(left.rows, left, right, lkey, rkey, i);
      var j := Joined(left.rows, left, right, lkey, rkey);
      assert j[|Joined(left.rows[..i], left, right, lkey, rkey)|] in j;
    }
    var cs := left.columns + Added(left, right);
    WithoutDistinct(right.columns, left.columns);
    forall i, j | 0 <= i < j < |cs| ensures cs[i] != cs[j] {
      if i < |left.columns| && j >= |left.columns| {
        assert cs[j] in Added(left, right);
      }
      if i >= |left.columns| {
        assert cs[i] == Added(left, right)[i - |left.columns|];
        assert cs[j] == Added(left, right)[j - |left.columns|];
      }
    }
  }

  /** One left row against a right frame with unique keys after the merge:
      a match copies the right row's cells, a miss leaves the added columns null. */
  function Extended(l: Row, left: Frame, right: Frame, lkey: string, rkey: string): Row {
    var ms := MatchesOf(right.rows, rkey, Cell(l, lkey));
    if ms == [] then l + Nulls(Added(left, right)) else l + ms[0]
  }

  /** Each left row replaced by its extension, in order. */
  function ExtendedAll(lrows: seq<Row>, left: Frame, right: Frame, lkey: string, rkey: string): seq<Row> {
    if lrows == [] then []
    else ExtendedAll(lrows[..|lrows| - 1], left, right, lkey, rkey) + [Extended(lrows[|lrows| - 1], left, right, lkey, rkey)]
  }

  /** Against unique right keys the merge is the row-by-row extension. */
  lemma {:induction false} JoinedIsExtended(lrows: seq<Row>, left: Frame, right: Frame, lkey: string, rkey: string)
    requires UniqueOn(right.rows, rkey)
    ensures Joined(lrows, left, right, lkey, rkey) == ExtendedAll(lrows, left, right, lkey, rkey)
  {
    if lrows != [] {
      JoinedIsExtended(lrows[..|lrows| - 1], left, right, lkey, rkey);
      MergeRowUnique(lrows[|lrows| - 1], left, right, lkey, rkey);
    }
  }

  lemma {:induction false} ExtendedAllAt(lrows: seq<Row>, left: Frame, right: Frame, lkey: string, rkey: string)
    ensures |ExtendedAll(lrows, left, right, lkey, rkey)| == |lrows|
    ensures forall k :: 0 <= k < |lrows| ==>
      ExtendedAll(lrows, left, right, lkey, rkey)[k] == Extended(lrows[k], left, right, lkey, rkey)
  {
    if lrows != [] {
      var init, last := lrows[..|lrows| - 1], lrows[|lrows| - 1];
      ExtendedAllAt(init, left, right, lkey, rkey);
      PointwiseSnoc(init, last, ExtendedAll(init, left, right, lkey, rkey), (l: Row) => Extended(l, left, right, lkey, rkey));
      assert lrows == init + [last];
    }
  }

  lemma JoinedUnique(lrows: seq<Row>, left: Frame, right: Frame, lkey: string, rkey: string)
    requires UniqueOn(right.rows, rkey)
    ensures |Joined(lrows, left, right, lkey, rkey)| == |lrows|
    ensures forall k :: 0 <= k < |lrows| ==>
      Joined(lrows, left, right, lkey, rkey)[k] == Extended(lrows[k], left, right, lkey, rkey)
  {
    JoinedIsExtended(lrows, left, right, lkey, rkey);
    ExtendedAllAt(lrows, left, right, lkey, rkey);
  }

  /** Against unique right keys one left row yields exactly its extension. */
  lemma MergeRowUnique(l: Row, left: Frame, right: Frame, lkey: string, rkey: string)
    requires UniqueOn(right.rows, rkey)
    ensures MergeRow(l, left, right, lkey, rkey) == [Extended(l, left, right, lkey, rkey)]
  {
    MatchesOfUnique(right.rows, rkey, Cell(l, lkey));
  }

  /** Appending x to the inputs and f(x) to the outputs keeps out[k] == f(in[k]). */
  lemma PointwiseSnoc<T, U>(xs: seq<T>, x: T, ys: seq<U>, f: T -> U)
    requires |ys| == |xs| && forall k :: 0 <= k < |xs| ==> ys[k] == f(xs[k])
    ensures forall k :: 0 <= k < |xs| + 1 ==> (ys + [f(x)])[k] == f((xs + [x])[k])
  {
  }

  /** No right row has key value v. */
  predicate NoMatch(right: Frame, rkey: string, v: Value) {
    forall i :: 0 <= i < |right.rows| ==> Cell(right.rows[i], rkey) != v
  }

  lemma LeftJoinMissed(left: Frame, right: Frame, lkey: string, rkey: string, k: nat)
    requires Joinable(left, right, lkey, rkey) && UniqueOn(right.rows, rkey)
    requires k < |left.rows| && NoMatch(right, rkey, Cell(left.rows[k], lkey))
    ensures |LeftJoin(left, right, lkey, rkey).rows| == |left.rows|
    ensures LeftJoin(left, right, lkey, rkey).rows[k] == left.rows[k] + Nulls(Added(left, right))
  {
    JoinedUnique(left.rows, left, right, lkey, rkey);
    var l := left.rows[k];
    MatchesOfNone(right.rows, rkey, Cell(l, lkey));
  }

  lemma LeftJoinMatched(left: Frame, right: Frame, lkey: string, rkey: string, k: nat, m: Row)
    requires Joinable(left, right, lkey, rkey) && UniqueOn(right.rows, rkey)
    requires k < |left.rows| && m in right.rows && Cell(m, rkey) == Cell(left.rows[k], lkey)
    ensures |LeftJoin(left, right, lkey, rkey).rows| == |left.rows|
    ensures LeftJoin(left, right, lkey, rkey).rows[k] == left.rows[k] + m
  {
    JoinedUnique(left.rows, left, right, lkey, rkey);
    ExtendedMatched(left.rows[k], left, right, lkey, rkey, m);
  }

  lemma ExtendedMatched(l: Row, left: Frame, right: Frame, lkey: string, rkey: string, m: Row)
    requires UniqueOn(right.rows, rkey) && m in right.rows && Cell(m, rkey) == Cell(l, lkey)
    ensures Extended(l, left, right, lkey, rkey) == l + m
  {
    var ms := MatchesOf(right.rows, rkey, Cell(l, lkey));
    assert m in ms by {
      MatchesOfMembers(right.rows, rkey, Cell(l, lkey));
    }
    MatchesOfUnique(right.rows, rkey, Cell(l, lkey));
    assert ms[0] == m;
  }

  /** Against unique right keys the merge keeps the left rows one for one and
      in order; each gains the matching right row's cells, or nulls when no
      right row matches. */
  lemma LeftJoinUnique(left: Frame, right: Frame, lkey: string, rkey: string)
    requires Joinable(left, right, lkey, rkey) && UniqueOn(right.rows, rkey)
    ensures |LeftJoin(left, right, lkey, rkey).rows| == |left.rows|
    ensures forall k :: 0 <= k < |left.rows| && NoMatch(right, rkey, Cell(left.rows[k], lkey)) ==>
      LeftJoin(left, right, lkey, rkey).rows[k] == left.rows[k] + Nulls(Added(left, right))
    ensures forall k, m :: 0 <= k < |left.rows| && m in right.rows && Cell(m, rkey) == Cell(left.rows[k], lkey) ==>
      LeftJoin(left, right, lkey, rkey).rows[k] == left.rows[k] + m
  {
    JoinedUnique(left.rows, left, right, lkey, rkey);
    forall k | 0 <= k < |left.rows| && NoMatch(right, rkey, Cell(left.rows[k], lkey))
      ensures LeftJoin(left, right, lkey, rkey).rows[k] == left.rows[k] + Nulls(Added(left, right))
    {
      LeftJoinMissed(left, right, lkey, rkey, k);
    }
    forall k, m | 0 <= k < |left.rows| && m in right.rows && Cell(m, rkey) == Cell(left.rows[k], lkey)
      ensures LeftJoin(left, right, lkey, rkey).rows[k] == left.rows[k] + m
    {
      LeftJoinMatched(left, right, lkey, rkey, k, m);
    }
  }

  /** With a unique right key, a left row that finds no match has null in
      every added column. */
  lemma UnmatchedNulls(left: Frame, right: Frame, lkey: string, rkey: string, k: nat)
    requires Joinable(left, right, lkey, rkey) && UniqueOn(right.rows, rkey)
    requires k < |left.rows| && NoMatch(right, rkey, Cell(left.rows[k], lkey))
    ensures k < |LeftJoin(left, right, lkey, rkey).rows|
    ensures forall c :: c in Added(left, right) ==> Cell(LeftJoin(left, right, lkey, rkey).rows[k], c) == Null
  {
    LeftJoinUnique(left, right, lkey, rkey);
  }

  /** `fact.merge(dim[cols], left_on=lkey, right_on=rkey, how='left')` is defined. */
  predicate Mergeable(fact: Frame, dim: Frame, cols: seq<string>, lkey: string, rkey: string) {
    (forall c :: c in cols ==> c in dim.columns) && Joinable(fact, Select(dim, cols), lkey, rkey)
  }

  function Merge(fact: Frame, dim: Frame, cols: seq<string>, lkey: string, rkey: string): Frame
    requires Mergeable(fact, dim, cols, lkey, rkey)
  {
    LeftJoin(fact, Select(dim, cols), lkey, rkey)
  }

  // ---------------------------------------------------------------------------
  // Filter chains: `df = df[df[col] == v]`, `df = df[df['price'] >= b]`, ...

  /** One mask of a filter chain. A comparison with a null cell is false. */
  datatype Criterion = Equals(col: string, value: string) | AtLeast(col: string, bound: int) | AtMost(col: string, bound: int)

  predicate Holds(cr: Criterion, r: Row) {
    match cr
    case Equals(c, v) => Cell(r, c) == Str(v)
    case AtLeast(c, b) => Cell(r, c).Int? && Cell(r, c).i >= b
    case AtMost(c, b) => Cell(r, c).Int? && Cell(r, c).i <= b
  }

  /** `if v: df = df[df[col] == v]`. */
  function EqualsIf(o: Option<string>, col: string): seq<Criterion> {
    if Truthy(o) then [Equals(col, o.value)] else []
  }

  /** `if b is not None: df = df[df['price'] >= b]` and its upper twin. */
  function BoundsOf(minPrice: Option<int>, maxPrice: Option<int>): seq<Criterion> {
    (if minPrice.Some? then [AtLeast("price", minPrice.value)] else [])
    + (if maxPrice.Some? then [AtMost("price", maxPrice.value)] else [])
  }

  /** Every column a mask reads exists (a missing one raises KeyError). */
  predicate Applicable(f: Frame, crs: seq<Criterion>) {
    forall cr :: cr in crs ==> cr.col in f.columns
  }

  function ApplyAll(f: Frame, crs: seq<Criterion>): Frame
    decreases crs
  {
    if crs == [] then f
    else ApplyAll(Where(f, (r: Row) => Holds(crs[0], r)), crs[1..])
  }

  predicate AllHold(crs: seq<Criterion>, r: Row) {
    forall cr :: cr in crs ==> Holds(cr, r)
  }

  /** The chain keeps, in order, exactly the rows every mask holds for. */
  lemma {:induction false} ApplyAllIsFilter(f: Frame, crs: seq<Criterion>)
    ensures ApplyAll(f, crs) == Frame(f.columns, Filter(f.rows, (r: Row) => AllHold(crs, r)))
    decreases crs
  {
    if crs == [] {
      FilterAll(f.rows, (r: Row) => AllHold(crs, r));
    } else {
      var p := (r: Row) => Holds(crs[0], r);
      var q := (r: Row) => AllHold(crs[1..], r);
      var pq := (r: Row) => AllHold(crs, r);
      ApplyAllIsFilter(Where(f, p), crs[1..]);
      forall r ensures pq(r) == (p(r) && q(r)) {
        assert crs == [crs[0]] + crs[1..];
      }
      FilterTwice(f.rows, p, q, pq);
    }
  }

  lemma {:induction false} FilterAll(rows: seq<Row>, p: Row -> bool)
    requires forall r :: p(r)
    ensures Filter(rows, p) == rows
  {
    if rows != [] {
      FilterAll(rows[..|rows| - 1], p);
    }
  }

  lemma ApplyAllMeaning(f: Frame, crs: seq<Criterion>)
    requires Valid(f)
    ensures Valid(ApplyAll(f, crs)) && ApplyAll(f, crs).columns == f.columns
    ensures forall r :: r in ApplyAll(f, crs).rows <==> r in f.rows && AllHold(crs, r)
    ensures multiset(ApplyAll(f, crs).rows) <= multiset(f.rows)
  {
    ApplyAllIsFilter(f, crs);
    WhereMeaning(f, (r: Row) => AllHold(crs, r));
  }

  // ---------------------------------------------------------------------------
  // Column statistics as pandas computes them (nulls skipped)

  /** The integer cells of a column, in order. */
  function Ints(rows: seq<Row>, c: string): (r: seq<int>)
    ensures |r| <= |rows|
  {
    if rows == [] then []
    else Ints(rows[..|rows| - 1], c) + if Cell(rows[|rows| - 1], c).Int? then [Cell(rows[|rows| - 1], c).i] else []
  }

  /** The string cells of a column, in order. */
  function Strs(rows: seq<Row>, c: string): (r: seq<string>)
    ensures |r| <= |rows|
  {
    if rows == [] then []
    else Strs(rows[..|rows| - 1], c) + if Cell(rows[|rows| - 1], c).Str? then [Cell(rows[|rows| - 1], c).s] else []
  }

  /** `df[c].count()`: the non-null cells. */
  function NonNullCount(rows: seq<Row>, c: string): (n: nat)
    ensures n <= |rows|
  {
    if rows == [] then 0
    else NonNullCount(rows[..|rows| - 1], c) + if Cell(rows[|rows| - 1], c) != Null then 1 else 0
  }

  /** `float(df[c].mean())`: NaN over no values. */
  function MeanOf(xs: seq<int>): Float {
    if xs == [] then NaN else Finite(Mean(xs))
  }

  function MinOf(xs: seq<int>): Float {
    if xs == [] then NaN else Finite(Min(xs) as real)
  }

  function MaxOf(xs: seq<int>): Float {
    if xs == [] then NaN else Finite(Max(xs) as real)
  }

  /** The groupby keys of a string column in pandas' default order: the
      distinct non-null values, ascending. Only string cells become keys: the
      grouped columns (state, city, manufacturer and the like) hold strings;
      a non-null cell of another kind, which pandas would group as well, is
      skipped here. */
  function GroupKeys(rows: seq<Row>, c: string): seq<string> {
    SortedList(set v | v in Strs(rows, c))
  }

  /** The rows of one group. */
  function GroupRows(rows: seq<Row>, c: string, v: string): seq<Row> {
    Filter(rows, (r: Row) => Cell(r, c) == Str(v))
  }

  lemma {:induction false} StrsMembers(rows: seq<Row>, c: string)
    ensures forall v :: v in Strs(rows, c) <==> exists r :: r in rows && Cell(r, c) == Str(v)
  {
    if rows != [] {
      var init := rows[..|rows| - 1];
      StrsMembers(init, c);
      assert rows == init + [rows[|rows| - 1]];
    }
  }

  /** The keys are strictly ascending and are exactly the values the column
      holds; every group is non-empty and holds only its own rows. */
  lemma GroupKeysMeaning(rows: seq<Row>, c: string)
    ensures StrictlySorted(GroupKeys(rows, c))
    ensures forall v :: v in GroupKeys(rows, c) <==> exists r :: r in rows && Cell(r, c) == Str(v)
    ensures forall v :: v in GroupKeys(rows, c) ==> GroupRows(rows, c, v) != []
    ensures forall v, r :: r in GroupRows(rows, c, v) <==> r in rows && Cell(r, c) == Str(v)
  {
    StrsMembers(rows, c);
    forall v ensures forall r :: r in GroupRows(rows, c, v) <==> r in rows && Cell(r, c) == Str(v) {
      FilterMembers(rows, (r: Row) => Cell(r, c) == Str(v));
    }
    forall v | v in GroupKeys(rows, c) ensures GroupRows(rows, c, v) != [] {
      var r :| r in rows && Cell(r, c) == Str(v);
      FilterMembers(rows, (r: Row) => Cell(r, c) == Str(v));
      assert r in GroupRows(rows, c, v);
    }
  }

  /** Mean, min and max over a non-empty column are finite and ordered. */
  lemma StatsOrdered(xs: seq<int>)
    requires xs != []
    ensures MinOf(xs).Finite? && MeanOf(xs).Finite? && MaxOf(xs).Finite?
    ensures MinOf(xs).value <= MeanOf(xs).value <= MaxOf(xs).value
  {
    MeanWithinRange(xs);
  }
}
