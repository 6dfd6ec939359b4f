/** String and sequence helpers with Python's semantics: truthiness of
    optional values, slicing with a possibly negative bound, code-point
    lexicographic order, `sorted(set(...))`, `str.split` and `str.join`. */
module Text {
  import opened Wrappers

  /** `if value:` on an optional string: None and "" are falsy. */
  predicate Truthy(o: Option<string>) {
    o.Some? && o.value != ""
  }

  /** `if value:` on an optional number: None and 0 are falsy. */
  predicate TruthyInt(o: Option<int>) {
    o.Some? && o.value != 0
  }

  /** The length Python keeps for `s[:n]`: a negative n drops |n| elements from the end. */
  function SliceLength(len: nat, n: int): (k: nat)
    ensures k <= len
    ensures 0 <= n ==> k == if n < len then n else len
    ensures n < 0 ==> k == if len + n < 0 then 0 else len + n
  {
    if n >= 0 then (if n < len then n else len)
    else if len + n < 0 then 0 else len + n
  }

  /** Python's `s[:n]` (also pandas `head(n)`). */
  function Take<T>(s: seq<T>, n: int): (r: seq<T>)
    ensures r <= s
    ensures |r| == SliceLength(|s|, n)
  {
    s[..SliceLength(|s|, n)]
  }

  lemma TakeBound<T>(s: seq<T>, n: int)
    requires 0 <= n
    ensures |Take(s, n)| <= n
    ensures |s| <= n ==> Take(s, n) == s
  {
  }

  // ---------------------------------------------------------------------------
  // Python's string order: lexicographic by code point.

  predicate Less(a: string, b: string) {
    if a == [] then b != []
    else if b == [] then false
    else if a[0] != b[0] then a[0] < b[0]
    else Less(a[1..], b[1..])
  }

  lemma {:induction false} LessIrreflexive(a: string)
    ensures !Less(a, a)
  {
    if a != [] { LessIrreflexive(a[1..]); }
  }

  lemma {:induction false} LessAsymmetric(a: string, b: string)
    ensures Less(a, b) ==> !Less(b, a)
  {
    if a != [] && b != [] && a[0] == b[0] { LessAsymmetric(a[1..], b[1..]); }
  }

  lemma {:induction false} LessTransitive(a: string, b: string, c: string)
    requires Less(a, b) && Less(b, c)
    ensures Less(a, c)
  {
    if a != [] && b != [] && c != [] && a[0] == b[0] && b[0] == c[0] {
      LessTransitive(a[1..], b[1..], c[1..]);
    }
  }

  lemma {:induction false} LessTotal(a: string, b: string)
    ensures a == b || Less(a, b) || Less(b, a)
  {
    if a != [] && b != [] && a[0] == b[0] {
      LessTotal(a[1..], b[1..]);
      if a[1..] == b[1..] { assert a == [a[0]] + a[1..]; assert b == [b[0]] + b[1..]; }
    }
  }

  lemma LessIsStrictTotalOrder()
    ensures forall a, b :: Less(a, b) ==> !Less(b, a)
    ensures forall a, b :: a == b || Less(a, b) || Less(b, a)
    ensures forall a, b, c :: Less(a, b) && Less(b, c) ==> Less(a, c)
  {
    forall a, b ensures Less(a, b) ==> !Less(b, a) { LessAsymmetric(a, b); }
    forall a, b ensures a == b || Less(a, b) || Less(b, a) { LessTotal(a, b); }
    forall a, b, c | Less(a, b) && Less(b, c) ensures Less(a, c) { LessTransitive(a, b, c); }
  }

  predicate StrictlySorted(s: seq<string>) {
    forall i, j :: 0 <= i < j < |s| ==> Less(s[i], s[j])
  }

  /** The first n of an ascending list: drawn from it, and anything left out
      is larger than everything kept, which then numbers n. */
  lemma TakeSmallest(all: seq<string>, n: nat)
    requires StrictlySorted(all)
    ensures var cs := Take(all, n);
      (forall v :: v in cs ==> v in all)
      && forall w :: w in all && w !in cs ==> |cs| == n && forall v :: v in cs ==> Less(v, w)
  {
    var cs := Take(all, n);
    forall v | v in cs ensures v in all {
      var k :| 0 <= k < |cs| && cs[k] == v;
      assert all[k] == v;
    }
    forall w | w in all && w !in cs ensures |cs| == n && forall v :: v in cs ==> Less(v, w) {
      var j :| 0 <= j < |all| && all[j] == w;
      assert j >= |cs|;
      forall v | v in cs ensures Less(v, w) {
        var i :| 0 <= i < |cs| && cs[i] == v;
        assert all[i] == v;
      }
    }
  }

  predicate IsMinimum(m: string, s: set<string>) {
    m in s && forall x :: x in s ==> x == m || Less(m, x)
  }

  lemma {:induction false} MinimumExists(s: set<string>)
    requires s != {}
    ensures exists m :: IsMinimum(m, s)
    decreases |s|
  {
    var x :| x in s;
    if s - {x} == {} {
      assert s == {x};
      assert IsMinimum(x, s);
    } else {
      MinimumExists(s - {x});
      var m :| IsMinimum(m, s - {x});
      LessTotal(x, m);
      if Less(x, m) {
        forall y | y in s ensures y == x || Less(x, y) {
          if y != x && y != m { LessTransitive(x, m, y); }
        }
        assert IsMinimum(x, s);
      } else {
        assert IsMinimum(m, s);
      }
    }
  }

  /** The least element of a non-empty set of strings. */
  function Minimum(s: set<string>): (m: string)
    requires s != {}
    ensures IsMinimum(m, s)
  {
    MinimumExists(s);
    LessIsStrictTotalOrder();
    var m :| IsMinimum(m, s); m
  }

  /** Python's `sorted(list(s))` for a set of strings. */
  function SortedList(s: set<string>): (r: seq<string>)
    ensures StrictlySorted(r)
    ensures forall x :: x in r <==> x in s
    ensures |r| == |s|
    decreases |s|
  {
    if s == {} then []
    else
      var m := Minimum(s);
      var rest := SortedList(s - {m});
      assert forall x :: x in rest ==> Less(m, x);
      [m] + rest
  }

  // ---------------------------------------------------------------------------
  // str.split / str.join on a one-character separator.

  /** Python's `s.split(d)`: always at least one part; empty parts are kept. */
  function Split(s: string, d: char): (r: seq<string>)
    ensures |r| >= 1
    ensures forall i :: 0 <= i < |r| ==> d !in r[i]
  {
    if s == [] then [""]
    else
      var rest := Split(s[1..], d);
      if s[0] == d then [""] + rest else [[s[0]] + rest[0]] + rest[1..]
  }

  /** Python's `d.join(parts)`. */
  function Join(parts: seq<string>, d: char): string {
    if |parts| == 0 then ""
    else if |parts| == 1 then parts[0]
    else parts[0] + [d] + Join(parts[1..], d)
  }

  /** Python's `sep.join(parts)` for a separator string. */
  function JoinWith(parts: seq<string>, sep: string): string {
    if |parts| == 0 then ""
    else if |parts| == 1 then parts[0]
    else parts[0] + sep + JoinWith(parts[1..], sep)
  }

  lemma {:induction false} JoinCons(a: string, rest: seq<string>, d: char)
    requires rest != []
    ensures Join([a] + rest, d) == a + [d] + Join(rest, d)
  {
    assert ([a] + rest)[1..] == rest;
  }

  lemma {:induction false} JoinSplit(s: string, d: char)
    ensures Join(Split(s, d), d) == s
  {
    if s != [] {
      JoinSplit(s[1..], d);
      var rest := Split(s[1..], d);
      if s[0] == d {
        assert Split(s, d)[1..] == rest;
      } else {
        var r := Split(s, d);
        assert r[1..] == rest[1..];
        if |rest| == 1 {
          assert s == [s[0]] + rest[0];
        } else {
          assert Join(rest, d) == rest[0] + [d] + Join(rest[1..], d);
          assert s == [s[0]] + s[1..];
        }
      }
    }
  }

  lemma {:induction false} SplitJoin(parts: seq<string>, d: char)
    requires |parts| >= 1
    requires forall i :: 0 <= i < |parts| ==> d !in parts[i]
    ensures Split(Join(parts, d), d) == parts
    decreases |parts|, |parts[0]|
  {
    if parts[0] == [] {
      if |parts| > 1 {
        assert Join(parts, d) == [d] + Join(parts[1..], d);
        SplitJoin(parts[1..], d);
        assert ([d] + Join(parts[1..], d))[1..] == Join(parts[1..], d);
        assert [""] + parts[1..] == parts;
      }
    } else {
      var c := parts[0][0];
      var tail := [parts[0][1..]] + parts[1..];
      assert tail[1..] == parts[1..];
      assert forall i :: 0 <= i < |tail| ==> d !in tail[i];
      SplitJoin(tail, d);
      assert Join(parts, d) == [c] + Join(tail, d) by {
        if |parts| == 1 {
        } else {
          assert Join(tail, d) == parts[0][1..] + [d] + Join(parts[1..], d);
          assert parts[0] == [c] + parts[0][1..];
        }
      }
      assert ([c] + Join(tail, d))[1..] == Join(tail, d);
      assert [c] + tail[0] == parts[0];
      assert parts == [parts[0]] + parts[1..];
    }
  }

  /** Python's `s.split(d, 1)` when it yields two parts. */
  function SplitFirst(s: string, d: char): (r: Option<(string, string)>)
    ensures r.None? <==> d !in s
    ensures r.Some? ==> s == r.value.0 + [d] + r.value.1 && d !in r.value.0
  {
    if s == [] then None
    else if s[0] == d then Some(([], s[1..]))
    else match SplitFirst(s[1..], d)
      case None => None
      case Some(p) => Some(([s[0]] + p.0, p.1))
  }

  lemma {:induction false} SplitFirstOf(prefix: string, d: char, rest: string)
    requires d !in prefix
    ensures SplitFirst(prefix + [d] + rest, d) == Some((prefix, rest))
  {
    if prefix != [] {
      assert (prefix + [d] + rest)[1..] == prefix[1..] + [d] + rest;
      SplitFirstOf(prefix[1..], d, rest);
      assert [prefix[0]] + prefix[1..] == prefix;
    } else {
      assert prefix + [d] + rest == [d] + rest;
    }
  }

  /** `s.replace(a, b)` for single characters. */
  function Replace(s: string, a: char, b: char): (r: string)
    ensures |r| == |s|
    ensures forall i :: 0 <= i < |s| ==> r[i] == if s[i] == a then b else s[i]
  {
    seq(|s|, i requires 0 <= i < |s| => if s[i] == a then b else s[i])
  }

  /** `sub in s` for strings. */
  predicate Contains(s: string, sub: string) {
    (|sub| <= |s| && s[..|sub|] == sub) || (s != [] && Contains(s[1..], sub))
  }

  /** Index of the first element equal to x (Python's `list.index`; None is the ValueError). */
  function IndexOf<T(==)>(s: seq<T>, x: T): (r: Option<nat>)
    ensures r.Some? ==> r.value < |s| && s[r.value] == x && x !in s[..r.value]
    ensures r.None? <==> x !in s
  {
    if s == [] then None
    else if s[0] == x then Some(0)
    else match IndexOf(s[1..], x)
      case None => None
      case Some(k) => assert s[1..][..k] == s[1..k + 1]; Some(k + 1)
  }

  /** ASCII `str.lower()`. */
  function Lower(s: string): (r: string)
    ensures |r| == |s|
    ensures forall i :: 0 <= i < |s| ==> !('A' <= r[i] <= 'Z')
    ensures forall i :: 0 <= i < |s| && !('A' <= s[i] <= 'Z') ==> r[i] == s[i]
  {
    seq(|s|, i requires 0 <= i < |s| => if 'A' <= s[i] <= 'Z' then (s[i] as int + 32) as char else s[i])
  }

  /** The characters `str.strip()` removes that the model covers: ASCII
      whitespace and the separators U+001C..U+001F. */
  predicate IsSpace(c: char) {
    c == ' ' || 9 <= c as int <= 13 || 0x1c <= c as int <= 0x1f
  }

  function StripRight(s: string): string {
    if s == [] then []
    else if IsSpace(s[|s| - 1]) then StripRight(s[..|s| - 1])
    else s
  }

  function StripLeft(s: string): string {
    if s == [] then []
    else if IsSpace(s[0]) then StripLeft(s[1..])
    else s
  }

  /** `s.strip()`. */
  function Strip(s: string): string {
    StripLeft(StripRight(s))
  }

  /** StripRight drops exactly the trailing run of spaces. */
  lemma {:induction false} StripRightSpec(s: string)
    ensures StripRight(s) <= s
    ensures forall k :: |StripRight(s)| <= k < |s| ==> IsSpace(s[k])
    ensures StripRight(s) == [] || !IsSpace(StripRight(s)[|StripRight(s)| - 1])
  {
    if s != [] && IsSpace(s[|s| - 1]) {
      StripRightSpec(s[..|s| - 1]);
    }
  }

  /** StripLeft drops exactly the leading run of spaces. */
  lemma {:induction false} StripLeftSpec(s: string)
    ensures |StripLeft(s)| <= |s| && StripLeft(s) == s[|s| - |StripLeft(s)|..]
    ensures forall k :: 0 <= k < |s| - |StripLeft(s)| ==> IsSpace(s[k])
    ensures StripLeft(s) == [] || !IsSpace(StripLeft(s)[0])
  {
    if s != [] && IsSpace(s[0]) {
      var r := StripLeft(s[1..]);
      StripLeftSpec(s[1..]);
      assert s[1..][|s| - 1 - |r|..] == s[|s| - |r|..];
      assert forall k :: 1 <= k < |s| - |r| ==> s[k] == s[1..][k - 1];
    }
  }

  /** Stripping keeps a head that starts and ends with non-space characters. */
  lemma StripKeepsHead(s: string, n: nat)
    requires n < |s| && !IsSpace(s[0]) && !IsSpace(s[n])
    ensures |Strip(s)| > n && Strip(s)[..n + 1] == s[..n + 1]
  {
    var r := StripRight(s);
    StripRightSpec(s);
    assert |r| > n;
    assert r[0] == s[0];
    assert StripLeft(r) == r;
    assert r[..n + 1] == s[..n + 1];
  }

  /** `str(o)` for an optional string: None renders as "None". */
  function Show(o: Option<string>): string {
    if o.Some? then o.value else "None"
  }

  function Digits(n: nat): (r: string)
    ensures |r| >= 1
    ensures forall k :: 0 <= k < |r| ==> '0' <= r[k] <= '9'
  {
    if n < 10 then [('0' as int + n) as char]
    else Digits(n / 10) + [('0' as int + n % 10) as char]
  }

  /** `str(o)` for an optional integer. */
  function ShowInt(o: Option<int>): string {
    match o
    case None => "None"
    case Some(n) => if n < 0 then "-" + Digits(-n) else Digits(n)
  }

  /** The distinct elements in order of first occurrence (also the order of
      `list(set(keys))` in this model: Python leaves that order unspecified). */
  function Dedup<T(==,!new)>(s: seq<T>): (r: seq<T>)
    ensures forall x :: x in r <==> x in s
    ensures forall i, j :: 0 <= i < j < |r| ==> r[i] != r[j]
    ensures |r| <= |s|
  {
    if s == [] then []
    else
      var d := Dedup(s[..|s| - 1]);
      assert forall x :: x in s <==> x in s[..|s| - 1] || x == s[|s| - 1] by {
        assert s == s[..|s| - 1] + [s[|s| - 1]];
      }
      if s[|s| - 1] in d then d else d + [s[|s| - 1]]
  }

}
