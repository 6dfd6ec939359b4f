/** Sums, extremes and means over integer prices, with the fallbacks the
    aggregations use when there is nothing to summarise. */
module Stats {

  function Sum(s: seq<int>): int {
    if s == [] then 0 else Sum(s[..|s| - 1]) + s[|s| - 1]
  }

  lemma {:induction false} SumConcat(a: seq<int>, b: seq<int>)
    ensures Sum(a + b) == Sum(a) + Sum(b)
    decreases |b|
  {
    if b != [] {
      var ab := a + b;
      SumConcat(a, b[..|b| - 1]);
      assert ab[..|ab| - 1] == a + b[..|b| - 1];
      assert ab[|ab| - 1] == b[|b| - 1];
      assert Sum(ab) == Sum(ab[..|ab| - 1]) + ab[|ab| - 1];
      assert Sum(b) == Sum(b[..|b| - 1]) + b[|b| - 1];
    } else {
      assert a + b == a;
    }
  }

  function Min(s: seq<int>): int
    requires s != []
  {
    if |s| == 1 then s[0]
    else var m := Min(s[..|s| - 1]); if s[|s| - 1] < m then s[|s| - 1] else m
  }

  function Max(s: seq<int>): int
    requires s != []
  {
    if |s| == 1 then s[0]
    else var m := Max(s[..|s| - 1]); if s[|s| - 1] > m then s[|s| - 1] else m
  }

  /** Min and Max are elements of s and bound every element. */
  lemma {:induction false} MinMaxBounds(s: seq<int>)
    requires s != []
    ensures Min(s) in s && Max(s) in s
    ensures forall x :: x in s ==> Min(s) <= x <= Max(s)
  {
    if |s| > 1 {
      var init := s[..|s| - 1];
      MinMaxBounds(init);
      assert s == init + [s[|s| - 1]];
    }
  }

  /** A lower bound on every element bounds the sum from below, |s| times over. */
  lemma {:induction false} SumAtLeast(s: seq<int>, lo: int)
    requires forall x :: x in s ==> lo <= x
    ensures |s| * lo <= Sum(s)
  {
    if s != [] {
      var init := s[..|s| - 1];
      assert forall x :: x in init ==> x in s;
      SumAtLeast(init, lo);
      assert s[|s| - 1] in s;
      assert |s| * lo == |init| * lo + lo;
    }
  }

  lemma {:induction false} SumAtMost(s: seq<int>, hi: int)
    requires forall x :: x in s ==> x <= hi
    ensures Sum(s) <= |s| * hi
  {
    if s != [] {
      var init := s[..|s| - 1];
      assert forall x :: x in init ==> x in s;
      SumAtMost(init, hi);
      assert s[|s| - 1] in s;
      assert |s| * hi == |init| * hi + hi;
    }
  }

  function Mean(s: seq<int>): real
    requires s != []
  {
    Sum(s) as real / |s| as real
  }

  lemma DivBounds(lo: real, x: real, hi: real, n: real)
    requires n > 0.0 && n * lo <= x <= n * hi
    ensures lo <= x / n <= hi
  {
    assert x / n * n == x;
  }

  /** An integer total between n·lo and n·hi has its mean between lo and hi. */
  lemma IntDivBounds(lo: int, x: int, hi: int, n: int)
    requires n > 0 && n * lo <= x <= n * hi
    ensures lo as real <= x as real / n as real <= hi as real
  {
    assert (n * lo) as real == n as real * lo as real;
    assert (n * hi) as real == n as real * hi as real;
    DivBounds(lo as real, x as real, hi as real, n as real);
  }

  /** The mean lies between the minimum and the maximum. */
  lemma MeanWithinRange(s: seq<int>)
    requires s != []
    ensures Min(s) as real <= Mean(s) <= Max(s) as real
  {
    var lo, hi := Min(s), Max(s);
    MinMaxBounds(s);
    SumAtLeast(s, lo);
    SumAtMost(s, hi);
    IntDivBounds(lo, Sum(s), hi, |s|);
  }

  /** `sum(s) / len(s) if s else 0` and the like. */
  function MeanOr0(s: seq<int>): real {
    if s == [] then 0.0 else Mean(s)
  }

  function MinOr0(s: seq<int>): int {
    if s == [] then 0 else Min(s)
  }

  function MaxOr0(s: seq<int>): int {
    if s == [] then 0 else Max(s)
  }

  /** The prices greater than zero, in order. */
  function Positive(s: seq<int>): (r: seq<int>)
    ensures forall x :: x in r <==> x in s && x > 0
    ensures |r| <= |s|
  {
    if s == [] then []
    else
      var init := Positive(s[..|s| - 1]);
      assert forall x :: x in s <==> x in s[..|s| - 1] || x == s[|s| - 1] by {
        assert s == s[..|s| - 1] + [s[|s| - 1]];
      }
      if s[|s| - 1] > 0 then init + [s[|s| - 1]] else init
  }

  /** With at least one positive price, the fallback statistics are honest:
      0 < min <= mean <= max, and min and max are prices that occur. */
  lemma PositiveStats(s: seq<int>)
    requires Positive(s) != []
    ensures 0 < MinOr0(Positive(s)) && MinOr0(Positive(s)) in s && MaxOr0(Positive(s)) in s
    ensures MinOr0(Positive(s)) as real <= MeanOr0(Positive(s)) <= MaxOr0(Positive(s)) as real
    ensures forall x :: x in s && x > 0 ==> MinOr0(Positive(s)) <= x <= MaxOr0(Positive(s))
  {
    MinMaxBounds(Positive(s));
    MeanWithinRange(Positive(s));
  }
}
