/**
 * Exact arithmetic helpers shared by the indicators, the strategies and the
 * decision engine. Every `decimal.Decimal` and `float64` of the trading code is
 * an exact `real` here.
 */
module Numbers {

  /** Left-to-right sum, in the order the source's accumulator loops add. */
  function Sum(s: seq<real>): real
  {
    if |s| == 0 then 0.0 else Sum(s[..|s| - 1]) + s[|s| - 1]
  }

  /** Adding one more element to the right of a slice adds it to the sum. */
  lemma SumSnoc(s: seq<real>, lo: int, hi: int)
    requires 0 <= lo <= hi < |s|
    ensures Sum(s[lo..hi + 1]) == Sum(s[lo..hi]) + s[hi]
  {
    assert s[lo..hi + 1][..hi - lo] == s[lo..hi];
  }

  /** A window of n copies of c sums to n * c. */
  lemma {:induction false} SumConstant(s: seq<real>, c: real)
    requires forall i :: 0 <= i < |s| ==> s[i] == c
    ensures Sum(s) == |s| as real * c
  {
    if |s| > 0 {
      SumConstant(s[..|s| - 1], c);
    }
  }

  /** Arithmetic mean of a non-empty window. */
  function Mean(window: seq<real>): real
    requires |window| > 0
  {
    Sum(window) / |window| as real
  }

  lemma MeanConstant(s: seq<real>, c: real)
    requires |s| > 0
    requires forall i :: 0 <= i < |s| ==> s[i] == c
    ensures Mean(s) == c
  {
    SumConstant(s, c);
  }

  /** The sum of the values s[lo..hi], accumulated left to right as the source's loops do. */
  method WindowSum(s: seq<real>, lo: int, hi: int) returns (sum: real)
    requires 0 <= lo <= hi <= |s|
    ensures sum == Sum(s[lo..hi])
  {
    sum := 0.0;
    var j := lo;
    while j < hi
      invariant lo <= j <= hi
      invariant sum == Sum(s[lo..j])
    {
      SumSnoc(s, lo, j);
      sum := sum + s[j];
      j := j + 1;
    }
  }

  /** A sum of non-negative values is non-negative. */
  lemma {:induction false} SumNonNegative(s: seq<real>)
    requires forall i :: 0 <= i < |s| ==> 0.0 <= s[i]
    ensures 0.0 <= Sum(s)
  {
    if |s| > 0 {
      SumNonNegative(s[..|s| - 1]);
    }
  }

  /** A sum of non-negative values with one positive value is positive. */
  lemma {:induction false} SumPositive(s: seq<real>)
    requires |s| > 0
    requires forall i :: 0 <= i < |s| ==> 0.0 < s[i]
    ensures 0.0 < Sum(s)
  {
    if |s| > 1 {
      SumPositive(s[..|s| - 1]);
    }
  }

  /** `decimal.Abs`. */
  function Abs(x: real): (r: real)
    ensures 0.0 <= r && (r == x || r == -x)
  {
    if x < 0.0 then -x else x
  }

  /** `decimal.Min`: the smaller of the two arguments. */
  function Min(a: real, b: real): (r: real)
    ensures r <= a && r <= b && (r == a || r == b)
  {
    if a <= b then a else b
  }

  /** `decimal.Sign`: -1, 0 or 1. */
  function Sign(x: real): (r: int)
    ensures r == 0 <==> x == 0.0
    ensures r == 1 <==> 0.0 < x
    ensures r == -1 <==> x < 0.0
  {
    if x < 0.0 then -1 else if x == 0.0 then 0 else 1
  }

  /** `decimal.Truncate(0)`: drops the fractional part, rounding toward zero. */
  function Truncate(x: real): (r: int)
    ensures 0.0 <= x ==> r as real <= x < r as real + 1.0
    ensures x < 0.0 ==> r as real - 1.0 < x <= r as real
  {
    if 0.0 <= x then x.Floor else -((-x).Floor)
  }

  /**
   * The square root (`decimal.Pow(0.5)`) is a parameter of the model. These
   * predicates say what a proof may assume about it.
   */
  ghost predicate NonNegativeRoot(sqrt: real -> real)
  {
    forall x :: 0.0 <= x ==> 0.0 <= sqrt(x)
  }

  ghost predicate IsSqrt(sqrt: real -> real)
  {
    forall x :: 0.0 <= x ==> 0.0 <= sqrt(x) && sqrt(x) * sqrt(x) == x
  }
}
