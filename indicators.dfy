/**
 * The technical-indicator library (strategies/strategy.go): simple and
 * exponential moving averages, the relative strength index with Wilder
 * smoothing, Bollinger bands and MACD, over a series of exact prices.
 *
 * Each indicator is a specification function; each `Calculate...` method
 * follows the source's index loops and is proved to return exactly that
 * function. Too short a series gives an empty result, never an error.
 */
module Indicators {
  import opened Numbers

  // ---------------------------------------------------------------- SMA

  /** Element k is the mean of the window values[k .. k + period). */
  function SMA(values: seq<real>, period: int): (r: seq<real>)
    requires period >= 1
    ensures |r| == if |values| < period then 0 else |values| - period + 1
  {
    if |values| < period then []
    else seq(|values| - period + 1, k requires 0 <= k < |values| - period + 1 => Mean(values[k..k + period]))
  }

  method CalculateSMA(values: seq<real>, period: int) returns (sma: seq<real>)
    requires period >= 1
    ensures sma == SMA(values, period)
  {
    if |values| < period {
      return [];
    }
    var out := new real[|values| - period + 1];
    var i := period - 1;
    while i < |values|
      invariant period - 1 <= i <= |values|
      invariant forall k :: 0 <= k < i - period + 1 ==> out[k] == Mean(values[k..k + period])
    {
      var sum := WindowSum(values, i - period + 1, i + 1);
      out[i - period + 1] := sum / period as real;
      i := i + 1;
    }
    sma := out[..];
  }

  /** Every average of a constant series is that constant. */
  lemma SMAOfConstant(values: seq<real>, period: int, c: real)
    requires period >= 1
    requires forall i :: 0 <= i < |values| ==> values[i] == c
    ensures forall k :: 0 <= k < |SMA(values, period)| ==> SMA(values, period)[k] == c
  {
    forall k | 0 <= k < |SMA(values, period)|
      ensures SMA(values, period)[k] == c
    {
      MeanConstant(values[k..k + period], c);
    }
  }

  // ---------------------------------------------------------------- EMA

  /** The smoothing factor 2 / (period + 1). */
  function Multiplier(period: int): real
    requires period >= 1
  {
    2.0 / (period + 1) as real
  }

  /**
   * EMA value j: the mean of the first `period` values for j = 0, then
   * price * m + previous * (1 - m) for the price at index period - 1 + j.
   */
  function EMAAt(values: seq<real>, period: int, j: nat): (r: real)
    requires period >= 1 && period - 1 + j < |values|
    // Non-negative prices have a non-negative average.
    ensures (forall i :: 0 <= i < period + j ==> 0.0 <= values[i]) ==> 0.0 <= r
    decreases j
  {
    if j == 0 then
      if forall i :: 0 <= i < period ==> 0.0 <= values[i] then
        SumNonNegative(values[..period]);
        QuotientNonNegative(Sum(values[..period]), period as real);
        Mean(values[..period])
      else Mean(values[..period])
    else
      var m := Multiplier(period);
      var previous := EMAAt(values, period, j - 1);
      RatioBelowOne(2.0, (period + 1) as real);
      ProductNonNegative(values[period - 1 + j], m);
      ProductNonNegative(previous, 1.0 - m);
      values[period - 1 + j] * m + previous * (1.0 - m)
  }

  function EMA(values: seq<real>, period: int): (r: seq<real>)
    requires period >= 1
    ensures |r| == if |values| < period then 0 else |values| - period + 1
  {
    if |values| < period then []
    else seq(|values| - period + 1, j requires 0 <= j < |values| - period + 1 => EMAAt(values, period, j))
  }

  method CalculateEMA(values: seq<real>, period: int) returns (ema: seq<real>)
    requires period >= 1
    ensures ema == EMA(values, period)
  {
    if |values| < period {
      return [];
    }
    var out := new real[|values|];
    var multiplier := 2.0 / (period + 1) as real;
    var sum := WindowSum(values, 0, period);
    assert values[0..period] == values[..period];
    out[period - 1] := sum / period as real;
    var i := period;
    while i < |values|
      invariant period <= i <= |values|
      invariant forall k :: period - 1 <= k < i ==> out[k] == EMAAt(values, period, k - period + 1)
    {
      out[i] := values[i] * multiplier + out[i - 1] * (1.0 - multiplier);
      i := i + 1;
    }
    ema := out[period - 1..];
  }

  lemma {:induction false} EMAAtOfConstant(values: seq<real>, period: int, j: nat, c: real)
    requires period >= 1 && period - 1 + j < |values|
    requires forall i :: 0 <= i < |values| ==> values[i] == c
    ensures EMAAt(values, period, j) == c
  {
    if j == 0 {
      MeanConstant(values[..period], c);
    } else {
      EMAAtOfConstant(values, period, j - 1, c);
      var m := Multiplier(period);
      assert c * m + c * (1.0 - m) == c;
    }
  }

  /** Every exponential average of a constant series is that constant. */
  lemma EMAOfConstant(values: seq<real>, period: int, c: real)
    requires period >= 1
    requires forall i :: 0 <= i < |values| ==> values[i] == c
    ensures forall j :: 0 <= j < |EMA(values, period)| ==> EMA(values, period)[j] == c
  {
    forall j | 0 <= j < |EMA(values, period)|
      ensures EMA(values, period)[j] == c
    {
      EMAAtOfConstant(values, period, j, c);
    }
  }

  // ---------------------------------------------------------------- RSI

  /** Every entry is at least zero. */
  predicate NonNegative(xs: seq<real>)
  {
    forall i :: 0 <= i < |xs| ==> 0.0 <= xs[i]
  }

  /** The upward part of a price change. */
  function Gain(change: real): real
  {
    if change > 0.0 then change else 0.0
  }

  /** The downward part of a price change, as a non-negative amount. */
  function Loss(change: real): real
  {
    if change > 0.0 then 0.0 else Abs(change)
  }

  /** Every change splits into a non-negative gain and loss, at most one of them non-zero. */
  lemma GainLossSplit(change: real)
    ensures 0.0 <= Gain(change) && 0.0 <= Loss(change)
    ensures Gain(change) - Loss(change) == change
    ensures Gain(change) == 0.0 || Loss(change) == 0.0
  {
  }

  function Gains(prices: seq<real>): (r: seq<real>)
    requires |prices| >= 1
    ensures |r| == |prices| - 1 && NonNegative(r)
  {
    seq(|prices| - 1, i requires 0 <= i < |prices| - 1 => Gain(prices[i + 1] - prices[i]))
  }

  function Losses(prices: seq<real>): (r: seq<real>)
    requires |prices| >= 1
    ensures |r| == |prices| - 1 && NonNegative(r)
  {
    seq(|prices| - 1, i requires 0 <= i < |prices| - 1 => Loss(prices[i + 1] - prices[i]))
  }

  /** One Wilder smoothing step: (previous * (period - 1) + x) / period. */
  function Smooth(previous: real, x: real, period: int): (r: real)
    requires period >= 1
    ensures 0.0 <= previous && 0.0 <= x ==> 0.0 <= r
  {
    ProductNonNegative(previous, (period - 1) as real);
    QuotientNonNegative(previous * (period - 1) as real + x, period as real);
    (previous * (period - 1) as real + x) / period as real
  }

  lemma ProductNonNegative(a: real, b: real)
    ensures 0.0 <= a && 0.0 <= b ==> 0.0 <= a * b
  {
  }

  lemma QuotientNonNegative(a: real, b: real)
    requires 0.0 < b
    ensures 0.0 <= a ==> 0.0 <= a / b
  {
    assert a / b * b == a;
  }

  /**
   * Wilder smoothing: value 0 is the mean of the first `period` entries,
   * value j smooths value j - 1 with the entry at index period - 1 + j.
   */
  function Smoothed(xs: seq<real>, period: int, j: nat): (r: real)
    requires period >= 1 && period - 1 + j < |xs| && NonNegative(xs)
    ensures 0.0 <= r
    decreases j
  {
    if j == 0 then
      SumNonNegative(xs[..period]);
      QuotientNonNegative(Sum(xs[..period]), period as real);
      Mean(xs[..period])
    else
      Smooth(Smoothed(xs, period, j - 1), xs[period - 1 + j], period)
  }

  /** 100 - 100 / (1 + gain / loss), defined as 100 when there was no loss. */
  function RSIValue(avgGain: real, avgLoss: real): (r: real)
    requires 0.0 <= avgGain && 0.0 <= avgLoss
    ensures 0.0 <= r <= 100.0
    ensures avgLoss == 0.0 ==> r == 100.0
    ensures avgGain == 0.0 && avgLoss != 0.0 ==> r == 0.0
  {
    if avgLoss == 0.0 then 100.0
    else
      var rs := avgGain / avgLoss;
      QuotientNonNegative(avgGain, avgLoss);
      RatioBelowOne(100.0, 1.0 + rs);
      100.0 - 100.0 / (1.0 + rs)
  }

  /**
   * The same value read as the gains' share of all movement: RSI is 100 times
   * average gain over average gain plus average loss.
   */
  lemma RSIValueIsGainShare(avgGain: real, avgLoss: real)
    requires 0.0 <= avgGain && 0.0 < avgLoss
    ensures RSIValue(avgGain, avgLoss) == 100.0 * avgGain / (avgGain + avgLoss)
  {
    var rs := avgGain / avgLoss;
    var total := avgGain + avgLoss;
    assert rs * avgLoss == avgGain;
    assert (1.0 + rs) * avgLoss == total;
    var q := 100.0 / (1.0 + rs);
    assert q * (1.0 + rs) == 100.0;
    assert q * total == 100.0 * avgLoss by {
      calc {
        q * total;
        q * ((1.0 + rs) * avgLoss);
        (q * (1.0 + rs)) * avgLoss;
        100.0 * avgLoss;
      }
    }
    assert (100.0 - q) * total == 100.0 * avgGain;
  }

  lemma RatioBelowOne(a: real, d: real)
    requires 0.0 <= a && 1.0 <= d
    ensures 0.0 <= a / d <= a
  {
    assert a / d * d == a;
  }

  /**
   * RSI values from per-bar gains and losses: value j compares the smoothed
   * gains and losses up to entry period - 1 + j.
   */
  function WilderRSI(gains: seq<real>, losses: seq<real>, period: int): (r: seq<real>)
    requires period >= 1 && |gains| == |losses| >= period
    requires NonNegative(gains) && NonNegative(losses)
    ensures |r| == |gains| - period + 1
  {
    seq(|gains| - period + 1, j requires 0 <= j < |gains| - period + 1 =>
          RSIValue(Smoothed(gains, period, j), Smoothed(losses, period, j)))
  }

  /** RSI value j belongs to the price at index period + j. */
  function RSI(prices: seq<real>, period: int): (r: seq<real>)
    requires period >= 1
    ensures |r| == if |prices| < period + 1 then 0 else |prices| - period
    ensures forall j :: 0 <= j < |r| ==> 0.0 <= r[j] <= 100.0
  {
    if |prices| < period + 1 then []
    else WilderRSI(Gains(prices), Losses(prices), period)
  }

  /** The first pass of `CalculateRSI`: splits each price change into a gain and a loss. */
  method PriceChanges(prices: seq<real>) returns (gains: seq<real>, losses: seq<real>)
    requires |prices| >= 1
    ensures gains == Gains(prices) && losses == Losses(prices)
  {
    ghost var expectedGains, expectedLosses := Gains(prices), Losses(prices);
    var g := new real[|prices| - 1];
    var l := new real[|prices| - 1];
    var i := 1;
    while i < |prices|
      invariant 1 <= i <= |prices|
      invariant forall k :: 0 <= k < i - 1 ==> g[k] == expectedGains[k] && l[k] == expectedLosses[k]
    {
      var change := prices[i] - prices[i - 1];
      if change > 0.0 {
        g[i - 1] := change;
        l[i - 1] := 0.0;
      } else {
        g[i - 1] := 0.0;
        l[i - 1] := Abs(change);
      }
      i := i + 1;
    }
    assert g[..] == expectedGains && l[..] == expectedLosses;
    gains, losses := g[..], l[..];
  }

  /** The seed of the smoothing pass: the plain means of the first `period` gains and losses. */
  method InitialAverages(gains: seq<real>, losses: seq<real>, period: int) returns (avgGain: real, avgLoss: real)
    requires 1 <= period <= |gains| && period <= |losses|
    ensures avgGain == Mean(gains[..period]) && avgLoss == Mean(losses[..period])
  {
    avgGain, avgLoss := 0.0, 0.0;
    var i := 0;
    while i < period
      invariant 0 <= i <= period
      invariant avgGain == Sum(gains[..i]) && avgLoss == Sum(losses[..i])
    {
      SumSnoc(gains, 0, i);
      SumSnoc(losses, 0, i);
      assert gains[0..i + 1] == gains[..i + 1] && gains[0..i] == gains[..i];
      assert losses[0..i + 1] == losses[..i + 1] && losses[0..i] == losses[..i];
      avgGain := avgGain + gains[i];
      avgLoss := avgLoss + losses[i];
      i := i + 1;
    }
    avgGain := avgGain / period as real;
    avgLoss := avgLoss / period as real;
  }

  /** The smoothing pass of `CalculateRSI`, over the gains and losses of the first pass. */
  method SmoothedRSI(gains: seq<real>, losses: seq<real>, period: int) returns (rsi: seq<real>)
    requires period >= 1 && |gains| == |losses| >= period
    requires NonNegative(gains) && NonNegative(losses)
    ensures rsi == WilderRSI(gains, losses, period)
  {
    var n := |gains|;
    var avgGain, avgLoss := InitialAverages(gains, losses, period);
    var i;

    ghost var expected := WilderRSI(gains, losses, period);
    var out := new real[n - period + 1];
    i := period - 1;
    while i < n
      invariant period - 1 <= i <= n
      invariant i == period - 1 ==> avgGain == Smoothed(gains, period, 0) && avgLoss == Smoothed(losses, period, 0)
      invariant period - 1 < i ==> avgGain == Smoothed(gains, period, i - period) && avgLoss == Smoothed(losses, period, i - period)
      invariant forall k :: 0 <= k < i - period + 1 ==> out[k] == expected[k]
    {
      if i > period - 1 {
        avgGain := Smooth(avgGain, gains[i], period);
        avgLoss := Smooth(avgLoss, losses[i], period);
      }
      out[i - period + 1] := RSIValue(avgGain, avgLoss);
      i := i + 1;
    }
    rsi := out[..];
  }

  method CalculateRSI(prices: seq<real>, period: int) returns (rsi: seq<real>)
    requires period >= 1
    ensures rsi == RSI(prices, period)
  {
    if |prices| < period + 1 {
      return [];
    }
    var gains, losses := PriceChanges(prices);
    rsi := SmoothedRSI(gains, losses, period);
  }

  lemma {:induction false} SmoothedOfZeros(xs: seq<real>, period: int, j: nat)
    requires period >= 1 && period - 1 + j < |xs|
    requires forall i :: 0 <= i < |xs| ==> xs[i] == 0.0
    ensures Smoothed(xs, period, j) == 0.0
  {
    if j == 0 {
      MeanConstant(xs[..period], 0.0);
    } else {
      SmoothedOfZeros(xs, period, j - 1);
    }
  }

  lemma {:induction false} SmoothedOfPositives(xs: seq<real>, period: int, j: nat)
    requires period >= 1 && period - 1 + j < |xs|
    requires forall i :: 0 <= i < |xs| ==> 0.0 < xs[i]
    ensures Smoothed(xs, period, j) > 0.0
  {
    if j == 0 {
      SumPositive(xs[..period]);
      assert Sum(xs[..period]) / period as real * period as real == Sum(xs[..period]);
    } else {
      SmoothedOfPositives(xs, period, j - 1);
      var previous := Smoothed(xs, period, j - 1);
      ProductNonNegative(previous, (period - 1) as real);
      var total := previous * (period - 1) as real + xs[period - 1 + j];
      assert total / period as real * period as real == total;
    }
  }

  /** A series that never falls has no losses, so its RSI is 100 throughout. */
  lemma RSIOfRisingSeries(prices: seq<real>, period: int)
    requires period >= 1
    requires forall i :: 0 <= i < |prices| - 1 ==> prices[i] <= prices[i + 1]
    ensures forall j :: 0 <= j < |RSI(prices, period)| ==> RSI(prices, period)[j] == 100.0
  {
    if |prices| >= period + 1 {
      var gains, losses := Gains(prices), Losses(prices);
      assert forall i :: 0 <= i < |losses| ==> losses[i] == 0.0;
      forall j | 0 <= j < |prices| - period
        ensures RSI(prices, period)[j] == 100.0
      {
        SmoothedOfZeros(losses, period, j);
        assert RSI(prices, period)[j] == RSIValue(Smoothed(gains, period, j), Smoothed(losses, period, j));
      }
    }
  }

  /** A strictly falling series has no gains and positive losses, so its RSI is 0 throughout. */
  lemma RSIOfFallingSeries(prices: seq<real>, period: int)
    requires period >= 1
    requires forall i :: 0 <= i < |prices| - 1 ==> prices[i] > prices[i + 1]
    ensures forall j :: 0 <= j < |RSI(prices, period)| ==> RSI(prices, period)[j] == 0.0
  {
    if |prices| >= period + 1 {
      var gains, losses := Gains(prices), Losses(prices);
      assert forall i :: 0 <= i < |gains| ==> gains[i] == 0.0;
      assert forall i :: 0 <= i < |losses| ==> losses[i] > 0.0;
      forall j | 0 <= j < |prices| - period
        ensures RSI(prices, period)[j] == 0.0
      {
        SmoothedOfZeros(gains, period, j);
        SmoothedOfPositives(losses, period, j);
        assert RSI(prices, period)[j] == RSIValue(Smoothed(gains, period, j), Smoothed(losses, period, j));
      }
    }
  }

  // ---------------------------------------------------------------- Bollinger bands

  /** Sum of squared deviations of a window from a given mean. */
  function SquaredDeviations(window: seq<real>, mean: real): (r: real)
    ensures 0.0 <= r
  {
    if |window| == 0 then 0.0
    else
      var d := window[|window| - 1] - mean;
      SquaredDeviations(window[..|window| - 1], mean) + d * d
  }

  lemma SquaredDeviationsSnoc(s: seq<real>, lo: int, hi: int, mean: real)
    requires 0 <= lo <= hi < |s|
    ensures SquaredDeviations(s[lo..hi + 1], mean) ==
            SquaredDeviations(s[lo..hi], mean) + (s[hi] - mean) * (s[hi] - mean)
  {
    assert s[lo..hi + 1][..hi - lo] == s[lo..hi];
  }

  /** The deviation sum over prices[lo..hi], accumulated as the band loop does. */
  method WindowSquaredDeviations(prices: seq<real>, lo: int, hi: int, mean: real) returns (sum: real)
    requires 0 <= lo <= hi <= |prices|
    ensures sum == SquaredDeviations(prices[lo..hi], mean)
  {
    sum := 0.0;
    var j := lo;
    while j < hi
      invariant lo <= j <= hi
      invariant sum == SquaredDeviations(prices[lo..j], mean)
    {
      SquaredDeviationsSnoc(prices, lo, j, mean);
      var diff := prices[j] - mean;
      sum := sum + diff * diff;
      j := j + 1;
    }
  }

  /** Population variance of the window behind SMA value i, about that window's own mean. */
  function WindowVariance(prices: seq<real>, period: int, i: int): (r: real)
    requires period >= 1 && 0 <= i && i + period <= |prices|
    ensures 0.0 <= r
  {
    QuotientNonNegative(SquaredDeviations(prices[i..i + period], Mean(prices[i..i + period])), period as real);
    SquaredDeviations(prices[i..i + period], Mean(prices[i..i + period])) / period as real
  }

  /** Distance from the middle band to either outer band: k times the standard deviation. */
  function BandOffset(prices: seq<real>, period: int, k: real, sqrt: real -> real, i: int): real
    requires period >= 1 && 0 <= i && i + period <= |prices|
  {
    k * sqrt(WindowVariance(prices, period, i))
  }

  datatype Bands = Bands(upper: seq<real>, middle: seq<real>, lower: seq<real>)

  /** `CalculateBollingerBands(prices, period, k)`. */
  function BollingerBands(prices: seq<real>, period: int, k: real, sqrt: real -> real): (b: Bands)
    requires period >= 1
    ensures b.middle == SMA(prices, period)
    ensures |b.upper| == |b.middle| == |b.lower|
    ensures forall i :: 0 <= i < |b.middle| ==> b.upper[i] - b.middle[i] == b.middle[i] - b.lower[i]
  {
    if |prices| < period then Bands([], [], [])
    else
      var sma := SMA(prices, period);
      Bands(seq(|sma|, i requires 0 <= i < |sma| => sma[i] + BandOffset(prices, period, k, sqrt, i)),
            sma,
            seq(|sma|, i requires 0 <= i < |sma| => sma[i] - BandOffset(prices, period, k, sqrt, i)))
  }

  /** The body of the band loop: k standard deviations of the window behind SMA value i. */
  method StandardDeviationOffset(prices: seq<real>, period: int, k: real, sqrt: real -> real, i: int, mean: real)
    returns (offset: real)
    requires period >= 1 && 0 <= i && i + period <= |prices| && mean == Mean(prices[i..i + period])
    ensures offset == BandOffset(prices, period, k, sqrt, i)
  {
    var startIdx := i + period - 1;
    assert startIdx - period + 1 == i && startIdx + 1 == i + period;
    var sum := WindowSquaredDeviations(prices, startIdx - period + 1, startIdx + 1, mean);
    var variance := sum / period as real;
    assert variance == WindowVariance(prices, period, i);
    offset := k * sqrt(variance);
  }

  method CalculateBollingerBands(prices: seq<real>, period: int, k: real, sqrt: real -> real)
    returns (upper: seq<real>, middle: seq<real>, lower: seq<real>)
    requires period >= 1
    ensures Bands(upper, middle, lower) == BollingerBands(prices, period, k, sqrt)
  {
    if |prices| < period {
      return [], [], [];
    }
    var sma := CalculateSMA(prices, period);
    if sma == [] {
      return [], [], [];
    }
    upper, lower := OuterBands(prices, period, k, sqrt, sma);
    middle := sma;
  }

  /** The band loop of `CalculateBollingerBands`: each SMA value shifted up and down by its offset. */
  method OuterBands(prices: seq<real>, period: int, k: real, sqrt: real -> real, sma: seq<real>)
    returns (upper: seq<real>, lower: seq<real>)
    requires period >= 1 && |prices| >= period && sma == SMA(prices, period)
    ensures upper == BollingerBands(prices, period, k, sqrt).upper
    ensures lower == BollingerBands(prices, period, k, sqrt).lower
  {
    ghost var bands := BollingerBands(prices, period, k, sqrt);
    upper, lower := [], [];
    var i := 0;
    while i < |sma|
      invariant 0 <= i <= |sma| && |upper| == i && |lower| == i
      invariant forall j :: 0 <= j < i ==> upper[j] == bands.upper[j]
      invariant forall j :: 0 <= j < i ==> lower[j] == bands.lower[j]
    {
      var offset := StandardDeviationOffset(prices, period, k, sqrt, i, sma[i]);
      assert bands.upper[i] == sma[i] + offset && bands.lower[i] == sma[i] - offset;
      upper := upper + [sma[i] + offset];
      lower := lower + [sma[i] - offset];
      i := i + 1;
    }
  }

  /**
   * With a non-negative width factor the bands are ordered, and their distance
   * apart is twice k standard deviations.
   */
  lemma BandsOrdered(prices: seq<real>, period: int, k: real, sqrt: real -> real)
    requires period >= 1 && 0.0 <= k && NonNegativeRoot(sqrt)
    ensures var b := BollingerBands(prices, period, k, sqrt);
      forall i :: 0 <= i < |b.middle| ==>
        b.lower[i] <= b.middle[i] <= b.upper[i] &&
        b.upper[i] - b.lower[i] == 2.0 * k * sqrt(WindowVariance(prices, period, i))
  {
    var b := BollingerBands(prices, period, k, sqrt);
    forall i | 0 <= i < |b.middle|
      ensures b.lower[i] <= b.middle[i] <= b.upper[i]
    {
      ProductNonNegative(k, sqrt(WindowVariance(prices, period, i)));
    }
  }

  // ---------------------------------------------------------------- MACD

  datatype MACDLines = MACDLines(macd: seq<real>, signal: seq<real>, histogram: seq<real>)

  /** Element-wise difference of two series of equal length. */
  function Difference(a: seq<real>, b: seq<real>): (d: seq<real>)
    requires |a| == |b|
    ensures |d| == |a| && forall i :: 0 <= i < |d| ==> d[i] + b[i] == a[i]
  {
    seq(|a|, i requires 0 <= i < |a| => a[i] - b[i])
  }

  /** Fast EMA minus slow EMA, with the fast series' leading slow - fast values dropped. */
  function MACDLine(prices: seq<real>, fast: int, slow: int): (r: seq<real>)
    requires 1 <= fast <= slow <= |prices|
    ensures |r| == |prices| - slow + 1
  {
    Difference(EMA(prices, fast)[slow - fast..], EMA(prices, slow))
  }

  /**
   * `CalculateMACD`: nothing when there are fewer prices than either period;
   * otherwise the MACD line trimmed to the length of its signal line
   * (the EMA of the MACD line), the signal line, and their difference.
   */
  function MACD(prices: seq<real>, fast: int, slow: int, signalPeriod: int): (r: MACDLines)
    requires |prices| >= slow ==> 1 <= slow && (fast <= |prices| ==> 1 <= fast <= slow && 1 <= signalPeriod)
    ensures |r.macd| == |r.signal| == |r.histogram|
    ensures |prices| < slow || |prices| < fast || |prices| < slow + signalPeriod - 1 ==> |r.macd| == 0
    ensures |prices| >= slow && |prices| >= fast && |prices| >= slow + signalPeriod - 1 ==>
              |r.macd| == |prices| - slow - signalPeriod + 2
    ensures forall i :: 0 <= i < |r.histogram| ==> r.histogram[i] == r.macd[i] - r.signal[i]
  {
    if |prices| < slow || |prices| < fast then MACDLines([], [], [])
    else
      var line := MACDLine(prices, fast, slow);
      var signal := EMA(line, signalPeriod);
      var aligned := line[|line| - |signal|..];
      MACDLines(aligned, signal, Difference(aligned, signal))
  }

  /** The element-wise subtraction loop that both MACD stages run. */
  method Subtract(a: seq<real>, b: seq<real>) returns (d: seq<real>)
    requires |a| == |b|
    ensures d == Difference(a, b)
  {
    var out := new real[|a|];
    var i := 0;
    while i < |a|
      invariant 0 <= i <= |a|
      invariant forall j :: 0 <= j < i ==> out[j] == a[j] - b[j]
    {
      out[i] := a[i] - b[i];
      i := i + 1;
    }
    d := out[..];
  }

  method CalculateMACD(prices: seq<real>, fast: int, slow: int, signalPeriod: int)
    returns (macd: seq<real>, signal: seq<real>, histogram: seq<real>)
    requires |prices| >= slow ==> 1 <= slow && (fast <= |prices| ==> 1 <= fast <= slow && 1 <= signalPeriod)
    ensures MACDLines(macd, signal, histogram) == MACD(prices, fast, slow, signalPeriod)
  {
    if |prices| < slow {
      return [], [], [];
    }
    var fastEMA := CalculateEMA(prices, fast);
    var slowEMA := CalculateEMA(prices, slow);
    if |fastEMA| == 0 || |slowEMA| == 0 {
      return [], [], [];
    }
    var alignedLen := |slowEMA|;
    var fastAligned := fastEMA[|fastEMA| - alignedLen..];
    var line := Subtract(fastAligned, slowEMA);
    assert fastAligned == fastEMA[slow - fast..];
    signal := CalculateEMA(line, signalPeriod);
    macd := line[|line| - |signal|..];
    histogram := Subtract(macd, signal);
  }

  /**
   * Once there are enough prices for a signal line, the MACD line returned is
   * the full fast-minus-slow line with its first signalPeriod - 1 values
   * dropped, so that value i lines up with signal value i.
   */
  lemma MACDAlignment(prices: seq<real>, fast: int, slow: int, signalPeriod: int)
    requires 1 <= fast <= slow && 1 <= signalPeriod && slow + signalPeriod - 1 <= |prices|
    ensures MACD(prices, fast, slow, signalPeriod).macd == MACDLine(prices, fast, slow)[signalPeriod - 1..]
  {
    var line := MACDLine(prices, fast, slow);
    assert |EMA(line, signalPeriod)| == |line| - signalPeriod + 1;
  }

  /**
   * With fewer prices than the fast period, MACD is empty whatever the signal
   * period: the fast EMA is empty, so the signal line is never computed.
   */
  lemma MACDShortOfFast(prices: seq<real>, fast: int, slow: int, signalPeriod: int)
    requires 1 <= slow <= |prices| < fast
    ensures MACD(prices, fast, slow, signalPeriod) == MACDLines([], [], [])
  {
  }

  /** Each value of the full MACD line is the fast EMA minus the slow EMA on the same price bar. */
  lemma MACDLineAt(prices: seq<real>, fast: int, slow: int, i: int)
    requires 1 <= fast <= slow <= |prices| && 0 <= i <= |prices| - slow
    ensures MACDLine(prices, fast, slow)[i] == EMAAt(prices, fast, i + slow - fast) - EMAAt(prices, slow, i)
  {
    var fastEMA := EMA(prices, fast);
    var slowEMA := EMA(prices, slow);
    assert |fastEMA| == |prices| - fast + 1;
    assert fastEMA[slow - fast..][i] == fastEMA[i + slow - fast] == EMAAt(prices, fast, i + slow - fast);
    assert slowEMA[i] == EMAAt(prices, slow, i);
  }
}
