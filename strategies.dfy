/**
 * The three trading strategies (strategies/sma_strategy.go,
 * strategies/rsi_strategy.go, strategies/mean_reversion_strategy.go). Each
 * reads the closing prices of the bars and the current price and either
 * emits a buy or sell signal with a strength in (0, 1], or none.
 *
 * A strategy holds only its parameters and `Analyze` changes nothing, so the
 * strategies are a datatype and their analyses are functions.
 */
module Strategies {
  import opened Numbers
  import opened Wrappers
  import opened Trades
  import opened Indicators

  /** The last value of a series. */
  function Last(s: seq<real>): real
    requires |s| >= 1
  {
    s[|s| - 1]
  }

  /** The value before the last one. */
  function Previous(s: seq<real>): real
    requires |s| >= 2
  {
    s[|s| - 2]
  }

  /** Keeps a value inside [lo, hi]: first capped at hi, then raised to lo, as the RSI strategy does. */
  function Clamp(x: real, lo: real, hi: real): (r: real)
    requires lo <= hi
    ensures lo <= r <= hi
    ensures lo <= x <= hi ==> r == x
  {
    var capped := if x > hi then hi else x;
    if capped < lo then lo else capped
  }

  // ---------------------------------------------------------------- SMA crossover

  /** The short average was at or below the long one and is now above it. */
  predicate CrossedAbove(short: seq<real>, long: seq<real>)
  {
    |short| >= 2 && |long| >= 2 && Previous(short) <= Previous(long) && Last(short) > Last(long)
  }

  /** The short average was at or above the long one and is now below it. */
  predicate CrossedBelow(short: seq<real>, long: seq<real>)
  {
    |short| >= 2 && |long| >= 2 && Previous(short) >= Previous(long) && Last(short) < Last(long)
  }

  /**
   * The strength of a crossover: 0.7 plus 300 times the gap between the two
   * latest averages relative to the long one, capped at 1.
   */
  function CrossoverStrength(short: real, long: real): (r: real)
    requires long != 0.0
    ensures 0.7 <= r <= 1.0
  {
    Min(1.0, 0.7 + Abs((short - long) / long) * 100.0 * 3.0)
  }

  /** A crossover, where the strength divides by the latest long average, never finds that average at zero. */
  predicate CrossoverDefined(shortPeriod: int, longPeriod: int, closes: seq<real>)
    requires shortPeriod >= 1 && longPeriod >= 1
  {
    var short := SMA(closes, shortPeriod);
    var long := SMA(closes, longPeriod);
    CrossedAbove(short, long) || CrossedBelow(short, long) ==> Last(long) != 0.0
  }

  /** `SMAStrategy.Analyze` on the closing prices. */
  function SMAAnalyze(shortPeriod: int, longPeriod: int, closes: seq<real>, currentPrice: real): (r: Option<TradingSignal>)
    requires shortPeriod >= 1 && longPeriod >= 1
    requires CrossoverDefined(shortPeriod, longPeriod, closes)
    ensures r.Some? && r.value.side == Buy <==> CrossedAbove(SMA(closes, shortPeriod), SMA(closes, longPeriod))
    ensures r.Some? && r.value.side == Sell <==> CrossedBelow(SMA(closes, shortPeriod), SMA(closes, longPeriod))
    ensures r.Some? ==> 0.7 <= r.value.strength <= 1.0 && r.value.price == currentPrice
  {
    if |closes| < longPeriod then None
    else
      var short := SMA(closes, shortPeriod);
      var long := SMA(closes, longPeriod);
      if |short| < 2 || |long| < 2 then None
      else if Previous(short) <= Previous(long) && Last(short) > Last(long) then
        Some(TradingSignal(Buy, CrossoverStrength(Last(short), Last(long)), currentPrice))
      else if Previous(short) >= Previous(long) && Last(short) < Last(long) then
        Some(TradingSignal(Sell, CrossoverStrength(Last(short), Last(long)), currentPrice))
      else None
  }

  /**
   * A crossover reaches full strength exactly when the two averages are at
   * least 0.1% of the long average apart.
   */
  lemma CrossoverFullStrength(short: real, long: real)
    requires long != 0.0
    ensures CrossoverStrength(short, long) == 1.0 <==> Abs((short - long) / long) >= 0.001
  {
  }

  /** A flat market never produces a crossover signal. */
  lemma SMAConstantGivesNone(shortPeriod: int, longPeriod: int, closes: seq<real>, currentPrice: real, c: real)
    requires shortPeriod >= 1 && longPeriod >= 1
    requires forall i :: 0 <= i < |closes| ==> closes[i] == c
    ensures CrossoverDefined(shortPeriod, longPeriod, closes)
    ensures SMAAnalyze(shortPeriod, longPeriod, closes, currentPrice) == None
  {
    SMAOfConstant(closes, shortPeriod, c);
    SMAOfConstant(closes, longPeriod, c);
  }

  // ---------------------------------------------------------------- RSI momentum

  /** The RSI fell from above the oversold level to at or below it. */
  predicate CrossedIntoOversold(prev: real, current: real, oversoldLevel: real)
  {
    prev > oversoldLevel && current <= oversoldLevel
  }

  /** The RSI rose from below the overbought level to at or above it. */
  predicate CrossedIntoOverbought(prev: real, current: real, overboughtLevel: real)
  {
    prev < overboughtLevel && current >= overboughtLevel
  }

  /**
   * The signal for the two latest RSI values. A crossing of either level takes
   * precedence over the fixed extremes 20 and 80.
   */
  function RSISignal(prev: real, current: real, oversoldLevel: real, overboughtLevel: real, currentPrice: real)
    : (r: Option<TradingSignal>)
    requires oversoldLevel != 0.0 && overboughtLevel != 100.0
    ensures CrossedIntoOversold(prev, current, oversoldLevel) ==>
              r.Some? && r.value.side == Buy && 0.6 <= r.value.strength <= 1.0
    ensures !CrossedIntoOversold(prev, current, oversoldLevel) && CrossedIntoOverbought(prev, current, overboughtLevel) ==>
              r.Some? && r.value.side == Sell && 0.6 <= r.value.strength <= 1.0
    ensures !CrossedIntoOversold(prev, current, oversoldLevel) && !CrossedIntoOverbought(prev, current, overboughtLevel) ==>
              r == (if current < 20.0 then Some(TradingSignal(Buy, 0.9, currentPrice))
                    else if current > 80.0 then Some(TradingSignal(Sell, 0.9, currentPrice))
                    else None)
    ensures r.Some? ==> r.value.price == currentPrice
  {
    if CrossedIntoOversold(prev, current, oversoldLevel) then
      Some(TradingSignal(Buy, Clamp((oversoldLevel - current) / oversoldLevel, 0.6, 1.0), currentPrice))
    else if CrossedIntoOverbought(prev, current, overboughtLevel) then
      Some(TradingSignal(Sell, Clamp((current - overboughtLevel) / (100.0 - overboughtLevel), 0.6, 1.0), currentPrice))
    else if current < 20.0 then Some(TradingSignal(Buy, 0.9, currentPrice))
    else if current > 80.0 then Some(TradingSignal(Sell, 0.9, currentPrice))
    else None
  }

  /**
   * With the oversold level below the overbought level, one bar cannot cross
   * into both zones, so the priority of the oversold crossing never hides an
   * overbought one.
   */
  lemma CrossingsExclusive(prev: real, current: real, oversoldLevel: real, overboughtLevel: real)
    requires oversoldLevel < overboughtLevel
    ensures !(CrossedIntoOversold(prev, current, oversoldLevel) && CrossedIntoOverbought(prev, current, overboughtLevel))
  {
  }

  /** `RSIStrategy.Analyze` on the closing prices. */
  function RSIAnalyze(period: int, oversoldLevel: real, overboughtLevel: real, closes: seq<real>, currentPrice: real)
    : (r: Option<TradingSignal>)
    requires period >= 1 && oversoldLevel != 0.0 && overboughtLevel != 100.0
    ensures |closes| < period + 2 ==> r == None
    ensures |closes| >= period + 2 ==>
              r == RSISignal(Previous(RSI(closes, period)), Last(RSI(closes, period)),
                             oversoldLevel, overboughtLevel, currentPrice)
  {
    if |closes| < period + 1 then None
    else
      var rsi := RSI(closes, period);
      if |rsi| < 2 then None
      else RSISignal(Previous(rsi), Last(rsi), oversoldLevel, overboughtLevel, currentPrice)
  }

  /**
   * In a market that never falls the RSI stays at 100, so with levels inside
   * the RSI range the strategy always reports an extreme overbought sell.
   */
  lemma RSIRisingMarketSells(period: int, oversoldLevel: real, overboughtLevel: real, closes: seq<real>, currentPrice: real)
    requires period >= 1 && 0.0 < oversoldLevel < 100.0 && overboughtLevel < 100.0
    requires |closes| >= period + 2
    requires forall i :: 0 <= i < |closes| - 1 ==> closes[i] <= closes[i + 1]
    ensures RSIAnalyze(period, oversoldLevel, overboughtLevel, closes, currentPrice) ==
              Some(TradingSignal(Sell, 0.9, currentPrice))
  {
    RSIOfRisingSeries(closes, period);
  }

  /**
   * In a market that falls at every bar the RSI stays at 0, so with levels
   * inside the RSI range the strategy always reports an extreme oversold buy.
   */
  lemma RSIFallingMarketBuys(period: int, oversoldLevel: real, overboughtLevel: real, closes: seq<real>, currentPrice: real)
    requires period >= 1 && 0.0 < oversoldLevel && 0.0 < overboughtLevel && overboughtLevel != 100.0
    requires |closes| >= period + 2
    requires forall i :: 0 <= i < |closes| - 1 ==> closes[i] > closes[i + 1]
    ensures RSIAnalyze(period, oversoldLevel, overboughtLevel, closes, currentPrice) ==
              Some(TradingSignal(Buy, 0.9, currentPrice))
  {
    RSIOfFallingSeries(closes, period);
  }

  // ---------------------------------------------------------------- Mean reversion

  /** Sum of the squared relative changes between neighbouring prices. */
  function SquaredReturns(prices: seq<real>): (r: real)
    requires forall i :: 0 <= i < |prices| - 1 ==> prices[i] != 0.0
    ensures 0.0 <= r
  {
    if |prices| < 2 then 0.0
    else
      var n := |prices|;
      var change := (prices[n - 1] - prices[n - 2]) / prices[n - 2];
      SquaredReturns(prices[..n - 1]) + change * change
  }

  lemma SquaredReturnsSnoc(prices: seq<real>, i: int)
    requires 1 <= i < |prices|
    requires forall j :: 0 <= j < |prices| - 1 ==> prices[j] != 0.0
    ensures var change := (prices[i] - prices[i - 1]) / prices[i - 1];
      SquaredReturns(prices[..i + 1]) == SquaredReturns(prices[..i]) + change * change
  {
    assert prices[..i + 1][..i] == prices[..i];
  }

  /** `calculateVolatility`: the root mean square of the relative price changes. */
  function Volatility(prices: seq<real>, sqrt: real -> real): (r: real)
    requires forall i :: 0 <= i < |prices| - 1 ==> prices[i] != 0.0
    ensures |prices| < 2 ==> r == 0.0
    ensures NonNegativeRoot(sqrt) ==> 0.0 <= r
  {
    if |prices| < 2 then 0.0
    else
      QuotientNonNegative(SquaredReturns(prices), (|prices| - 1) as real);
      sqrt(SquaredReturns(prices) / (|prices| - 1) as real)
  }

  method CalculateVolatility(prices: seq<real>, sqrt: real -> real) returns (volatility: real)
    requires forall i :: 0 <= i < |prices| - 1 ==> prices[i] != 0.0
    ensures volatility == Volatility(prices, sqrt)
  {
    if |prices| < 2 {
      return 0.0;
    }
    var totalVariance := 0.0;
    var i := 1;
    while i < |prices|
      invariant 1 <= i <= |prices|
      invariant totalVariance == SquaredReturns(prices[..i])
    {
      SquaredReturnsSnoc(prices, i);
      var change := (prices[i] - prices[i - 1]) / prices[i - 1];
      totalVariance := totalVariance + change * change;
      i := i + 1;
    }
    assert prices[..|prices|] == prices;
    var variance := totalVariance / (|prices| - 1) as real;
    volatility := sqrt(variance);
  }

  /**
   * With a true square root, the volatility is never negative and is above the
   * 5% damping threshold exactly when the mean squared change is above 0.25%.
   */
  lemma VolatilityThreshold(prices: seq<real>, sqrt: real -> real)
    requires |prices| >= 2 && IsSqrt(sqrt)
    requires forall i :: 0 <= i < |prices| - 1 ==> prices[i] != 0.0
    ensures 0.0 <= Volatility(prices, sqrt)
    ensures Volatility(prices, sqrt) > 0.05 <==> SquaredReturns(prices) / (|prices| - 1) as real > 0.0025
  {
    var variance := SquaredReturns(prices) / (|prices| - 1) as real;
    QuotientNonNegative(SquaredReturns(prices), (|prices| - 1) as real);
    var v := sqrt(variance);
    assert 0.0 <= v && v * v == variance;
    if v > 0.05 {
      assert v * v > 0.05 * 0.05 by { ProductMonotone(v, 0.05); }
    } else {
      assert v * v <= 0.05 * 0.05 by { ProductMonotone(0.05, v); }
    }
  }

  lemma ProductMonotone(a: real, b: real)
    requires 0.0 <= b <= a
    ensures b * b <= a * a
    ensures b < a ==> b * b < a * a
  {
    assert a * a - b * b == (a - b) * (a + b);
    if b < a {
      assert 0.0 < (a - b) * (a + b) by { PositiveProduct(a - b, a + b); }
    }
  }

  lemma PositiveProduct(x: real, y: real)
    requires 0.0 < x && 0.0 < y
    ensures 0.0 < x * y
  {
  }

  /** The prices the volatility check reads: the last three closes. */
  function RecentPrices(closes: seq<real>): seq<real>
    requires |closes| >= 3
  {
    closes[|closes| - 3..]
  }

  /** Whether the divisions of the volatility check are defined. */
  predicate VolatilityDefined(closes: seq<real>)
  {
    |closes| >= 3 ==> closes[|closes| - 3] != 0.0 && closes[|closes| - 2] != 0.0
  }

  /** The last three closes move by more than 5%: `calculateVolatility` of them exceeds 0.05. */
  predicate Volatile(closes: seq<real>, sqrt: real -> real)
    requires VolatilityDefined(closes)
  {
    |closes| >= 3 && Volatility(RecentPrices(closes), sqrt) > 0.05
  }

  /**
   * The band test before damping: a breach of either band gives a signal of
   * strength 0.6 plus twice the penetration as a fraction of the band width,
   * capped at 1; inside the bands, a price beyond 0.7 band widths from the
   * middle gives a weak signal.
   */
  function BandSignal(upper: real, middle: real, lower: real, currentPrice: real): (r: Option<(Side, real)>)
    requires upper - lower != 0.0
    // Below the lower band: buy; above the upper band (and not below the lower): sell.
    ensures currentPrice < lower ==> r.Some? && r.value.0 == Buy
    ensures lower <= currentPrice && upper < currentPrice ==> r.Some? && r.value.0 == Sell
    // A breach of well-ordered bands gives a strength between 0.6 and 1.
    ensures lower < upper && (currentPrice < lower || upper < currentPrice) ==> 0.6 <= r.value.1 <= 1.0
    // Between the bands, a signal only beyond 0.7 band widths from the middle, on the side of the move.
    ensures lower <= currentPrice <= upper ==>
              (r.Some? <==> currentPrice < middle - (upper - lower) * 0.7 || currentPrice > middle + (upper - lower) * 0.7)
    ensures lower <= currentPrice <= upper && r.Some? ==>
              (r.value.0 == Buy <==> currentPrice < middle - (upper - lower) * 0.7)
  {
    var bandWidth := upper - lower;
    if currentPrice < lower then
      Some((Buy, Min(1.0, 0.6 + (lower - currentPrice) / bandWidth * 2.0)))
    else if currentPrice > upper then
      Some((Sell, Min(1.0, 0.6 + (currentPrice - upper) / bandWidth * 2.0)))
    else
      var upperThreshold := middle + bandWidth * 0.7;
      var lowerThreshold := middle - bandWidth * 0.7;
      if currentPrice < lowerThreshold then
        Some((Buy, 0.3 + (lowerThreshold - currentPrice) / bandWidth * 0.5))
      else if currentPrice > upperThreshold then
        Some((Sell, 0.3 + (currentPrice - upperThreshold) / bandWidth * 0.5))
      else None
  }

  /** The latest Bollinger bands of the closes, when there are any. */
  function LatestBands(closes: seq<real>, period: int, k: real, sqrt: real -> real): (r: Option<(real, real, real)>)
    requires period >= 1
    ensures r.Some? <==> |closes| >= period
    ensures r.Some? ==> r.value.0 - r.value.1 == r.value.1 - r.value.2
  {
    if |closes| < period then None
    else
      var b := BollingerBands(closes, period, k, sqrt);
      if |b.upper| == 0 || |b.middle| == 0 || |b.lower| == 0 then None
      else Some((Last(b.upper), Last(b.middle), Last(b.lower)))
  }

  /** `MeanReversionStrategy.Analyze` on the closing prices, with `sqrt` for `Pow(0.5)`. */
  function ReversionAnalyze(period: int, k: real, closes: seq<real>, currentPrice: real, sqrt: real -> real)
    : (r: Option<TradingSignal>)
    requires period >= 1 && VolatilityDefined(closes)
    ensures |closes| < period ==> r == None
    ensures r.Some? ==> r.value.price == currentPrice
  {
    match LatestBands(closes, period, k, sqrt)
    case None => None
    case Some((upper, middle, lower)) =>
      if upper - lower == 0.0 then None
      else
        match BandSignal(upper, middle, lower, currentPrice)
        case None => None
        case Some((side, strength)) =>
          var damped := if Volatile(closes, sqrt) then strength * 0.7 else strength;
          Some(TradingSignal(side, damped, currentPrice))
  }

  /**
   * The weak in-band signals can never fire: when the bands are symmetric
   * about the middle, a price between them is never beyond 0.7 band widths
   * from the middle, and when the upper band lies below the lower band every
   * price breaches one of them. Only breaches give signals.
   */
  lemma InsideBandsGivesNone(upper: real, middle: real, lower: real, currentPrice: real)
    requires upper - lower != 0.0 && upper - middle == middle - lower
    ensures BandSignal(upper, middle, lower, currentPrice).Some? <==> currentPrice < lower || currentPrice > upper
  {
  }

  /**
   * A price below the lower band gives a buy, above the upper band a sell, and
   * otherwise nothing; a signal's strength is at least 0.42 (0.6 damped by 0.7)
   * and at most 1 when the bands are the right way round.
   */
  lemma ReversionSignals(period: int, k: real, closes: seq<real>, currentPrice: real, sqrt: real -> real)
    requires period >= 1 && VolatilityDefined(closes) && |closes| >= period
    requires 0.0 <= k && NonNegativeRoot(sqrt)
    ensures var b := BollingerBands(closes, period, k, sqrt);
      var r := ReversionAnalyze(period, k, closes, currentPrice, sqrt);
      (Last(b.upper) - Last(b.lower) == 0.0 ==> r == None) &&
      (Last(b.upper) - Last(b.lower) != 0.0 ==>
         (r.Some? && r.value.side == Buy <==> currentPrice < Last(b.lower)) &&
         (r.Some? && r.value.side == Sell <==> currentPrice > Last(b.upper)) &&
         (r.Some? ==> 0.42 <= r.value.strength <= 1.0))
  {
    var b := BollingerBands(closes, period, k, sqrt);
    BandsOrdered(closes, period, k, sqrt);
    var n := |b.middle| - 1;
    var upper, middle, lower := b.upper[n], b.middle[n], b.lower[n];
    if upper - lower != 0.0 {
      InsideBandsGivesNone(upper, middle, lower, currentPrice);
      var bandWidth := upper - lower;
      assert 0.0 < bandWidth;
      if currentPrice < lower {
        QuotientNonNegative(lower - currentPrice, bandWidth);
      } else if currentPrice > upper {
        QuotientNonNegative(currentPrice - upper, bandWidth);
      }
    }
  }

  /**
   * The damping splits the breach signals in two: in a volatile market (the
   * last three closes move by more than 5%) every signal has strength between
   * 0.42 and 0.7, and otherwise between 0.6 and 1.
   */
  lemma ReversionDamping(period: int, k: real, closes: seq<real>, currentPrice: real, sqrt: real -> real)
    requires period >= 1 && VolatilityDefined(closes) && |closes| >= period
    requires 0.0 <= k && NonNegativeRoot(sqrt)
    ensures var r := ReversionAnalyze(period, k, closes, currentPrice, sqrt);
      r.Some? ==>
        (Volatile(closes, sqrt) ==> 0.42 <= r.value.strength <= 0.7) &&
        (!Volatile(closes, sqrt) ==> 0.6 <= r.value.strength <= 1.0)
  {
    var b := BollingerBands(closes, period, k, sqrt);
    BandsOrdered(closes, period, k, sqrt);
    var n := |b.middle| - 1;
    var upper, middle, lower := b.upper[n], b.middle[n], b.lower[n];
    if upper - lower != 0.0 {
      InsideBandsGivesNone(upper, middle, lower, currentPrice);
      assert lower < upper;
    }
  }

  // ---------------------------------------------------------------- The strategy set

  /** The configured strategies, with their parameters. */
  datatype Strategy =
    | SMACrossover(shortPeriod: int, longPeriod: int)
    | RSIMomentum(period: int, oversoldLevel: real, overboughtLevel: real)
    | MeanReversion(period: int, standardDeviations: real)
  {
    /**
     * Parameters for which the source's analysis is defined: every period is at
     * least 1, and the RSI levels do not make its strength divide by zero.
     */
    predicate Valid()
    {
      match this
      case SMACrossover(shortPeriod, longPeriod) => shortPeriod >= 1 && longPeriod >= 1
      case RSIMomentum(period, oversoldLevel, overboughtLevel) =>
        period >= 1 && oversoldLevel != 0.0 && overboughtLevel != 100.0
      case MeanReversion(period, _) => period >= 1
    }

    /** The closes never make the analysis divide a decimal by zero. */
    predicate Safe(closes: seq<real>)
      requires Valid()
    {
      match this
      case SMACrossover(shortPeriod, longPeriod) => CrossoverDefined(shortPeriod, longPeriod, closes)
      case RSIMomentum(_, _, _) => true
      case MeanReversion(_, _) => VolatilityDefined(closes)
    }

    /** `Strategy.Analyze`: the signal of this strategy for the closes and the current price. */
    function Analyze(closes: seq<real>, currentPrice: real, sqrt: real -> real): (r: Option<TradingSignal>)
      requires Valid() && Safe(closes)
      ensures r.Some? ==> r.value.price == currentPrice && r.value.strength <= 1.0
    {
      match this
      case SMACrossover(shortPeriod, longPeriod) => SMAAnalyze(shortPeriod, longPeriod, closes, currentPrice)
      case RSIMomentum(period, oversoldLevel, overboughtLevel) =>
        RSIAnalyze(period, oversoldLevel, overboughtLevel, closes, currentPrice)
      case MeanReversion(period, standardDeviations) =>
        ReversionStrength(period, standardDeviations, closes, currentPrice, sqrt);
        ReversionAnalyze(period, standardDeviations, closes, currentPrice, sqrt)
    }
  }

  /**
   * No mean-reversion signal is stronger than 1, whatever the band factor and
   * the root (with reversed bands a breach can even give a negative strength).
   */
  lemma ReversionStrength(period: int, k: real, closes: seq<real>, currentPrice: real, sqrt: real -> real)
    requires period >= 1 && VolatilityDefined(closes)
    ensures var r := ReversionAnalyze(period, k, closes, currentPrice, sqrt);
      r.Some? ==> r.value.strength <= 1.0
  {
    var bands := LatestBands(closes, period, k, sqrt);
    if bands.Some? {
      var (upper, middle, lower) := bands.value;
      if upper - lower != 0.0 {
        InsideBandsGivesNone(upper, middle, lower, currentPrice);
      }
    }
  }
}
