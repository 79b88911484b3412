# Mock trading engine: a Dafny model

This project models the decision core of a paper-trading bot. The bot pulls daily bars for a watch list and runs three technical strategies over the closing prices:

- an SMA crossover;
- RSI momentum with Wilder smoothing;
- Bollinger-band mean reversion.

The bot counts the strategies' BUY/SELL signals and places at most one market order per symbol. A strict majority of at least two votes is needed. A buy is sized from the cash balance, the risk fraction and the summed signal strength; a sell closes the whole long position. A filled order is booked against the cash balance and the per-symbol position ledger. The ledger keeps a volume-weighted average cost.

Modules, one per part of the system:

| module | file | models |
|---|---|---|
| `Wrappers` | wrappers.dfy | the optional value that stands for Go's nil results |
| `Numbers` | numbers.dfy | sums, means, truncation and the other arithmetic the rest uses |
| `Trades` | trade.dfy | `models/trade.go`: trade life cycle and the cost and profit of a fill |
| `Accounts` | user.dfy | `models/user.go`: cash balance and position ledger |
| `Indicators` | indicators.dfy | `strategies/strategy.go`: SMA, EMA, RSI, Bollinger bands, MACD |
| `Strategies` | strategies.dfy | the three strategies' `Analyze` functions and `calculateVolatility` |
| `Engine` | engine.dfy | `main.go`: `processSymbol`, `makeTradeDecision`, `executeTrade`, `updateUserBalanceAndPortfolio`, `updatePortfolioValues` |

How the model is built:

- **Numbers.** Exact decimals (`decimal.Decimal`) and the few `float64` settings are `real`.
- **Square root.** The decimal square root (`Pow(0.5)`) is a function parameter `sqrt`. Lemmas that need its properties assume them as `NonNegativeRoot(sqrt)` or `IsSqrt(sqrt)`.
- **State.** Objects that the source updates in place are classes: `Trade`, `User` and `Portfolio`. Their methods are proved to follow the value functions `Fill` and `Mark` on a `Position`.
- **Indicator loops.** Each indicator loop is a method proved equal to a specification function. The properties are then proved about the functions. The RSI, Bollinger and MACD loops are split into small helper methods: `PriceChanges`, `InitialAverages`, `SmoothedRSI`, `WindowSquaredDeviations`, `StandardDeviationOffset`, `OuterBands` and `Subtract`. Together these compute exactly what the single Go function computes.
- **Database and broker.** The portfolios table is an in-memory ledger, a `seq<Portfolio>` with one row per symbol. Its read returns only rows with a non-zero quantity (`database/sqlite.go:288-291`), so every search in the model skips closed rows (`Engine.FindOpen`). Its write replaces the row with the same symbol or adds one (`database/sqlite.go:273-276`, `Engine.Upsert`). The broker's answer to an order is an input, `Execution`: filled at a price with a commission, or refused.

Where the system's own documentation describes the behaviour differently, the model follows the code:

- The SMA crossover strength is `0.7 + 300·|gap|/long`. The code multiplies by 100 and then by 3 (`strategies/sma_strategy.go:63`), so a gap of 0.1% already gives full strength.
- An RSI crossing of the oversold or overbought level takes priority over the fixed extremes 20 and 80 (`strategies/rsi_strategy.go:55-86`). The extremes apply only when there is no crossing.
- `UpdatePosition` can reverse a position. An opposite fill larger than the position flips its sign and keeps the old average cost (`models/user.go:72-78`).
- Booking a trade that is not filled returns without an error and changes nothing (`main.go:343-345`).
- `CalculateMACD` returns the MACD line trimmed to the length of the signal line (`strategies/strategy.go:197-205`).
- In the mean-reversion strategy, the weak "inside the bands" branches can never fire (`strategies/mean_reversion_strategy.go:80-99`). The bands are symmetric about the middle, and for any band factor with a non-zero width, the thresholds `middle ± 0.7·width` lie outside the bands whenever a price is inside them. Only band breaches give signals (`Strategies.InsideBandsGivesNone`).

## Model

| member | source | states |
|---|---|---|
| Trades.Trade.constructor | models/trade.go:71-85 | a new trade is pending with the given symbol, side, type, quantity, price and strategy, and a zero fill price and commission |
| Trades.Trade.MarkFilled | models/trade.go:87-94 | the status becomes filled and the fill price and commission are recorded; the side, quantity, price and symbol are constants and cannot change |
| Trades.Trade.Cancel | models/trade.go:96-99 | the status becomes cancelled, the fill price and commission stay, and no old status is refused |
| Trades.Trade.TotalCost | models/trade.go:101-111 | zero for every status other than filled |
| Trades.Trade.ProfitLoss | models/trade.go:113-122 | zero for every status other than filled |
| Trades.CostAndProfitAgree | models/trade.go:101-122 | for a filled trade: on a buy, cost plus profit is the marked value of the quantity; on a sell, proceeds minus profit is; marked at its own fill price the profit is minus the commission |
| Accounts.User.UpdateBalance | models/user.go:51-54 | the balance grows by exactly the signed amount |
| Accounts.User.CanAfford | models/user.go:56-58 | true exactly when paying the amount leaves a balance of zero or more |
| Accounts.Fill | models/user.go:60-80 | quantities add; a flat row takes the fill price as its average; a same-side fill keeps quantity × average equal to the old cost plus the fill's cost; an opposite fill keeps the average unless the row closes, when it becomes 0; the marked values are untouched |
| Accounts.Mark | models/user.go:82-92 | quantity and average are kept; the profit is quantity × (price − average); a flat row only has its profit cleared and keeps its last value; otherwise the value is quantity × price |
| Accounts.Portfolio.constructor | main.go:362-365 | a new row for a symbol has every numeric field zero |
| Accounts.Portfolio.UpdatePosition | models/user.go:60-80 | the row's new values are `Fill` of its old values |
| Accounts.Portfolio.CalculateUnrealizedPL | models/user.go:82-92 | the row's new values are `Mark` of its old values |
| Accounts.MarkIdempotent | models/user.go:82-92 | marking twice at the same price equals marking once |
| Accounts.FillKeepsZeroCostWhenFlat | models/user.go:60-80 | every fill that leaves or reaches a non-zero quantity keeps "zero quantity means zero average"; a zero fill on a flat row at a non-zero price breaks it |
| Accounts.OppositeFill | models/user.go:72-78 | an opposite fill no larger than the position never reverses it; a larger one reverses it and keeps the old average |
| Accounts.LedgerRoundTrip | models/user.go:60-80 | buy 10 at 100 then 10 at 110 gives 20 at 105; selling 20 returns the row to flat with zero average |
| Accounts.BuysGiveWeightedAverage | models/user.go:65-71 | from flat, any series of buys leaves the total quantity, and quantity × average equals the total amount paid |
| Accounts.PositiveTotal | models/user.go:65-71 | a non-empty series of buys has a positive total quantity |
| Indicators.SMA | strategies/strategy.go:39-55 | the SMA series is empty when there are fewer values than the period, and otherwise has one element per full window |
| Indicators.CalculateSMA | strategies/strategy.go:39-55 | the loop computes exactly `SMA`: element k is the mean of the window starting at k |
| Indicators.SMAOfConstant | strategies/strategy.go:39-55 | every SMA element of a constant series is that constant |
| Indicators.EMAAt | strategies/strategy.go:66-76 | EMA value j is the seed mean for j = 0 and the smoothing step from value j − 1 otherwise; non-negative prices give a non-negative value |
| Indicators.EMA | strategies/strategy.go:58-79 | the EMA series has the same length as the SMA series |
| Indicators.CalculateEMA | strategies/strategy.go:58-79 | the loop computes exactly `EMA`: the seed is the mean of the first window, and each next value is price·m + previous·(1 − m) with m = 2/(period+1) |
| Indicators.EMAAtOfConstant | strategies/strategy.go:58-79 | each EMA value of a constant series is that constant |
| Indicators.EMAOfConstant | strategies/strategy.go:58-79 | every EMA element of a constant series is that constant |
| Indicators.GainLossSplit | strategies/strategy.go:90-100 | gain and loss are non-negative, at most one is non-zero, and gain − loss is the price change |
| Indicators.Gains | strategies/strategy.go:90-100 | one non-negative gain per price change |
| Indicators.Losses | strategies/strategy.go:90-100 | one non-negative loss per price change |
| Indicators.Smooth | strategies/strategy.go:120-121 | Wilder smoothing of non-negative values stays non-negative |
| Indicators.Smoothed | strategies/strategy.go:102-130 | every smoothed average of non-negative changes is non-negative |
| Indicators.RSIValue | strategies/strategy.go:124-129 | every RSI value lies in [0, 100]; it is 100 when the average loss is 0, and 0 when only the average gain is 0 |
| Indicators.RSIValueIsGainShare | strategies/strategy.go:127-128 | with a positive average loss, RSI is 100 × gain / (gain + loss) |
| Indicators.WilderRSI | strategies/strategy.go:102-130 | one RSI value per smoothing step |
| Indicators.RSI | strategies/strategy.go:82-133 | empty with fewer than period+1 prices, otherwise length len − period; every element lies in [0, 100] |
| Indicators.PriceChanges | strategies/strategy.go:90-100 | the loop computes exactly `Gains` and `Losses` |
| Indicators.InitialAverages | strategies/strategy.go:102-112 | the first averages are the means of the first `period` gains and losses |
| Indicators.SmoothedRSI | strategies/strategy.go:114-130 | the smoothing loop computes exactly `WilderRSI` |
| Indicators.CalculateRSI | strategies/strategy.go:82-133 | the whole RSI computation equals `RSI` |
| Indicators.SmoothedOfZeros | strategies/strategy.go:102-130 | smoothing all-zero changes gives 0 at every step |
| Indicators.SmoothedOfPositives | strategies/strategy.go:102-130 | smoothing all-positive changes stays positive at every step |
| Indicators.RSIOfRisingSeries | strategies/strategy.go:82-133 | a series that never falls has RSI 100 everywhere |
| Indicators.RSIOfFallingSeries | strategies/strategy.go:82-133 | a strictly falling series has RSI 0 everywhere |
| Indicators.SquaredDeviations | strategies/strategy.go:152-158 | a sum of squared deviations is non-negative |
| Indicators.WindowSquaredDeviations | strategies/strategy.go:152-158 | the inner loop computes exactly the sum of squared deviations of the window from its mean |
| Indicators.WindowVariance | strategies/strategy.go:152-160 | the population variance of a window is non-negative |
| Indicators.BollingerBands | strategies/strategy.go:136-168 | the middle band is the SMA, the three bands have equal length, and each upper band is as far above the middle as the lower band is below it |
| Indicators.StandardDeviationOffset | strategies/strategy.go:152-161 | the per-bar work computes exactly k × sqrt(variance of the window) |
| Indicators.OuterBands | strategies/strategy.go:146-165 | the band loop yields exactly the upper and lower bands of `BollingerBands`: each SMA value plus and minus k standard deviations of its own window |
| Indicators.CalculateBollingerBands | strategies/strategy.go:136-168 | returns exactly `BollingerBands`: empty below one full window, otherwise the SMA as middle band with the outer bands around it |
| Indicators.BandsOrdered | strategies/strategy.go:160-164 | for k ≥ 0 and a non-negative root, lower ≤ middle ≤ upper at every bar |
| Indicators.Difference | strategies/strategy.go:188-191 | elementwise difference: same length, and d[i] + b[i] = a[i] |
| Indicators.MACDLine | strategies/strategy.go:183-191 | the aligned fast-minus-slow line has length len − slow + 1 |
| Indicators.MACD | strategies/strategy.go:171-206 | macd, signal and histogram have equal length: 0 with fewer prices than either period or than slow + signal − 1, otherwise len − slow − signal + 2; histogram[i] = macd[i] − signal[i] |
| Indicators.Subtract | strategies/strategy.go:188-191 | the loop computes exactly `Difference` |
| Indicators.CalculateMACD | strategies/strategy.go:171-206 | the whole MACD computation equals `MACD` |
| Indicators.MACDShortOfFast | strategies/strategy.go:176-181 | with fewer prices than the fast period, MACD is empty whatever the signal period |
| Indicators.MACDAlignment | strategies/strategy.go:194-205 | the returned macd series is the MACD line with its first signal−1 values dropped |
| Indicators.MACDLineAt | strategies/strategy.go:183-191 | MACD line element i is the fast EMA at the same bar minus the slow EMA at that bar |
| Strategies.Clamp | strategies/rsi_strategy.go:60-66 | the result lies in [lo, hi] and equals x when x already does |
| Strategies.CrossoverStrength | strategies/sma_strategy.go:62-74 | a crossover strength lies in [0.7, 1] |
| Strategies.SMAAnalyze | strategies/sma_strategy.go:32-88 | BUY exactly when the short SMA crosses above the long one, SELL exactly when it crosses below; strength in [0.7, 1]; the signal carries the current price |
| Strategies.CrossoverFullStrength | strategies/sma_strategy.go:62-74 | strength reaches 1 exactly when the averages are at least 0.1% apart |
| Strategies.SMAConstantGivesNone | strategies/sma_strategy.go:58-78 | a constant market never gives a crossover signal |
| Strategies.RSISignal | strategies/rsi_strategy.go:55-90 | a fall into oversold gives BUY with strength in [0.6, 1]; otherwise a rise into overbought gives SELL in [0.6, 1]; otherwise RSI < 20 gives BUY 0.9, RSI > 80 SELL 0.9, and anything else no signal |
| Strategies.CrossingsExclusive | strategies/rsi_strategy.go:55-67 | with oversold below overbought, no bar crosses into both zones |
| Strategies.RSIAnalyze | strategies/rsi_strategy.go:34-100 | no signal with fewer than period+2 closes; otherwise the signal for the last two RSI values |
| Strategies.RSIRisingMarketSells | strategies/rsi_strategy.go:79-86 | a market that never falls gives SELL 0.9 |
| Strategies.RSIFallingMarketBuys | strategies/rsi_strategy.go:79-82 | a market that falls at every bar gives BUY 0.9 |
| Strategies.Volatility | strategies/mean_reversion_strategy.go:124-137 | 0 for fewer than two prices; never negative when the root is never negative |
| Strategies.SquaredReturns | strategies/mean_reversion_strategy.go:129-133 | the sum of squared relative changes is non-negative |
| Strategies.CalculateVolatility | strategies/mean_reversion_strategy.go:124-137 | the loop computes exactly the root of the mean squared relative change, and 0 for fewer than two prices |
| Strategies.VolatilityThreshold | strategies/mean_reversion_strategy.go:105-110 | with a true square root the volatility is non-negative, and above 0.05 exactly when the mean squared change is above 0.0025 |
| Strategies.LatestBands | strategies/mean_reversion_strategy.go:33-48 | the latest bands exist exactly when there are at least `period` closes, and are symmetric about the middle |
| Strategies.ReversionAnalyze | strategies/mean_reversion_strategy.go:32-121 | no signal with fewer than `period` closes; a signal carries the current price |
| Strategies.BandSignal | strategies/mean_reversion_strategy.go:56-100 | below the lower band BUY, above the upper band SELL, with strength in [0.6, 1] for ordered bands; between the bands a signal only beyond 0.7 band widths from the middle, BUY on the low side |
| Strategies.InsideBandsGivesNone | strategies/mean_reversion_strategy.go:80-99 | with symmetric bands of non-zero width, the band test signals exactly when the price breaches a band; the weak branches never fire |
| Strategies.ReversionSignals | strategies/mean_reversion_strategy.go:51-111 | zero band width gives no signal; otherwise BUY exactly below the lower band and SELL exactly above the upper one, with strength in [0.42, 1] |
| Strategies.ReversionDamping | strategies/mean_reversion_strategy.go:60-111 | for k ≥ 0 and a non-negative root, a signal in a volatile market (last three closes above 0.05 volatility) has strength in [0.42, 0.7], and otherwise in [0.6, 1] |
| Strategies.ReversionStrength | strategies/mean_reversion_strategy.go:60-111 | no mean-reversion signal is stronger than 1, whatever the band factor |
| Strategies.Strategy.Analyze | main.go:235-242 | every strategy's signal carries the current price and has strength at most 1 |
| Engine.Count | main.go:261-272 | buy votes plus sell votes is the number of signals |
| Engine.CountAppend | main.go:261-272 | the tally of two batches is the sum of their tallies |
| Engine.CountVotes | main.go:261-272 | the counting loop computes exactly `Count` |
| Engine.Decide | main.go:283-309 | BUY exactly on a buy majority of at least two, from no position, with a positive affordable whole quantity; SELL exactly on a sell majority of at least two with a long position, for the whole position; orders carry the current price |
| Engine.NoQuorumNoTrade | main.go:287-309 | a single signal or an even split never trades |
| Engine.SizeBounds | main.go:283-293 | the buy size at a positive price, when positive, is at least one whole unit, and its notional is at most the maximum position value and at most the balance times the risk fraction times the summed strength; together with `Decide`'s guarantee that a buy is for exactly this size and is affordable, this bounds every buy |
| Engine.BuyQuantity | main.go:290-293 | the buy size is a whole number of units |
| Engine.TruncatedUnits | main.go:292-293 | whole units bought with an amount at a price: at least one when positive, and never more than the amount's worth |
| Engine.SellClosesPosition | main.go:299-306 | a sell decision, once filled, returns the row to zero quantity and zero average |
| Engine.BuyOpensPosition | main.go:288-296 | a buy decision is taken only when the symbol has no open row, and once filled the fresh row holds exactly the ordered quantity at the fill price with zero value and profit |
| Engine.Signed | main.go:381-384 | a sell moves the position down by its quantity, a buy up |
| Engine.FindSymbol | database/sqlite.go:273-276 | the index of the row the write replaces: the first row for the symbol, or none when no row has it |
| Engine.Upsert | database/sqlite.go:273-276 | the written row takes the place of the symbol's row, or is added at the end; every other row is kept, and one row per symbol stays one row per symbol |
| Engine.FindOpen | database/sqlite.go:288-291 | the index of the first row for the symbol with a non-zero quantity, or none when no such row exists |
| Engine.HeldQuantity | main.go:274-281 | the position the decision sees: none exactly when the symbol has no open row, otherwise a non-zero quantity |
| Engine.FindRow | main.go:373-378 | the search loop returns the row `FindOpen` designates, or null |
| Engine.PostFill | main.go:361-392 | the symbol's open row takes the signed fill; without one, a fresh row takes it and replaces the closed row or is added; no other row changes |
| Engine.MakeTradeDecision | main.go:257-310 | a trade is created exactly when `Decide` gives an order; it is that order, a fresh pending market trade for "multi_strategy" |
| Engine.UpdateUserBalanceAndPortfolio | main.go:342-394 | a non-filled trade changes nothing; a filled buy lowers the balance by its total cost and a sell raises it; the symbol's open row takes the signed fill, or a fresh row (zero value and profit) takes it and replaces a closed row or is added; every other row is unchanged |
| Engine.RevalueIdempotent | main.go:396-409 | revaluing at the same prices twice equals revaluing once |
| Engine.UpdatePortfolioValues | main.go:396-409 | every open row whose symbol has a price is marked to it; closed rows, which the read does not return, and rows without a price are unchanged |
| Engine.CollectSignals | main.go:235-242 | at most one signal per strategy, each at the current price with strength at most 1 |
| Engine.StrengthBounded | main.go:261-272 | the summed strength is at most the number of signals |
| Engine.GatherSignals | main.go:235-242 | the strategy loop computes exactly `CollectSignals` |
| Engine.ExecuteTrade | main.go:312-340 | a refused order is rejected, keeps its fill price and commission, and nothing else moves; a filled one is marked filled and booked |
| Engine.TradeOnSignals | main.go:245-252 | with no signal or no decision nothing happens; otherwise the decided order is placed and executed |
| Engine.ProcessSymbol | main.go:220-255 | fewer than 50 bars, no signal or no decision leave everything unchanged; otherwise the decided order is executed and booked |

## Left out

- Market data, the broker and the clock are left out. Bars, prices and the broker's fill or refusal are inputs. The mock broker's slippage, random rejection and delay are not modelled, and neither are market-hours checks or the trading loop.
- Persistence is left out. Every database call is assumed to succeed. The portfolio rows that a cycle reads once and the rows `updateUserBalanceAndPortfolio` reads again are the same objects here, so a booking is visible to the rest of the cycle; in the source the cycle's own list keeps its stale copies.
- Configuration loading is left out, together with its checks on the balance and the risk fraction (`config/config.go:74-88`). No proof relies on them.
- Concurrency, logging and the portfolio summary printout are left out.
- Decimal rounding is not modelled: division, `Truncate(0)` and `Pow(0.5)` are exact. Conversions to and from `float64` are not modelled either, nor NaN and infinities.
- `ExtractPrices` is reduced to the closes sequence. Symbols in signals, strategy names, identifiers, user ids, order ids and timestamps are not modelled.
- Strategies.SMAAnalyze: requires that a crossover never finds the latest long SMA at zero, since the strength divides by it (`strategies/sma_strategy.go:62,70`). The source's decimal division panics there. Every other input is accepted. The mock market's closes are always positive (`alpaca/client.go:157-160`), so the engine never meets this case.
- Strategies.Strategy.Valid: the oversold level must not be 0 and the overbought level must not be 100, whatever the RSI values. The source divides by these levels only on a crossing that ends exactly at the level (`strategies/rsi_strategy.go:55-59, 67-71`), where the float result is 0/0, a NaN strength that the clamps let through. The engine configures the levels as 30 and 70 (`main.go:128`), so no reachable behaviour is lost.
- Strategies.ReversionAnalyze: requires the two older of the last three closes to be non-zero (the source's decimal division panics otherwise). This is required even when no band signal is reached.
- Indicators.MACD: requires a positive slow period once there are at least `slow` prices. Once there are at least `fast` prices as well, it also requires 1 ≤ fast ≤ slow and a positive signal period. The source panics when one of these fails: a zero or negative period divides by zero or reads a negative index, and fast > slow slices out of range. With fewer prices than the fast period, the source and the model both return nothing, whatever the signal period (`Indicators.MACDShortOfFast`).
- Every indicator requires a period of at least 1. With a period of 0 every indicator panics (a division by zero or the index `ema[-1]`, `strategies/strategy.go:51, 71, 111, 160`), except the RSI of an empty price list, which returns nothing before any division (`strategies/strategy.go:83-85`). Negative periods make the EMA and RSI panic too. With a negative period the SMA and the Bollinger bands do not panic: they return series of zeros. The requires excludes those inputs as well. The engine only uses the periods 20 and 50, 14, and 20 (`main.go:124-132`).
- Engine.Decide: requires a non-zero price only on the path that divides by it (a buy vote from no position). The source panics there.
- Strategies.ReversionStrength: proves only strength ≤ 1. With a negative band factor the bands are reversed, and a breach can give a negative strength.
