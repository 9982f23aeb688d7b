# simple-signal: a verified model of the indicator library and the signal engine

simple-signal turns a history of OHLC candles into a rule-based trade signal.
This project models the part of the program that computes that signal, in Dafny:

- **`types.dfy`, module `Types`.** The record shapes of `src/lib/types.ts`:
  - a candle;
  - the three MACD series;
  - the indicator summary;
  - the trade signal, whose reason strings become a datatype of tags.

  A series is `seq<Option<real>>`, with `None` where the source has `null`.
- **`indicators.dfy`, module `Indicators`.** The indicator library of
  `src/lib/indicators.ts`: SMA, EMA, RSI with Wilder's smoothing, MACD, ATR and
  the two crossover tests. Each indicator is an imperative method with the
  source's loops. Each method is proved equal to a pointwise specification, for
  example `EmaSeries` built from `EmaAt` and `EmaValue`. Lemmas then state what
  that specification promises:
  - where values are present;
  - the seed and the recurrence;
  - bounds (RSI within [0, 100], ATR never negative);
  - the value on a constant series;
  - the lag of EMA behind a straight line, and RSI 100 or 0 on a steady rise or fall.
- **`signal.dfy`, module `Signal`.** The engine `computeTradeSignal` of
  `src/lib/signal.ts`. The method `ComputeTradeSignal` keeps the source's guard
  and its straight-line code. That code has mutable scores, a growing reason
  list and sequential `if`s. It is divided along the source's own sections:
  - `LatestReadings` runs the indicators and reads the last bar;
  - `TallyVotes` holds the four voting rules;
  - `PriceLevels` places the ATR stops;
  - `Decide` picks the action, computes the confidence and builds the summary.

  Each of these methods is proved against a specification function:
  `ReadingsOf`, `Votes`, `LevelsFor`, and `SignalOf`/`SummaryOf`. The lemmas
  state the engine's promises:
  - the RSI zones split every value into exactly one case;
  - MACD is never bullish and bearish at once;
  - each side collects at most 3.5 votes, with at most four reasons;
  - the stop and the target bracket the entry, with the target twice as far as the stop;
  - the confidence stays in [0.15, 0.9] and under the availability cap;
  - 60 candles make four indicators available, and 200 make all five;
  - a flat market gives a hold whose levels all sit at the price;
  - a linear rise of at least 60 bars gives a buy, and a linear fall a sell.

Some behaviour of the code is easy to misread:

- **RSI of exactly 50.** The two tests `R >= 50 && R <= 70` and
  `R <= 50 && R >= 30` overlap at 50; the `else if` gives 50 to the bullish
  zone only (`Signal.RsiZones`).
- **Price equal to EMA 50.** The price rule's `else` branch gives the reason
  "Price < EMA50" and half a short vote. In a flat market this is the only vote
  cast, so the engine holds with confidence 1/6 (`Signal.PriceTie`,
  `Signal.FlatMarketHolds`).
- **Trend of equal EMAs.** When EMA 50 equals EMA 200, no trend reason is given
  (`Signal.TrendTie`).
- **Levels below zero.** Nothing keeps the stop or the target above 0. For a
  non-negative entry the far-side level (a buy's or a hold's target, a sell's
  stop) is never negative, but a sell's target is negative exactly when the
  ATR exceeds a third of the entry, and a buy's or a hold's stop exactly when
  it exceeds two thirds of it (`Signal.LevelsSigns`). Sixty bars whose prices
  fall from 60 to 1 sell with a negative target (`Signal.SellTargetBelowZero`).
- **Rising prices.** The buy of `Signal.RampBuys` is proved for prices that rise
  by the same amount every bar. For such a line MACD stays at 7 times the step
  and its signal line below that. For other rising histories the lemma says
  nothing; MACD compares a fast EMA with a slow one, so a rise that slows down
  can leave the histogram negative.

## Model

| member | source | states |
|---|---|---|
| `Indicators.Sma` | src/lib/indicators.ts:6-16 | The running-sum loop yields, at each index from period - 1 on, the mean of the `period` values ending there; everything else is absent, and all of it when period <= 0 |
| `Indicators.SmaShape` | src/lib/indicators.ts:7-13 | SMA is present exactly from index period - 1 on, and nowhere when period <= 0 |
| `Indicators.SmaOfConstant` | src/lib/indicators.ts:10-13 | Every present SMA value of a constant series is that constant |
| `Indicators.Ema` | src/lib/indicators.ts:21-40 | The loop with its SMA seed and `price * k + prev * (1 - k)` step yields the EMA specification at every index |
| `Indicators.EmaShape` | src/lib/indicators.ts:21-40 | EMA has the input's length, is present exactly from index period - 1, starts with the mean of the first `period` values and then follows the recurrence with k = 2 / (period + 1) |
| `Indicators.EmaSeedIsSma` | src/lib/indicators.ts:28-33 | EMA's first value equals the SMA at the same index |
| `Indicators.EmaOfConstant` | src/lib/indicators.ts:34-36 | On a constant series every present EMA value is the constant: the seed is the constant and the step keeps it |
| `Indicators.EmaOfLinear` | src/lib/indicators.ts:28-36 | On a line rising by b per step, every present EMA value lies b * (period - 1) / 2 below the input: the SMA seed does, and each step with k = 2 / (period + 1) keeps that lag |
| `Indicators.EmaStaysBelow` | src/lib/indicators.ts:28-36 | For period >= 2, inputs never above m and a seed below m keep every EMA value strictly below m |
| `Indicators.EmaStaysAbove` | src/lib/indicators.ts:28-36 | For period >= 2, inputs never below m and a seed above m keep every EMA value strictly above m |
| `Indicators.WilderNonNegative` | src/lib/indicators.ts:64-65 | Wilder smoothing of non-negative inputs stays non-negative |
| `Indicators.WilderOfConstant` | src/lib/indicators.ts:125-128 | Wilder smoothing of a constant input is that constant |
| `Indicators.WilderAtLeast` | src/lib/indicators.ts:124-129 | A seed of at least m and later inputs of at least m keep the Wilder average at least m |
| `Indicators.WilderPositive` | src/lib/indicators.ts:56-65 | Wilder smoothing of positive inputs stays positive |
| `Indicators.RsIndex` | src/lib/indicators.ts:58 | 100 - 100 / (1 + avgGain / avgLoss), or 100 when avgLoss is 0, lies in [0, 100]; it is 100 exactly when the average loss is 0 and 0 exactly when only losses occurred |
| `Indicators.ChangeTotals` | src/lib/indicators.ts:49-55 | The first loop's totals are the sums of the first `period` gains and of the first `period` losses |
| `Indicators.RsiSeed` | src/lib/indicators.ts:56-58 | The plain averages of those totals are the first Wilder averages and give RSI at index `period` |
| `Indicators.RsiStep` | src/lib/indicators.ts:60-66 | One Wilder step on the latest gain and loss gives the next averages, which stay non-negative and give RSI at that index |
| `Indicators.Rsi` | src/lib/indicators.ts:45-69 | Short input or period <= 0 gives all absent; otherwise the output is the RSI specification at every index |
| `Indicators.RsiSmooth` | src/lib/indicators.ts:60-67 | The second loop completes the seeded output into the RSI specification |
| `Indicators.RsiShape` | src/lib/indicators.ts:46-47 | RSI is present exactly from index `period` on, and nowhere when there are fewer than period + 1 closes |
| `Indicators.RsiInRange` | src/lib/indicators.ts:58-66 | Every present RSI value lies in [0, 100] |
| `Indicators.RsiOfNonDecreasing` | src/lib/indicators.ts:58-66 | When no close falls, every present RSI value is exactly 100 |
| `Indicators.RsiOfFalling` | src/lib/indicators.ts:51-66 | When every close is below its predecessor, there are no gains and the average loss is positive, so every present RSI value is exactly 0 |
| `Indicators.MacdSeries` | src/lib/indicators.ts:74-100 | The MACD line, the EMA of the zero-filled line as signal, and the histogram are the MACD specification |
| `Indicators.MacdShape` | src/lib/indicators.ts:80-97 | All three series have the input's length; the line is present exactly where both EMAs are and is their difference; the signal is present from signalPeriod - 1; the histogram is present exactly where line and signal are and is line minus signal |
| `Indicators.TrueRange` | src/lib/indicators.ts:111-117 | The true range is the largest of the bar's span and its distances from the previous close, so it is never negative |
| `Indicators.TrueRangeList` | src/lib/indicators.ts:109-119 | The push loop yields the true range of every bar, the first one measured against its own close |
| `Indicators.Atr` | src/lib/indicators.ts:105-134 | Fewer candles than `period` give all absent; otherwise the output is the Wilder average of the true ranges from index period - 1 on |
| `Indicators.AtrShape` | src/lib/indicators.ts:106-131 | ATR is present exactly from index period - 1, starts with the mean of the first `period` true ranges and then follows Wilder's recurrence |
| `Indicators.AtrNonNegative` | src/lib/indicators.ts:113-130 | Every present ATR value is at least 0 |
| `Indicators.CrossedAbove` | src/lib/indicators.ts:139-143 | True exactly when, at the last two bars of a, both gaps a - b are defined, the earlier one at most 0 and the later one positive |
| `Indicators.CrossedBelow` | src/lib/indicators.ts:145-149 | True exactly when the earlier gap is at least 0 and the later one negative |
| `Indicators.CrossesExclusive` | src/lib/indicators.ts:139-149 | The two crossovers never hold together |
| `Signal.ComputeTradeSignal` | src/lib/signal.ts:8-130 | Fewer than 60 candles give a zero-confidence hold at the last close (0 without candles), with "Insufficient data" and no indicators; otherwise the signal and summary derived from the latest readings |
| `Signal.LatestReadings` | src/lib/signal.ts:30-76 | Runs EMA 50, EMA 200, RSI 14, MACD (12, 26, 9) and ATR 14 over the history (lines 30-45) and returns their last entries, the last close and the two MACD crossovers (lines 75-76) |
| `Signal.TallyVotes` | src/lib/signal.ts:47-78 | The four rules' mutable scores and reason list end as the specification's votes, in the source's order |
| `Signal.PriceLevels` | src/lib/signal.ts:86-105 | The source's stop and take-profit arithmetic equals the closed form: a buy at entry - 1.5 ATR and entry + 3 ATR, a sell mirrored, a hold at entry -/+ 1.5 ATR, and both at the entry without ATR |
| `Signal.Decide` | src/lib/signal.ts:80-124 | Action, levels, confidence and summary from the readings are those of the specification |
| `Signal.ActionFor` | src/lib/signal.ts:80-83 | Buy exactly when the long side leads by at least 1, sell exactly when the short side does, hold exactly otherwise |
| `Signal.Available` | src/lib/signal.ts:108-113 | Counts the present indicators, at most 5 |
| `Signal.Confidence` | src/lib/signal.ts:115-116 | The confidence lies in [0.15, 0.9], never exceeds 0.15 + 0.15 per available indicator, is 0.15 when a third of the score gap is at most 0.15, and is that third when it lies within both bounds |
| `Signal.ConfidenceMonotone` | src/lib/signal.ts:115-116 | A larger score gap never lowers the confidence |
| `Signal.TrendTie` | src/lib/signal.ts:52-58 | The trend rule leaves the score and reasons untouched exactly when an EMA is missing or the two EMAs are equal |
| `Signal.PriceTie` | src/lib/signal.ts:61-64 | With EMA 50 present, the price rule casts half a short vote with "Price < EMA50" exactly when the close is at most EMA 50, a tie included |
| `Signal.RsiZones` | src/lib/signal.ts:67-72 | Each RSI value falls in exactly one case: [50, 70] votes long, [30, 50) votes short, above 70 only adds "overbought", below 30 only adds "oversold" |
| `Signal.CrossesAgreeWithHistogram` | src/lib/signal.ts:75-78 | A MACD cross up leaves a positive histogram at the last bar, and a cross down leaves a negative one |
| `Signal.MacdOneSided` | src/lib/signal.ts:75-78 | The engine's MACD is never bullish and bearish at once |
| `Signal.VotesBoundedFor` | src/lib/signal.ts:51-78 | With MACD one-sided, each side gets at most 3.5 votes and there are at most four reasons |
| `Signal.VotesBounded` | src/lib/signal.ts:47-78 | The engine's own votes: at most 3.5 per side and at most four reasons |
| `Signal.LevelsBracketEntry` | src/lib/signal.ts:86-105 | For a non-negative ATR, a buy's stop lies below and its target above the entry, a sell's the reverse, with the target twice as far as the stop; a hold is symmetric; without ATR both are at the entry |
| `Signal.ReadingsEntryAndAtr` | src/lib/signal.ts:37-45 | The readings start from the last close, and their ATR is never negative |
| `Signal.SignalLevelsBracketEntry` | src/lib/signal.ts:88-105 | The engine's signal enters at the last close, and its levels bracket the entry on the side its action implies |
| `Signal.LevelsSigns` | src/lib/signal.ts:92-105 | For a non-negative entry and ATR the far-side level is never below 0, while a sell's target is negative exactly when entry < 3 ATR and a buy's or a hold's stop exactly when entry < 1.5 ATR |
| `Signal.SellTargetBelowZero` | src/lib/signal.ts:97-99 | Sixty bars falling from 60 to 1 give a sell whose take-profit is below 0 |
| `Signal.AvailableFromHistory` | src/lib/signal.ts:107-116 | With at least 60 candles four indicators are present, and all five from 200 on, so below 200 candles the confidence is at most 0.75 |
| `Signal.FlatMacd` | src/lib/signal.ts:34 | On a constant series the MACD line, its signal line and the histogram end at 0, with no crossover |
| `Signal.FlatAtr` | src/lib/signal.ts:35 | Bars whose high, low and close are all c end with an ATR of 0 |
| `Signal.FlatMarketReadings` | src/lib/signal.ts:30-45 | A flat market reads both EMAs at the price (EMA 200 from 200 candles on), RSI 100, MACD and ATR 0, and no crossover |
| `Signal.FlatReadingsHold` | src/lib/signal.ts:47-116 | Those readings give a hold at confidence 1/6 with every level at the price and the reasons "Price < EMA50" and "RSI overbought" |
| `Signal.FlatMarketHolds` | src/lib/signal.ts:8-116 | A flat market of at least 60 candles yields that hold |
| `Signal.RampMacd` | src/lib/signal.ts:34 | On a line of slope b != 0 the MACD line ends at 7 b, and the histogram at the last bar is present with the sign of b |
| `Signal.RampAtr` | src/lib/signal.ts:35 | On a ramp every bar after the first has true range abs(b), so ATR 14 ends at 13/14 of abs(b) or more |
| `Signal.RampMarketReadings` | src/lib/signal.ts:30-45 | A ramp of at least 60 bars reads EMA 50 at 24.5 steps and EMA 200 (from 200 bars) at 99.5 steps behind the close, RSI 100 rising or 0 falling, MACD 7 b with a histogram of the sign of b and no crossover against it, and ATR of at least 13/14 abs(b) |
| `Signal.RisingReadingsBuy` | src/lib/signal.ts:47-116 | Those readings on a rise give a buy at the close, stop 1.5 ATR below, target 3 ATR above, confidence 1/2 (5/6 with EMA 200) and the reasons uptrend (with EMA 200), "Price > EMA50", "RSI overbought", "MACD bullish" |
| `Signal.FallingReadingsSell` | src/lib/signal.ts:47-116 | On a fall they give the mirror-image sell, whose target lies at least 39/14 of the step's size below the close |
| `Signal.RampBuys` | src/lib/signal.ts:8-116 | A linear rise of at least 60 bars yields a buy at the last close with the stop below and the target above it, confidence 1/2 or 5/6, and those reasons |
| `Signal.RampSells` | src/lib/signal.ts:8-116 | A linear fall of at least 60 bars yields a sell at the last close with the target below and the stop above it, the target at least 39/14 of the step below the entry |

## Left out

- Fetching candles from the exchange, the HTTP route and the page are not part of this model. These are `src/app/api/signal/route.ts` and `src/app/page.tsx`, together with the `SignalResponse` envelope (symbol, interval, timestamp).
- Prices are exact reals, not IEEE doubles. Rounding, NaN and infinities are not modelled, and neither is the printing of the RSI value with one decimal. The RSI reasons carry the value itself.
- A candle keeps only high, low and close. The open time, open, volume and close time are never read by the core.
- A missing (`null` or `undefined`) candle array is not modelled; a Dafny sequence is always present. The empty history is modelled: its entry price is 0.
- The source fills a preallocated JavaScript array by index. The model fills a local sequence the same way. The buffer is never shared before it is returned, so the results are the same, but in-place update and aliasing are not modelled.
- Default argument values (`period = 14`, `fast = 12` and so on) are not modelled. Every call passes its periods explicitly, as the engine does.
- Indicators.Atr: requires period >= 1. For period 0 the source divides by zero. For a negative period its short-input guard never fires and every index gets a value from a meaningless recurrence; the model does not reproduce those values. The engine always passes 14.
