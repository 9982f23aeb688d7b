/**
 * Record shapes shared by the indicator library and the signal engine
 * (src/lib/types.ts). Prices are reals; an absent indicator value is `None`.
 */
module Types {

  datatype Option<+T> = None | Some(value: T)

  /** A series: one entry per candle, `None` while the indicator warms up. */
  type Series = seq<Option<real>>

  /** One OHLC bar, reduced to the three fields the core reads. */
  datatype Candle = Candle(high: real, low: real, close: real)

  /** The three aligned MACD series. */
  datatype Macd = Macd(macd: Series, signal: Series, histogram: Series)

  datatype MacdSummary = MacdSummary(macd: Option<real>, signal: Option<real>, histogram: Option<real>)

  /** The last value of every indicator series, absent values kept absent. */
  datatype IndicatorsSummary = IndicatorsSummary(
    ema50: Option<real>,
    ema200: Option<real>,
    rsi14: Option<real>,
    macd: MacdSummary,
    atr14: Option<real>)

  datatype Action = Buy | Sell | Hold

  /** The reason strings the engine emits, as tags; the RSI zones carry the RSI value they print. */
  datatype Reason =
    | InsufficientData
    | Uptrend          // "EMA50 > EMA200 (uptrend)"
    | Downtrend        // "EMA50 < EMA200 (downtrend)"
    | PriceAboveEma50  // "Price > EMA50"
    | PriceBelowEma50  // "Price < EMA50"
    | RsiBullishZone(rsi: real)
    | RsiBearishZone(rsi: real)
    | RsiOverbought
    | RsiOversold
    | MacdBullish
    | MacdBearish

  datatype TradeSignal = TradeSignal(
    action: Action,
    confidence: real,
    entry: real,
    stopLoss: real,
    takeProfit: real,
    reasons: seq<Reason>)
}
