/**
 * The rule-based signal engine (src/lib/signal.ts): from a candle history it
 * reads the latest EMA 50, EMA 200, RSI 14, MACD (12, 26, 9) and ATR 14
 * values, lets four rules vote for the long and the short side, turns the
 * score difference into buy / sell / hold, places ATR-based stop-loss and
 * take-profit levels around the last close, and bounds the confidence by
 * the score and by how many indicators are available.
 *
 * `ComputeTradeSignal` follows the source's straight-line code with its
 * mutable scores and reason list; it is proved equal to `SignalOf` and
 * `SummaryOf` applied to the latest readings (`ReadingsOf`), and the lemmas
 * state what those functions promise.
 */
module Signal {
  import opened Types
  import opened Indicators

  /** Fewer candles than this give the "Insufficient data" hold. */
  const MinCandles := 60
  /** The stop lies this many ATRs from the entry. */
  const AtrStopMultiple := 1.5
  /** The take-profit distance is this multiple of the stop distance. */
  const RewardRatio := 2.0

  /** The close of every candle, in order. */
  function Closes(candles: seq<Candle>): (closes: seq<real>)
    ensures |closes| == |candles|
    ensures forall i :: 0 <= i < |candles| ==> closes[i] == candles[i].close
  {
    seq(|candles|, i requires 0 <= i < |candles| => candles[i].close)
  }

  // ---------------------------------------------------------------------
  // The latest readings (src/lib/signal.ts:30-45, 75-76)
  // ---------------------------------------------------------------------

  /** Everything the rules look at: the last close, the last entry of every series, and the two MACD crossovers. */
  datatype Readings = Readings(
    lastClose: real,
    ema50: Option<real>,
    ema200: Option<real>,
    rsi: Option<real>,
    macd: Option<real>,
    signal: Option<real>,
    histogram: Option<real>,
    atr: Option<real>,
    crossUp: bool,
    crossDown: bool)

  /** The MACD (12, 26, 9) of the closes. */
  function MacdOfCloses(candles: seq<Candle>): (m: Macd)
    ensures |m.macd| == |candles| && |m.signal| == |candles| && |m.histogram| == |candles|
  {
    MacdShape(Closes(candles), 12, 26, 9);
    MacdOf(Closes(candles), 12, 26, 9)
  }

  /** The last close, the last entry of every series, and whether MACD crossed its signal line at the last bar. */
  function Latest(closes: seq<real>, ema50: Series, ema200: Series, rsi14: Series, macd: Macd, atr14: Series): Readings
    requires |closes| >= 1
    requires |ema50| == |ema200| == |rsi14| == |atr14| == |closes|
    requires |macd.macd| == |macd.signal| == |macd.histogram| == |closes|
  {
    var n := |closes| - 1;
    Readings(closes[n], ema50[n], ema200[n], rsi14[n], macd.macd[n], macd.signal[n], macd.histogram[n],
      atr14[n], CrossedAbove(macd.macd, macd.signal), CrossedBelow(macd.macd, macd.signal))
  }

  /** The readings the engine takes from a candle history. */
  function ReadingsOf(candles: seq<Candle>): Readings
    requires |candles| >= 1
  {
    var closes := Closes(candles);
    Latest(closes, EmaSeries(closes, 50), EmaSeries(closes, 200), RsiSeries(closes, 14),
      MacdOfCloses(candles), AtrSeries(candles, 14))
  }

  // ---------------------------------------------------------------------
  // Scoring (src/lib/signal.ts:47-78)
  // ---------------------------------------------------------------------

  /** The running votes for the long and the short side, with the reasons given so far, in order. */
  datatype Score = Score(long: real, short: real, reasons: seq<Reason>)

  const NoVotes := Score(0.0, 0.0, [])

  /** Adds one reason, and the votes that come with it, to a running score. */
  function Vote(sc: Score, long: real, short: real, reason: Reason): Score
  {
    Score(sc.long + long, sc.short + short, sc.reasons + [reason])
  }

  /** Trend bias: EMA 50 above EMA 200 votes long, below votes short, equal votes for neither side. */
  function TrendRule(rd: Readings, sc: Score): Score
  {
    if rd.ema50.None? || rd.ema200.None? then sc
    else if rd.ema50.value > rd.ema200.value then Vote(sc, 1.0, 0.0, Uptrend)
    else if rd.ema50.value < rd.ema200.value then Vote(sc, 0.0, 1.0, Downtrend)
    else sc
  }

  /** Price against EMA 50: above votes long by a half, anything else (a tie included) votes short by a half. */
  function PriceRule(rd: Readings, sc: Score): Score
  {
    if rd.ema50.None? then sc
    else if rd.lastClose > rd.ema50.value then Vote(sc, 0.5, 0.0, PriceAboveEma50)
    else Vote(sc, 0.0, 0.5, PriceBelowEma50)
  }

  /**
   * RSI momentum: the bullish zone [50, 70] is tested first, so 50 itself is
   * bullish; the bearish zone is what remains of [30, 50]. Overbought and
   * oversold add a reason but no vote.
   */
  function RsiRule(rd: Readings, sc: Score): Score
  {
    if rd.rsi.None? then sc
    else
      var r := rd.rsi.value;
      var zoned :=
        if 50.0 <= r <= 70.0 then Vote(sc, 1.0, 0.0, RsiBullishZone(r))
        else if 30.0 <= r <= 50.0 then Vote(sc, 0.0, 1.0, RsiBearishZone(r))
        else sc;
      var high := if r > 70.0 then Vote(zoned, 0.0, 0.0, RsiOverbought) else zoned;
      if r < 30.0 then Vote(high, 0.0, 0.0, RsiOversold) else high
  }

  /** MACD is bullish on a cross up or a positive histogram, bearish on a cross down or a negative one. */
  predicate MacdBullishNow(rd: Readings)
  {
    rd.crossUp || (rd.histogram.Some? && rd.histogram.value > 0.0)
  }

  predicate MacdBearishNow(rd: Readings)
  {
    rd.crossDown || (rd.histogram.Some? && rd.histogram.value < 0.0)
  }

  /** A bullish MACD votes long, a bearish one votes short; the two are tested independently. */
  function MacdRule(rd: Readings, sc: Score): Score
  {
    var bull := if MacdBullishNow(rd) then Vote(sc, 1.0, 0.0, MacdBullish) else sc;
    if MacdBearishNow(rd) then Vote(bull, 0.0, 1.0, MacdBearish) else bull
  }

  /** All four rules, in the order the engine applies them, from no votes. */
  function Votes(rd: Readings): Score
  {
    MacdRule(rd, RsiRule(rd, PriceRule(rd, TrendRule(rd, NoVotes))))
  }

  // ---------------------------------------------------------------------
  // Action, levels and confidence (src/lib/signal.ts:80-116)
  // ---------------------------------------------------------------------

  /** Buy on a lead of at least one vote for the long side, sell on one for the short side, hold otherwise. */
  function ActionFor(scoreDiff: real): (action: Action)
    ensures action == Buy <==> scoreDiff >= 1.0
    ensures action == Sell <==> scoreDiff <= -1.0
    ensures action == Hold <==> -1.0 < scoreDiff < 1.0
  {
    if scoreDiff >= 1.0 then Buy
    else if scoreDiff <= -1.0 then Sell
    else Hold
  }

  datatype Levels = Levels(stopLoss: real, takeProfit: real)

  /**
   * The stop-loss and take-profit for an entry: without an ATR both stay at
   * the entry; a buy risks 1.5 ATR below and aims 2 x 1.5 ATR above, a sell
   * the mirror image, a hold spans 1.5 ATR either side.
   */
  function LevelsFor(action: Action, entry: real, atr: Option<real>): Levels
  {
    if atr.None? then Levels(entry, entry)
    else
      var risk := AtrStopMultiple * atr.value;
      match action
      case Buy => Levels(entry - risk, entry + RewardRatio * risk)
      case Sell => Levels(entry + risk, entry - RewardRatio * risk)
      case Hold => Levels(entry - risk, entry + risk)
  }

  /** How many of EMA 50, EMA 200, RSI, MACD with its signal line, and ATR are present. */
  function Available(rd: Readings): (count: nat)
    ensures count <= 5
  {
    (if rd.ema50.Some? then 1 else 0) +
    (if rd.ema200.Some? then 1 else 0) +
    (if rd.rsi.Some? then 1 else 0) +
    (if rd.macd.Some? && rd.signal.Some? then 1 else 0) +
    (if rd.atr.Some? then 1 else 0)
  }

  /**
   * A third of the absolute score difference, clamped to [0.15, 0.9], then
   * capped at 0.15 plus 0.15 per available indicator.
   */
  function Confidence(scoreDiff: real, available: nat): (c: real)
    ensures 0.15 <= c <= 0.9
    ensures c <= 0.15 + 0.15 * available as real
    ensures Abs(scoreDiff) / 3.0 <= 0.15 ==> c == 0.15
    ensures 0.15 <= Abs(scoreDiff) / 3.0 <= 0.9 && Abs(scoreDiff) / 3.0 <= 0.15 + 0.15 * available as real ==>
      c == Abs(scoreDiff) / 3.0
  {
    Min(Min(0.9, Max(0.15, Abs(scoreDiff) / 3.0)), 0.15 + 0.15 * available as real)
  }

  /** The signal the engine derives from a set of readings. */
  function SignalOf(rd: Readings): TradeSignal
  {
    var votes := Votes(rd);
    var scoreDiff := votes.long - votes.short;
    var action := ActionFor(scoreDiff);
    var levels := LevelsFor(action, rd.lastClose, rd.atr);
    TradeSignal(action, Confidence(scoreDiff, Available(rd)), rd.lastClose,
      levels.stopLoss, levels.takeProfit, votes.reasons)
  }

  /** The indicator summary: the latest readings, absent ones kept absent. */
  function SummaryOf(rd: Readings): IndicatorsSummary
  {
    IndicatorsSummary(rd.ema50, rd.ema200, rd.rsi, MacdSummary(rd.macd, rd.signal, rd.histogram), rd.atr)
  }

  /** The hold returned for a short history: every level at the last close (0 with no candles). */
  function NotEnoughData(candles: seq<Candle>): TradeSignal
  {
    var lastClose := if |candles| == 0 then 0.0 else candles[|candles| - 1].close;
    TradeSignal(Hold, 0.0, lastClose, lastClose, lastClose, [InsufficientData])
  }

  const NoIndicators := IndicatorsSummary(None, None, None, MacdSummary(None, None, None), None)

  // ---------------------------------------------------------------------
  // The engine (src/lib/signal.ts:8-130)
  // ---------------------------------------------------------------------

  method ComputeTradeSignal(candles: seq<Candle>) returns (signal: TradeSignal, indicators: IndicatorsSummary)
    ensures |candles| < MinCandles ==> signal == NotEnoughData(candles) && indicators == NoIndicators
    ensures |candles| >= MinCandles ==>
      signal == SignalOf(ReadingsOf(candles)) && indicators == SummaryOf(ReadingsOf(candles))
  {
    if |candles| < MinCandles {
      var lastClose := if |candles| > 0 then candles[|candles| - 1].close else 0.0;
      signal := TradeSignal(Hold, 0.0, lastClose, lastClose, lastClose, [InsufficientData]);
      indicators := IndicatorsSummary(None, None, None, MacdSummary(None, None, None), None);
      return;
    }
    var rd := LatestReadings(candles);
    signal, indicators := Decide(rd);
  }

  /** Runs every indicator over the history and keeps the latest entries and crossovers. */
  method LatestReadings(candles: seq<Candle>) returns (rd: Readings)
    requires |candles| >= 1
    ensures rd == ReadingsOf(candles)
  {
    var closes := Closes(candles);
    var ema50 := Ema(closes, 50);
    var ema200 := Ema(closes, 200);
    var rsi14 := Rsi(closes, 14);
    var macd := MacdSeries(closes, 12, 26, 9);
    var atr14 := Atr(candles, 14);
    assert macd == MacdOfCloses(candles);

    var n := |candles| - 1;
    var macdCrossUp := CrossedAbove(macd.macd, macd.signal);
    var macdCrossDown := CrossedBelow(macd.macd, macd.signal);
    rd := Readings(closes[n], ema50[n], ema200[n], rsi14[n], macd.macd[n], macd.signal[n],
      macd.histogram[n], atr14[n], macdCrossUp, macdCrossDown);
    assert rd == Latest(closes, ema50, ema200, rsi14, macd, atr14);
  }

  /** The scoring, the action, the levels, the confidence and the summary, from the latest readings. */
  method Decide(rd: Readings) returns (signal: TradeSignal, indicators: IndicatorsSummary)
    ensures signal == SignalOf(rd) && indicators == SummaryOf(rd)
  {
    var lastClose := rd.lastClose;
    var e50 := rd.ema50;
    var e200 := rd.ema200;
    var r := rd.rsi;
    var m := rd.macd;
    var s := rd.signal;
    var h := rd.histogram;
    var a := rd.atr;

    var longScore, shortScore, reasons := TallyVotes(rd);

    var scoreDiff := longScore - shortScore;
    var action := Hold;
    if scoreDiff >= 1.0 {
      action := Buy;
    } else if scoreDiff <= -1.0 {
      action := Sell;
    }
    assert action == ActionFor(scoreDiff);

    // Price levels from ATR-based volatility stops
    var entry := lastClose;
    var stopLoss, takeProfit := PriceLevels(action, entry, a);

    var indicatorsAvailable :=
      (if e50.Some? then 1 else 0) +
      (if e200.Some? then 1 else 0) +
      (if r.Some? then 1 else 0) +
      (if m.Some? && s.Some? then 1 else 0) +
      (if a.Some? then 1 else 0);
    var confidence := Min(0.9, Max(0.15, Abs(scoreDiff) / 3.0));
    confidence := Min(confidence, 0.15 + 0.15 * indicatorsAvailable as real);
    assert indicatorsAvailable == Available(rd);
    assert confidence == Confidence(scoreDiff, Available(rd));
    assert SignalOf(rd) == TradeSignal(action, confidence, entry, stopLoss, takeProfit, reasons);

    indicators := IndicatorsSummary(e50, e200, r, MacdSummary(m, s, h), a);
    signal := TradeSignal(action, confidence, entry, stopLoss, takeProfit, reasons);
  }

  /** The stop-loss and take-profit around the entry, from the action and the ATR (src/lib/signal.ts:86-105). */
  method PriceLevels(action: Action, entry: real, a: Option<real>) returns (stopLoss: real, takeProfit: real)
    ensures Levels(stopLoss, takeProfit) == LevelsFor(action, entry, a)
  {
    stopLoss := entry;
    takeProfit := entry;
    if a.Some? {
      var atr := a.value;
      if action == Buy {
        stopLoss := entry - AtrStopMultiple * atr;
        takeProfit := entry + RewardRatio * (entry - stopLoss);
      } else if action == Sell {
        stopLoss := entry + AtrStopMultiple * atr;
        takeProfit := entry - RewardRatio * (stopLoss - entry);
      } else {
        stopLoss := entry - AtrStopMultiple * atr;
        takeProfit := entry + AtrStopMultiple * atr;
      }
    }
  }

  /** The four voting rules, applied in order to a running score (src/lib/signal.ts:47-78). */
  method TallyVotes(rd: Readings) returns (longScore: real, shortScore: real, reasons: seq<Reason>)
    ensures Score(longScore, shortScore, reasons) == Votes(rd)
  {
    reasons := [];
    longScore := 0.0;
    shortScore := 0.0;

    // Trend bias
    if rd.ema50.Some? && rd.ema200.Some? {
      if rd.ema50.value > rd.ema200.value {
        longScore := longScore + 1.0; reasons := reasons + [Uptrend];
      } else if rd.ema50.value < rd.ema200.value {
        shortScore := shortScore + 1.0; reasons := reasons + [Downtrend];
      }
    }
    assert Score(longScore, shortScore, reasons) == TrendRule(rd, NoVotes);

    // Price relative to EMA 50
    ghost var before := Score(longScore, shortScore, reasons);
    if rd.ema50.Some? {
      if rd.lastClose > rd.ema50.value {
        longScore := longScore + 0.5; reasons := reasons + [PriceAboveEma50];
      } else {
        shortScore := shortScore + 0.5; reasons := reasons + [PriceBelowEma50];
      }
    }
    assert Score(longScore, shortScore, reasons) == PriceRule(rd, before);

    // RSI momentum
    before := Score(longScore, shortScore, reasons);
    if rd.rsi.Some? {
      if 50.0 <= rd.rsi.value <= 70.0 {
        longScore := longScore + 1.0; reasons := reasons + [RsiBullishZone(rd.rsi.value)];
      } else if 30.0 <= rd.rsi.value <= 50.0 {
        shortScore := shortScore + 1.0; reasons := reasons + [RsiBearishZone(rd.rsi.value)];
      }
      if rd.rsi.value > 70.0 {
        reasons := reasons + [RsiOverbought];
      }
      if rd.rsi.value < 30.0 {
        reasons := reasons + [RsiOversold];
      }
    }
    assert Score(longScore, shortScore, reasons) == RsiRule(rd, before);

    // MACD
    before := Score(longScore, shortScore, reasons);
    if rd.crossUp || (rd.histogram.Some? && rd.histogram.value > 0.0) {
      longScore := longScore + 1.0; reasons := reasons + [MacdBullish];
    }
    ghost var bull := Score(longScore, shortScore, reasons);
    assert bull == if MacdBullishNow(rd) then Vote(before, 1.0, 0.0, MacdBullish) else before;
    if rd.crossDown || (rd.histogram.Some? && rd.histogram.value < 0.0) {
      shortScore := shortScore + 1.0; reasons := reasons + [MacdBearish];
    }
    assert Score(longScore, shortScore, reasons) ==
      if MacdBearishNow(rd) then Vote(bull, 0.0, 1.0, MacdBearish) else bull;
  }

  // ---------------------------------------------------------------------
  // Properties
  // ---------------------------------------------------------------------

  /** The trend rule casts no vote and gives no reason exactly when an EMA is missing or the two are equal. */
  lemma TrendTie(rd: Readings, sc: Score)
    ensures TrendRule(rd, sc) == sc <==>
      rd.ema50.None? || rd.ema200.None? || rd.ema50 == rd.ema200
  {
    if rd.ema50.Some? && rd.ema200.Some? && rd.ema50 != rd.ema200 {
      // a vote always lengthens the reasons
      assert |TrendRule(rd, sc).reasons| == |sc.reasons| + 1;
    }
  }

  /** With EMA 50 present, a close at or below it (a tie included) votes short by a half. */
  lemma PriceTie(rd: Readings, sc: Score)
    requires rd.ema50.Some?
    ensures PriceRule(rd, sc) == Vote(sc, 0.0, 0.5, PriceBelowEma50) <==>
      rd.lastClose <= rd.ema50.value
  {
    if rd.lastClose > rd.ema50.value {
      assert PriceRule(rd, sc).long == sc.long + 0.5;
    }
  }

  /**
   * The RSI rule sorts every value into exactly one case: [50, 70] votes
   * long, [30, 50) votes short, above 70 and below 30 give only the
   * overbought or oversold reason. At exactly 50 the vote is long only.
   */
  lemma RsiZones(rd: Readings, sc: Score)
    requires rd.rsi.Some?
    ensures var r := rd.rsi.value; var next := RsiRule(rd, sc);
      && (50.0 <= r <= 70.0 <==> next == Vote(sc, 1.0, 0.0, RsiBullishZone(r)))
      && (30.0 <= r < 50.0 <==> next == Vote(sc, 0.0, 1.0, RsiBearishZone(r)))
      && (r > 70.0 <==> next == Vote(sc, 0.0, 0.0, RsiOverbought))
      && (r < 30.0 <==> next == Vote(sc, 0.0, 0.0, RsiOversold))
  {
    var r := rd.rsi.value;
    var next := RsiRule(rd, sc);
    // the last reason tells the four cases apart
    assert next.reasons[|sc.reasons|] ==
      if 50.0 <= r <= 70.0 then RsiBullishZone(r)
      else if r > 70.0 then RsiOverbought
      else if 30.0 <= r then RsiBearishZone(r)
      else RsiOversold;
  }

  /** The MACD line crossing above its signal line leaves a positive histogram, crossing below a negative one. */
  lemma CrossesAgreeWithHistogram(candles: seq<Candle>)
    requires |candles| >= 1
    ensures var rd := ReadingsOf(candles);
      && (rd.crossUp ==> rd.histogram.Some? && rd.histogram.value > 0.0)
      && (rd.crossDown ==> rd.histogram.Some? && rd.histogram.value < 0.0)
  {
    var closes := Closes(candles);
    var n := |candles| - 1;
    MacdShape(closes, 12, 26, 9);
    var m := MacdOf(closes, 12, 26, 9);
    assert At(m.macd, n) == m.macd[n] && At(m.signal, n) == m.signal[n];
  }

  /** On the engine's own readings MACD is never bullish and bearish at once. */
  lemma MacdOneSided(candles: seq<Candle>)
    requires |candles| >= 1
    ensures var rd := ReadingsOf(candles); !(MacdBullishNow(rd) && MacdBearishNow(rd))
  {
    var m := MacdOfCloses(candles);
    CrossesExclusive(m.macd, m.signal);
    CrossesAgreeWithHistogram(candles);
  }

  /**
   * When MACD is not bullish and bearish at once, each side collects at most
   * 3.5 votes and there are at most four reasons: at most one per rule, since
   * the RSI zones and extremes are disjoint.
   */
  lemma VotesBoundedFor(rd: Readings)
    requires !(MacdBullishNow(rd) && MacdBearishNow(rd))
    ensures var v := Votes(rd);
      0.0 <= v.long <= 3.5 && 0.0 <= v.short <= 3.5 && |v.reasons| <= 4
  {
    var s1 := TrendRule(rd, NoVotes);
    assert 0.0 <= s1.long <= 1.0 && 0.0 <= s1.short <= 1.0 && |s1.reasons| <= 1;
    var s2 := PriceRule(rd, s1);
    assert 0.0 <= s2.long <= 1.5 && 0.0 <= s2.short <= 1.5 && |s2.reasons| <= 2;
    var s3 := RsiRule(rd, s2);
    assert 0.0 <= s3.long <= 2.5 && 0.0 <= s3.short <= 2.5 && |s3.reasons| <= 3;
  }

  /** The engine's own votes: at most 3.5 per side and at most four reasons. */
  lemma VotesBounded(candles: seq<Candle>)
    requires |candles| >= 1
    ensures var v := Votes(ReadingsOf(candles));
      0.0 <= v.long <= 3.5 && 0.0 <= v.short <= 3.5 && |v.reasons| <= 4
  {
    MacdOneSided(candles);
    VotesBoundedFor(ReadingsOf(candles));
  }

  /**
   * The levels bracket the entry when the ATR is not negative: a buy's stop
   * is below and its target above, a sell's the other way round, with the
   * target twice as far from the entry as the stop; a hold spans the same
   * distance both ways.
   */
  lemma LevelsBracketEntry(action: Action, entry: real, atr: Option<real>)
    requires atr.Some? ==> atr.value >= 0.0
    ensures var l := LevelsFor(action, entry, atr);
      && (action != Sell ==> l.stopLoss <= entry <= l.takeProfit)
      && (action == Sell ==> l.takeProfit <= entry <= l.stopLoss)
      && (action != Hold ==> Abs(l.takeProfit - entry) == RewardRatio * Abs(entry - l.stopLoss))
      && (action == Hold ==> l.takeProfit - entry == entry - l.stopLoss)
      && (atr.None? ==> l.stopLoss == entry == l.takeProfit)
  {
  }

  /** The engine's readings start from the last close, and their ATR is never negative. */
  lemma ReadingsEntryAndAtr(candles: seq<Candle>)
    requires |candles| >= 1
    ensures var rd := ReadingsOf(candles);
      rd.lastClose == candles[|candles| - 1].close && (rd.atr.Some? ==> rd.atr.value >= 0.0)
  {
    AtrNonNegative(candles, 14);
  }

  /** The signal enters at the last close, and its levels bracket the entry. */
  lemma SignalLevelsBracketEntry(candles: seq<Candle>)
    requires |candles| >= 1
    ensures var sig := SignalOf(ReadingsOf(candles));
      && sig.entry == candles[|candles| - 1].close
      && (sig.action != Sell ==> sig.stopLoss <= sig.entry <= sig.takeProfit)
      && (sig.action == Sell ==> sig.takeProfit <= sig.entry <= sig.stopLoss)
  {
    var rd := ReadingsOf(candles);
    ReadingsEntryAndAtr(candles);
    var votes := Votes(rd);
    LevelsBracketEntry(ActionFor(votes.long - votes.short), rd.lastClose, rd.atr);
  }

  /**
   * With at least 60 candles EMA 50, RSI 14, MACD with its signal line and
   * ATR 14 are all present, and EMA 200 is present from 200 candles on; so
   * below 200 candles the confidence never exceeds 0.75.
   */
  lemma AvailableFromHistory(candles: seq<Candle>)
    requires |candles| >= MinCandles
    ensures Available(ReadingsOf(candles)) == if |candles| >= 200 then 5 else 4
    ensures |candles| < 200 ==> SignalOf(ReadingsOf(candles)).confidence <= 0.75
  {
    var closes := Closes(candles);
    EmaShape(closes, 50);
    EmaShape(closes, 200);
    RsiShape(closes, 14);
    MacdShape(closes, 12, 26, 9);
    AtrShape(candles, 14);
  }

  /** A larger score difference never lowers the confidence. */
  lemma ConfidenceMonotone(d1: real, d2: real, available: nat)
    requires Abs(d1) <= Abs(d2)
    ensures Confidence(d1, available) <= Confidence(d2, available)
  {
  }

  /** The EMA of a constant series ends at the constant once it is present. */
  lemma FlatEma(closes: seq<real>, period: int, c: real)
    requires 1 <= period <= |closes|
    requires forall i :: 0 <= i < |closes| ==> closes[i] == c
    ensures EmaSeries(closes, period)[|closes| - 1] == Some(c)
  {
    EmaOfConstant(closes, period, |closes| - 1, c);
  }

  /** On a constant series the MACD line, its signal line and the histogram end at 0, with no crossover. */
  lemma FlatMacd(closes: seq<real>, c: real)
    requires |closes| >= 26
    requires forall i :: 0 <= i < |closes| ==> closes[i] == c
    ensures var m := MacdOf(closes, 12, 26, 9); var n := |closes| - 1;
      && m.macd[n] == Some(0.0) && m.signal[n] == Some(0.0) && m.histogram[n] == Some(0.0)
      && !CrossedAbove(m.macd, m.signal) && !CrossedBelow(m.macd, m.signal)
  {
    var n := |closes| - 1;
    MacdShape(closes, 12, 26, 9);
    // the MACD line is 0 wherever present, so its zero-filled form is all 0
    var line := MacdLine(closes, 12, 26);
    var zf := ZeroFilled(line);
    forall j | 0 <= j < |zf| ensures zf[j] == 0.0 {
      if line[j].Some? {
        EmaOfConstant(closes, 12, j, c);
        EmaOfConstant(closes, 26, j, c);
      }
    }
    EmaOfConstant(zf, 9, n, 0.0);
    EmaOfConstant(closes, 12, n, c);
    EmaOfConstant(closes, 26, n, c);
    var m := MacdOf(closes, 12, 26, 9);
    assert At(m.macd, n) == Some(0.0) && At(m.signal, n) == Some(0.0);
  }

  /** Bars whose high, low and close all equal c have true range 0, so ATR ends at 0. */
  lemma FlatAtr(candles: seq<Candle>, c: real)
    requires |candles| >= 14
    requires forall i :: 0 <= i < |candles| ==> candles[i] == Candle(c, c, c)
    ensures AtrSeries(candles, 14)[|candles| - 1] == Some(0.0)
  {
    var trs := TrueRanges(candles);
    forall j | 0 <= j < |trs| ensures trs[j] == 0.0 {
      assert candles[j] == Candle(c, c, c);
    }
    WilderOfConstant(trs, 14, |candles| - 1, 0.0);
  }

  /**
   * The readings of a flat market (every bar's high, low and close equal to
   * c): both EMAs at c (EMA 200 only from 200 candles on), RSI 100, the MACD
   * line, its signal line, the histogram and ATR all 0, and no crossover.
   */
  lemma FlatMarketReadings(candles: seq<Candle>, c: real)
    requires |candles| >= MinCandles
    requires forall i :: 0 <= i < |candles| ==> candles[i] == Candle(c, c, c)
    ensures ReadingsOf(candles) == FlatReadings(c, |candles| >= 200)
  {
    var closes := Closes(candles);
    var n := |candles| - 1;
    FlatEma(closes, 50, c);
    if n >= 199 {
      FlatEma(closes, 200, c);
    }
    EmaShape(closes, 200);
    RsiOfNonDecreasing(closes, 14);
    RsiShape(closes, 14);
    FlatMacd(closes, c);
    FlatAtr(candles, c);
  }

  /** The readings of a flat market at c, EMA 200 present or not. */
  function FlatReadings(c: real, longHistory: bool): Readings
  {
    Readings(c, Some(c), if longHistory then Some(c) else None,
      Some(100.0), Some(0.0), Some(0.0), Some(0.0), Some(0.0), false, false)
  }

  /**
   * Flat readings hold: the close ties EMA 50, which counts as "Price <
   * EMA50", RSI 100 is overbought without a vote, MACD votes for neither
   * side; so the score is -0.5, the confidence a third of 0.5, and the ATR
   * of 0 puts every level at the close.
   */
  lemma FlatReadingsHold(c: real, longHistory: bool)
    ensures SignalOf(FlatReadings(c, longHistory)) ==
      TradeSignal(Hold, 1.0 / 6.0, c, c, c, [PriceBelowEma50, RsiOverbought])
  {
    var rd := FlatReadings(c, longHistory);
    assert Votes(rd) == Score(0.0, 0.5, [PriceBelowEma50, RsiOverbought]);
  }

  /** A flat market, where every bar's high, low and close equal c, gives a hold with every level at c. */
  lemma FlatMarketHolds(candles: seq<Candle>, c: real)
    requires |candles| >= MinCandles
    requires forall i :: 0 <= i < |candles| ==> candles[i] == Candle(c, c, c)
    ensures SignalOf(ReadingsOf(candles)) ==
      TradeSignal(Hold, 1.0 / 6.0, c, c, c, [PriceBelowEma50, RsiOverbought])
  {
    FlatMarketReadings(candles, c);
    FlatReadingsHold(c, |candles| >= 200);
  }

  /**
   * The levels are not kept non-negative. For a non-negative entry and ATR
   * the level on the far side of the trade (a buy's or a hold's target, a
   * sell's stop) is never below 0, but the near-side level is negative
   * exactly when the entry is smaller than its distance from the entry.
   */
  lemma LevelsSigns(action: Action, entry: real, atr: real)
    requires entry >= 0.0 && atr >= 0.0
    ensures var l := LevelsFor(action, entry, Some(atr));
      && (action != Sell ==> l.takeProfit >= 0.0 && (l.stopLoss < 0.0 <==> entry < 1.5 * atr))
      && (action == Sell ==> l.stopLoss >= 0.0 && (l.takeProfit < 0.0 <==> entry < 3.0 * atr))
  {
  }

  // ---------------------------------------------------------------------
  // Linear trends
  // ---------------------------------------------------------------------

  /** A ramp of slope b: every bar's high and low equal its close, and every close is the previous one plus b. */
  predicate IsRamp(candles: seq<Candle>, b: real)
  {
    && (forall i :: 0 <= i < |candles| ==> candles[i].high == candles[i].close && candles[i].low == candles[i].close)
    && IsLinear(Closes(candles), b)
  }

  /**
   * On a line of slope b != 0 the MACD line is 7 b from index 25 on (EMA 12
   * trails by 5.5 b, EMA 26 by 12.5 b). Its zero-filled form starts at 0, so
   * the signal line stays strictly on the zero side of 7 b and the histogram
   * at the last bar has the sign of b.
   */
  lemma RampMacd(closes: seq<real>, b: real)
    requires |closes| >= 26 && IsLinear(closes, b) && b != 0.0
    ensures var m := MacdOf(closes, 12, 26, 9); var n := |closes| - 1;
      && m.macd[n] == Some(7.0 * b) && m.signal[n].Some? && m.histogram[n].Some?
      && (b > 0.0 ==> m.histogram[n].value > 0.0)
      && (b < 0.0 ==> m.histogram[n].value < 0.0)
  {
    var n := |closes| - 1;
    MacdShape(closes, 12, 26, 9);
    var line := MacdLine(closes, 12, 26);
    var zf := ZeroFilled(line);
    forall j | 0 <= j < |zf| ensures zf[j] == if j >= 25 then 7.0 * b else 0.0 {
      if j >= 25 {
        EmaOfLinear(closes, 12, j, b);
        EmaOfLinear(closes, 26, j, b);
      }
    }
    MeanOfConstant(zf, 0, 9, 0.0);
    if b > 0.0 {
      EmaStaysBelow(zf, 9, n, 7.0 * b);
    } else {
      EmaStaysAbove(zf, 9, n, 7.0 * b);
    }
  }

  /** A bar whose high, low and close are all x has true range |x - prev|. */
  lemma FlatBarRange(x: real, prev: real)
    ensures TrueRange(Candle(x, x, x), prev) == Abs(x - prev)
  {
  }

  /** On a ramp the first bar has true range 0 and every later bar |b|. */
  lemma RampTrueRanges(candles: seq<Candle>, b: real)
    requires IsRamp(candles, b)
    ensures forall j :: 0 <= j < |candles| ==>
      TrueRanges(candles)[j] == if j == 0 then 0.0 else Abs(b)
  {
    forall j | 0 <= j < |candles|
      ensures TrueRanges(candles)[j] == if j == 0 then 0.0 else Abs(b)
    {
      var x := candles[j].close;
      assert candles[j] == Candle(x, x, x);
      if j > 0 {
        assert Rise(Closes(candles), j) == b;
        FlatBarRange(x, candles[j - 1].close);
      } else {
        FlatBarRange(x, x);
      }
    }
  }

  /** A window of a 0 followed by period - 1 copies of c has mean (period - 1) / period times c. */
  lemma MeanAfterZero(xs: seq<real>, period: int, c: real)
    requires 1 <= period <= |xs| && xs[0] == 0.0
    requires forall j :: 1 <= j < period ==> xs[j] == c
    ensures Mean(xs, 0, period) == (period - 1) as real * c / period as real
  {
    SumDropFront(xs, 0, period);
    SumOfConstant(xs, 1, period, c);
  }

  /** On a ramp ATR 14 ends at 13/14 of |b| or more: its seed is exactly that, and every later input is |b|. */
  lemma RampAtr(candles: seq<Candle>, b: real)
    requires |candles| >= 14 && IsRamp(candles, b)
    ensures AtrSeries(candles, 14)[|candles| - 1].Some?
    ensures AtrSeries(candles, 14)[|candles| - 1].value >= 13.0 / 14.0 * Abs(b)
  {
    var trs := TrueRanges(candles);
    RampTrueRanges(candles, b);
    MeanAfterZero(trs, 14, Abs(b));
    WilderAtLeast(trs, 14, |candles| - 1, 13.0 / 14.0 * Abs(b));
  }

  /** On a ramp of slope b != 0, EMA 50 and EMA 200 trail the last close by 24.5 b and 99.5 b. */
  lemma RampEmas(candles: seq<Candle>, b: real)
    requires |candles| >= MinCandles && IsRamp(candles, b)
    ensures var n := |candles| - 1;
      && EmaSeries(Closes(candles), 50)[n] == Some(candles[n].close - 24.5 * b)
      && EmaSeries(Closes(candles), 200)[n] == if |candles| >= 200 then Some(candles[n].close - 99.5 * b) else None
  {
    var closes := Closes(candles);
    var n := |candles| - 1;
    assert closes[n] == candles[n].close;
    EmaOfLinear(closes, 50, n, b);
    if n >= 199 {
      EmaOfLinear(closes, 200, n, b);
    }
  }

  /** On a line RSI 14 ends at 100 when it rises and at 0 when it falls. */
  lemma RampRsi(closes: seq<real>, b: real)
    requires |closes| >= MinCandles && IsLinear(closes, b) && b != 0.0
    ensures RsiSeries(closes, 14)[|closes| - 1] == Some(if b > 0.0 then 100.0 else 0.0)
  {
    RsiShape(closes, 14);
    forall j | 0 < j < |closes| ensures closes[j] == closes[j - 1] + b {
      assert Rise(closes, j) == b;
    }
    if b > 0.0 {
      RsiOfNonDecreasing(closes, 14);
    } else {
      RsiOfFalling(closes, 14);
    }
  }

  /**
   * What the engine reads on a ramp of slope b ending at x: EMA 50 trails x
   * by 24.5 b and EMA 200 (with 200 candles) by 99.5 b, RSI is 100 on a rise
   * and 0 on a fall, MACD and its signal line are present with a histogram of
   * the sign of b and no crossover against it, and ATR is at least 13/14 of |b|.
   */
  predicate RampReadings(rd: Readings, x: real, b: real, longHistory: bool)
  {
    && rd.lastClose == x
    && rd.ema50 == Some(x - 24.5 * b)
    && rd.ema200 == (if longHistory then Some(x - 99.5 * b) else None)
    && rd.rsi == Some(if b > 0.0 then 100.0 else 0.0)
    && rd.macd == Some(7.0 * b) && rd.signal.Some? && rd.histogram.Some?
    && (b > 0.0 ==> rd.histogram.value > 0.0 && !rd.crossDown)
    && (b < 0.0 ==> rd.histogram.value < 0.0 && !rd.crossUp)
    && rd.atr.Some? && rd.atr.value >= 13.0 / 14.0 * Abs(b)
  }

  /**
   * The last entries of the engine's series on a ramp of slope b: the
   * facts RampReadings asks for, before they are gathered into readings.
   */
  predicate RampSeriesEnd(candles: seq<Candle>, b: real)
    requires |candles| >= 1
  {
    var closes := Closes(candles);
    var n := |candles| - 1;
    var m := MacdOfCloses(candles);
    && EmaSeries(closes, 50)[n] == Some(candles[n].close - 24.5 * b)
    && EmaSeries(closes, 200)[n] == (if |candles| >= 200 then Some(candles[n].close - 99.5 * b) else None)
    && RsiSeries(closes, 14)[n] == Some(if b > 0.0 then 100.0 else 0.0)
    && m.macd[n] == Some(7.0 * b) && m.signal[n].Some? && m.histogram[n].Some?
    && (b > 0.0 ==> m.histogram[n].value > 0.0)
    && (b < 0.0 ==> m.histogram[n].value < 0.0)
    && AtrSeries(candles, 14)[n].Some? && AtrSeries(candles, 14)[n].value >= 13.0 / 14.0 * Abs(b)
  }

  /** A ramp of slope b != 0 and at least 60 bars ends its series as RampSeriesEnd says. */
  lemma RampSeries(candles: seq<Candle>, b: real)
    requires |candles| >= MinCandles && b != 0.0 && IsRamp(candles, b)
    ensures RampSeriesEnd(candles, b)
  {
    var closes := Closes(candles);
    var n := |candles| - 1;
    RampEmas(candles, b);
    RampRsi(closes, b);
    RampMacd(closes, b);
    RampAtr(candles, b);
    assert MacdOfCloses(candles) == MacdOf(closes, 12, 26, 9);
  }

  /** Gathering those last entries gives the ramp readings; a crossover against the histogram's sign cannot occur. */
  lemma RampSeriesReadings(candles: seq<Candle>, b: real)
    requires |candles| >= 1 && RampSeriesEnd(candles, b)
    ensures RampReadings(ReadingsOf(candles), candles[|candles| - 1].close, b, |candles| >= 200)
  {
    CrossesAgreeWithHistogram(candles);
  }

  /** A ramp of slope b != 0 and at least 60 bars gives the ramp readings at its last close. */
  lemma RampMarketReadings(candles: seq<Candle>, b: real)
    requires |candles| >= MinCandles && b != 0.0 && IsRamp(candles, b)
    ensures RampReadings(ReadingsOf(candles), candles[|candles| - 1].close, b, |candles| >= 200)
  {
    RampSeries(candles, b);
    RampSeriesReadings(candles, b);
  }

  /**
   * Rising ramp readings buy: price above EMA 50 and a positive histogram
   * vote long, RSI 100 only adds "overbought", and EMA 50 above EMA 200 adds
   * the uptrend once EMA 200 exists; so the confidence is 1/2 (5/6 with 200
   * candles) and the positive ATR puts the stop below and the target above.
   */
  lemma RisingReadingsBuy(rd: Readings, x: real, b: real, longHistory: bool)
    requires b > 0.0 && RampReadings(rd, x, b, longHistory)
    ensures var s := SignalOf(rd);
      && s.action == Buy
      && s.confidence == (if longHistory then 5.0 / 6.0 else 0.5)
      && s.reasons == (if longHistory then [Uptrend] else []) + [PriceAboveEma50, RsiOverbought, MacdBullish]
      && s.entry == x && s.stopLoss == x - 1.5 * rd.atr.value && s.takeProfit == x + 3.0 * rd.atr.value
      && s.stopLoss < s.entry < s.takeProfit
  {
    if longHistory {
      assert Votes(rd) == Score(2.5, 0.0, [Uptrend, PriceAboveEma50, RsiOverbought, MacdBullish]);
    } else {
      assert Votes(rd) == Score(1.5, 0.0, [PriceAboveEma50, RsiOverbought, MacdBullish]);
    }
  }

  /**
   * Falling ramp readings sell, the mirror image: the target lies 3 ATR below
   * the close, so at least 39/14 of the slope's size below it.
   */
  lemma FallingReadingsSell(rd: Readings, x: real, b: real, longHistory: bool)
    requires b < 0.0 && RampReadings(rd, x, b, longHistory)
    ensures var s := SignalOf(rd);
      && s.action == Sell
      && s.confidence == (if longHistory then 5.0 / 6.0 else 0.5)
      && s.reasons == (if longHistory then [Downtrend] else []) + [PriceBelowEma50, RsiOversold, MacdBearish]
      && s.entry == x && s.stopLoss == x + 1.5 * rd.atr.value && s.takeProfit == x - 3.0 * rd.atr.value
      && s.takeProfit < s.entry < s.stopLoss
      && s.takeProfit <= x + 39.0 / 14.0 * b
  {
    if longHistory {
      assert Votes(rd) == Score(0.0, 2.5, [Downtrend, PriceBelowEma50, RsiOversold, MacdBearish]);
    } else {
      assert Votes(rd) == Score(0.0, 1.5, [PriceBelowEma50, RsiOversold, MacdBearish]);
    }
  }

  /**
   * Steadily rising prices (a linear ramp, at least 60 bars) give a buy at
   * the last close with the stop below and the target above it, confidence
   * 1/2, or 5/6 once EMA 200 exists.
   */
  lemma RampBuys(candles: seq<Candle>, b: real)
    requires |candles| >= MinCandles && b > 0.0 && IsRamp(candles, b)
    ensures var s := SignalOf(ReadingsOf(candles));
      && s.action == Buy
      && s.entry == candles[|candles| - 1].close
      && s.stopLoss < s.entry < s.takeProfit
      && s.confidence == (if |candles| >= 200 then 5.0 / 6.0 else 0.5)
      && s.reasons == (if |candles| >= 200 then [Uptrend] else []) + [PriceAboveEma50, RsiOverbought, MacdBullish]
  {
    RampMarketReadings(candles, b);
    RisingReadingsBuy(ReadingsOf(candles), candles[|candles| - 1].close, b, |candles| >= 200);
  }

  /**
   * Steadily falling prices give a sell at the last close, with the target
   * at least 39/14 of the per-bar drop below the entry.
   */
  lemma RampSells(candles: seq<Candle>, b: real)
    requires |candles| >= MinCandles && b < 0.0 && IsRamp(candles, b)
    ensures var s := SignalOf(ReadingsOf(candles));
      && s.action == Sell
      && s.entry == candles[|candles| - 1].close
      && s.takeProfit < s.entry < s.stopLoss
      && s.takeProfit <= s.entry + 39.0 / 14.0 * b
      && s.confidence == (if |candles| >= 200 then 5.0 / 6.0 else 0.5)
      && s.reasons == (if |candles| >= 200 then [Downtrend] else []) + [PriceBelowEma50, RsiOversold, MacdBearish]
  {
    RampMarketReadings(candles, b);
    FallingReadingsSell(ReadingsOf(candles), candles[|candles| - 1].close, b, |candles| >= 200);
  }

  /**
   * Sixty bars whose prices fall from 60 to 1 sell with a negative take-profit:
   * the entry is 1 and the target at least 39/14 below it.
   */
  lemma SellTargetBelowZero(candles: seq<Candle>)
    requires |candles| == 60
    requires forall i :: 0 <= i < 60 ==>
      candles[i] == Candle((60 - i) as real, (60 - i) as real, (60 - i) as real)
    ensures SignalOf(ReadingsOf(candles)).action == Sell
    ensures SignalOf(ReadingsOf(candles)).takeProfit < 0.0
  {
    forall j | 0 < j < 60 ensures Rise(Closes(candles), j) == -1.0 {
      assert candles[j].close == candles[j - 1].close - 1.0;
    }
    RampSells(candles, -1.0);
  }
}
