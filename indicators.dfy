/**
 * The indicator library (src/lib/indicators.ts): batch transforms over a
 * price series that return one entry per input, `None` during warm-up.
 *
 * Every indicator is a method that fills an output series in a loop, as the
 * library does, and is proved equal to a pointwise specification
 * (`SmaAt`, `EmaAt`, `RsiAt`, `MacdOf`, `AtrAt`). The lemmas state what
 * those specifications promise: which entries are present, the seed value,
 * the recurrence, bounds, and the value on a constant input.
 */
module Indicators {
  import opened Types

  // ---------------------------------------------------------------------
  // Arithmetic helpers (Math.max, Math.min, Math.abs, Array.reduce)
  // ---------------------------------------------------------------------

  function Max(a: real, b: real): real { if a >= b then a else b }

  function Min(a: real, b: real): real { if a <= b then a else b }

  function Abs(x: real): real { if x >= 0.0 then x else -x }

  /**
   * Sum(s, lo, hi) is the left-to-right sum of s[lo..hi], as a running
   * `sum +=` loop or `reduce((a, b) => a + b, 0)` computes it.
   */
  function Sum(s: seq<real>, lo: int, hi: int): real
    requires 0 <= lo <= hi <= |s|
    decreases hi - lo
  {
    if lo == hi then 0.0 else Sum(s, lo, hi - 1) + s[hi - 1]
  }

  /** The arithmetic mean of s[lo..hi]. */
  function Mean(s: seq<real>, lo: int, hi: int): real
    requires 0 <= lo < hi <= |s|
  {
    Sum(s, lo, hi) / (hi - lo) as real
  }

  /** Removing the oldest value from a window subtracts it from the sum. */
  lemma {:induction false} SumDropFront(s: seq<real>, lo: int, hi: int)
    requires 0 <= lo < hi <= |s|
    ensures Sum(s, lo + 1, hi) == Sum(s, lo, hi) - s[lo]
    decreases hi - lo
  {
    if lo + 1 < hi {
      SumDropFront(s, lo, hi - 1);
    }
  }

  lemma {:induction false} SumNonNegative(s: seq<real>, lo: int, hi: int)
    requires 0 <= lo <= hi <= |s|
    requires forall j :: lo <= j < hi ==> s[j] >= 0.0
    ensures Sum(s, lo, hi) >= 0.0
    decreases hi - lo
  {
    if lo < hi {
      SumNonNegative(s, lo, hi - 1);
    }
  }

  lemma {:induction false} SumOfConstant(s: seq<real>, lo: int, hi: int, c: real)
    requires 0 <= lo <= hi <= |s|
    requires forall j :: lo <= j < hi ==> s[j] == c
    ensures Sum(s, lo, hi) == (hi - lo) as real * c
    decreases hi - lo
  {
    if lo < hi {
      SumOfConstant(s, lo, hi - 1, c);
    }
  }

  lemma MeanOfConstant(s: seq<real>, lo: int, hi: int, c: real)
    requires 0 <= lo < hi <= |s|
    requires forall j :: lo <= j < hi ==> s[j] == c
    ensures Mean(s, lo, hi) == c
  {
    SumOfConstant(s, lo, hi, c);
    var n := (hi - lo) as real;
    assert Sum(s, lo, hi) / n == (n * c) / n;
  }

  // ---------------------------------------------------------------------
  // SMA (src/lib/indicators.ts:6-16)
  // ---------------------------------------------------------------------

  /** Entry i of the simple moving average: the mean of the `period` values ending at i. */
  function SmaAt(values: seq<real>, period: int, i: nat): Option<real>
    requires i < |values|
  {
    if period <= 0 || i < period - 1 then None
    else Some(Mean(values, i - period + 1, i + 1))
  }

  function SmaSeries(values: seq<real>, period: int): (r: Series)
    ensures |r| == |values|
  {
    seq(|values|, i requires 0 <= i < |values| => SmaAt(values, period, i))
  }

  /**
   * Running-sum SMA: the window sum gains the entering value and loses the
   * value `period` places back, so each output is the window mean.
   */
  method Sma(values: seq<real>, period: int) returns (r: Series)
    ensures r == SmaSeries(values, period)
  {
    var out: Series := seq(|values|, _ => None);
    if period <= 0 {
      assert out == SmaSeries(values, period);
      return out;
    }
    var sum := 0.0;
    for i := 0 to |values|
      invariant |out| == |values|
      invariant forall j :: 0 <= j < i ==> out[j] == SmaAt(values, period, j)
      invariant forall j :: i <= j < |values| ==> out[j] == None
      invariant sum == Sum(values, if i < period then 0 else i - period, i)
    {
      sum := sum + values[i];
      if i >= period {
        SumDropFront(values, i - period, i + 1);
        sum := sum - values[i - period];
      }
      assert sum == Sum(values, if i + 1 < period then 0 else i + 1 - period, i + 1);
      if i >= period - 1 {
        assert SmaAt(values, period, i) == Some(sum / period as real);
        out := out[i := Some(sum / period as real)];
      }
    }
    assert out == SmaSeries(values, period) by {
      assert forall j :: 0 <= j < |values| ==> out[j] == SmaAt(values, period, j);
    }
    return out;
  }


  /** SMA is absent exactly before index period - 1, and everywhere when period <= 0. */
  lemma SmaShape(values: seq<real>, period: int)
    ensures forall i :: 0 <= i < |values| ==>
      (SmaSeries(values, period)[i].Some? <==> period >= 1 && i >= period - 1)
  {
  }

  /** Every present SMA value of a constant series is that constant. */
  lemma SmaOfConstant(values: seq<real>, period: int, c: real)
    requires forall j :: 0 <= j < |values| ==> values[j] == c
    ensures forall i :: 0 <= i < |values| && SmaSeries(values, period)[i].Some? ==>
      SmaSeries(values, period)[i].value == c
  {
    forall i | 0 <= i < |values| && SmaSeries(values, period)[i].Some?
      ensures SmaSeries(values, period)[i].value == c
    {
      MeanOfConstant(values, i - period + 1, i + 1, c);
    }
  }

  // ---------------------------------------------------------------------
  // EMA (src/lib/indicators.ts:21-40)
  // ---------------------------------------------------------------------

  /** The smoothing multiplier k = 2 / (period + 1). */
  function Multiplier(period: int): real
    requires period >= 1
  {
    2.0 / (period as real + 1.0)
  }

  /** EMA value at i >= period - 1: seeded with the mean of the first `period` values. */
  function EmaValue(values: seq<real>, period: int, i: nat): real
    requires 1 <= period <= i + 1 <= |values|
    decreases i
  {
    if i == period - 1 then Mean(values, 0, period)
    else values[i] * Multiplier(period) + EmaValue(values, period, i - 1) * (1.0 - Multiplier(period))
  }

  function EmaAt(values: seq<real>, period: int, i: nat): Option<real>
    requires i < |values|
  {
    if period <= 0 || i < period - 1 then None else Some(EmaValue(values, period, i))
  }

  function EmaSeries(values: seq<real>, period: int): (r: Series)
    ensures |r| == |values|
  {
    seq(|values|, i requires 0 <= i < |values| => EmaAt(values, period, i))
  }

  method Ema(values: seq<real>, period: int) returns (r: Series)
    ensures r == EmaSeries(values, period)
  {
    var out: Series := seq(|values|, _ => None);
    if period <= 0 {
      assert out == EmaSeries(values, period);
      return out;
    }
    var k := 2.0 / (period as real + 1.0);
    var emaPrev: Option<real> := None;
    for i := 0 to |values|
      invariant |out| == |values|
      invariant forall j :: 0 <= j < i ==> out[j] == EmaAt(values, period, j)
      invariant forall j :: i <= j < |values| ==> out[j] == None
      invariant i >= period ==> emaPrev == Some(EmaValue(values, period, i - 1))
    {
      var price := values[i];
      if i == period - 1 {
        // seed with the SMA of the first `period` values
        var sum := 0.0;
        for j := i - (period - 1) to i + 1
          invariant sum == Sum(values, 0, j)
        {
          sum := sum + values[j];
        }
        emaPrev := Some(sum / period as real);
        out := out[i := emaPrev];
      } else if i >= period {
        EmaStepUnfolds(values, period, i, emaPrev.value, k);
        var next := price * k + emaPrev.value * (1.0 - k);
        assert next == EmaValue(values, period, i);
        emaPrev := Some(next);
        out := out[i := emaPrev];
      }
    }
    assert out == EmaSeries(values, period);
    return out;
  }

  lemma EmaStepUnfolds(values: seq<real>, period: int, i: nat, prev: real, k: real)
    requires 1 <= period <= i < |values|
    requires prev == EmaValue(values, period, i - 1) && k == 2.0 / (period as real + 1.0)
    ensures EmaValue(values, period, i) == values[i] * k + prev * (1.0 - k)
  {
  }

  /**
   * The positional contract of EMA: same length as the input, absent exactly
   * before index period - 1 (everywhere when period <= 0), seeded with the
   * arithmetic mean of the first `period` values, then the recurrence
   * out[i] = values[i]*k + out[i-1]*(1-k).
   */
  lemma EmaShape(values: seq<real>, period: int)
    ensures |EmaSeries(values, period)| == |values|
    ensures forall i :: 0 <= i < |values| ==>
      (EmaSeries(values, period)[i].Some? <==> period >= 1 && i >= period - 1)
    ensures 1 <= period <= |values| ==>
      EmaSeries(values, period)[period - 1] == Some(Mean(values, 0, period))
    ensures forall i :: 1 <= period <= i < |values| ==>
      EmaSeries(values, period)[i].value ==
        values[i] * Multiplier(period) + EmaSeries(values, period)[i - 1].value * (1.0 - Multiplier(period))
  {
  }

  /** EMA's first value is the SMA at the same index. */
  lemma EmaSeedIsSma(values: seq<real>, period: int)
    requires 1 <= period <= |values|
    ensures EmaSeries(values, period)[period - 1] == SmaSeries(values, period)[period - 1]
  {
  }

  /** A constant input series yields the constant at every present EMA index. */
  lemma {:induction false} EmaOfConstant(values: seq<real>, period: int, i: nat, c: real)
    requires 1 <= period <= i + 1 <= |values|
    requires forall j :: 0 <= j < |values| ==> values[j] == c
    ensures EmaValue(values, period, i) == c
  {
    if i == period - 1 {
      MeanOfConstant(values, 0, period, c);
    } else {
      EmaOfConstant(values, period, i - 1, c);
      var k := Multiplier(period);
      assert c * k + c * (1.0 - k) == c;
    }
  }

  /** How much the value at j exceeds its predecessor. */
  function Rise(values: seq<real>, j: int): real
    requires 0 < j < |values|
  {
    values[j] - values[j - 1]
  }

  /** Every value exceeds its predecessor by b: a straight line of slope b. */
  predicate IsLinear(values: seq<real>, b: real)
  {
    forall j :: 0 < j < |values| ==> Rise(values, j) == b
  }

  /** The first n points of a line sum to n times the last of them less b * n * (n - 1) / 2. */
  lemma {:induction false} SumOfLinear(values: seq<real>, n: nat, b: real)
    requires 1 <= n <= |values| && IsLinear(values, b)
    ensures Sum(values, 0, n) == n as real * values[n - 1] - b * (n as real * (n as real - 1.0) / 2.0)
  {
    if n > 1 {
      SumOfLinear(values, n - 1, b);
      var h := (n - 1) as real;
      var v := values[n - 1];
      assert Rise(values, n - 1) == b;
      assert h * (v - b) - b * (h * (h - 1.0) / 2.0) + v == (h + 1.0) * v - b * ((h + 1.0) * h / 2.0);
    }
  }

  /** How far the EMA of a line of slope b trails the line: b * (period - 1) / 2. */
  function EmaLag(b: real, period: int): real
  {
    b * (period as real - 1.0) / 2.0
  }

  /** One EMA step taken one slope below the lag lands back on the lag. */
  lemma LagIsFixed(b: real, period: int)
    requires period >= 1
    ensures (b + EmaLag(b, period)) * (1.0 - Multiplier(period)) == EmaLag(b, period)
  {
    var p := period as real;
    var k := Multiplier(period);
    assert k * (p + 1.0) == 2.0;
    assert (1.0 - k) * (p + 1.0) == p - 1.0;
    assert b + EmaLag(b, period) == (b / 2.0) * (p + 1.0);
    calc {
      (b + EmaLag(b, period)) * (1.0 - k);
      (b / 2.0) * ((p + 1.0) * (1.0 - k));
      (b / 2.0) * (p - 1.0);
    }
  }

  /**
   * On a line of slope b the EMA is the line shifted down by b * (period - 1) / 2:
   * the seed is the mean of the first `period` points, and every step keeps the lag.
   */
  lemma {:induction false} EmaOfLinear(values: seq<real>, period: int, i: nat, b: real)
    requires 1 <= period <= i + 1 <= |values|
    requires IsLinear(values, b)
    ensures EmaValue(values, period, i) == values[i] - EmaLag(b, period)
  {
    var lag := EmaLag(b, period);
    if i == period - 1 {
      MeanOfLinear(values, period, b);
    } else {
      EmaOfLinear(values, period, i - 1, b);
      LagIsFixed(b, period);
      var k := Multiplier(period);
      var v := values[i];
      assert Rise(values, i) == b;
      assert EmaValue(values, period, i) == v * k + (v - (b + lag)) * (1.0 - k);
      assert (v - (b + lag)) * (1.0 - k) == v * (1.0 - k) - (b + lag) * (1.0 - k);
    }
  }

  /** The mean of the first `period` points of a line lies b * (period - 1) / 2 below the last of them. */
  lemma MeanOfLinear(values: seq<real>, period: int, b: real)
    requires 1 <= period <= |values|
    requires IsLinear(values, b)
    ensures Mean(values, 0, period) == values[period - 1] - EmaLag(b, period)
  {
    var p := period as real;
    var y := values[period - 1] - EmaLag(b, period);
    SumOfLinear(values, period, b);
    assert b * (p * (p - 1.0) / 2.0) == p * EmaLag(b, period);
    assert Sum(values, 0, period) == p * y;
    assert (p * y) / p == y;
  }

  /** When no input up to i exceeds m and the seed is below m, the EMA stays below m. */
  lemma {:induction false} EmaStaysBelow(values: seq<real>, period: int, i: nat, m: real)
    requires 2 <= period <= i + 1 <= |values|
    requires forall j :: 0 <= j <= i ==> values[j] <= m
    requires Mean(values, 0, period) < m
    ensures EmaValue(values, period, i) < m
  {
    if i > period - 1 {
      EmaStaysBelow(values, period, i - 1, m);
      var k := Multiplier(period);
      assert 0.0 < k < 1.0;
      assert values[i] * k <= m * k;
      assert EmaValue(values, period, i - 1) * (1.0 - k) < m * (1.0 - k);
    }
  }

  /** The mirror of EmaStaysBelow: inputs at least m and a seed above m keep the EMA above m. */
  lemma {:induction false} EmaStaysAbove(values: seq<real>, period: int, i: nat, m: real)
    requires 2 <= period <= i + 1 <= |values|
    requires forall j :: 0 <= j <= i ==> values[j] >= m
    requires Mean(values, 0, period) > m
    ensures EmaValue(values, period, i) > m
  {
    if i > period - 1 {
      EmaStaysAbove(values, period, i - 1, m);
      var k := Multiplier(period);
      assert 0.0 < k < 1.0;
      assert values[i] * k >= m * k;
      assert EmaValue(values, period, i - 1) * (1.0 - k) > m * (1.0 - k);
    }
  }

  // ---------------------------------------------------------------------
  // Wilder smoothing, shared by RSI and ATR
  // ---------------------------------------------------------------------

  /** One step of Wilder's smoothing: (prev * (period - 1) + x) / period. */
  function WilderStep(prev: real, x: real, period: int): real
    requires period >= 1
  {
    (prev * (period - 1) as real + x) / period as real
  }

  /** Wilder average of xs at index i: the plain mean of the first `period` entries, then Wilder steps. */
  function WilderAverage(xs: seq<real>, period: int, i: nat): real
    requires 1 <= period <= i + 1 <= |xs|
    decreases i
  {
    if i == period - 1 then Mean(xs, 0, period)
    else WilderStep(WilderAverage(xs, period, i - 1), xs[i], period)
  }

  /** Wilder smoothing of non-negative inputs is non-negative. */
  lemma {:induction false} WilderNonNegative(xs: seq<real>, period: int, i: nat)
    requires 1 <= period <= i + 1 <= |xs|
    requires forall j :: 0 <= j < |xs| ==> xs[j] >= 0.0
    ensures WilderAverage(xs, period, i) >= 0.0
  {
    if i == period - 1 {
      SumNonNegative(xs, 0, period);
    } else {
      WilderNonNegative(xs, period, i - 1);
      var prev := WilderAverage(xs, period, i - 1);
      assert prev * (period - 1) as real >= 0.0;
    }
  }

  /** A Wilder step from c with input c stays at c. */
  lemma WilderStepFixes(c: real, period: int)
    requires period >= 1
    ensures WilderStep(c, c, period) == c
  {
    var p := period as real;
    assert c * (period - 1) as real + c == c * p;
    assert (c * p) / p == c;
  }

  /** Wilder smoothing of a constant input is that constant. */
  lemma {:induction false} WilderOfConstant(xs: seq<real>, period: int, i: nat, c: real)
    requires 1 <= period <= i + 1 <= |xs|
    requires forall j :: 0 <= j < |xs| ==> xs[j] == c
    ensures WilderAverage(xs, period, i) == c
  {
    if i == period - 1 {
      MeanOfConstant(xs, 0, period, c);
    } else {
      WilderOfConstant(xs, period, i - 1, c);
      WilderStepFixes(c, period);
    }
  }

  /** A seed of at least m and later inputs of at least m keep Wilder smoothing at least m. */
  lemma {:induction false} WilderAtLeast(xs: seq<real>, period: int, i: nat, m: real)
    requires 1 <= period <= i + 1 <= |xs|
    requires Mean(xs, 0, period) >= m
    requires forall j :: period <= j <= i ==> xs[j] >= m
    ensures WilderAverage(xs, period, i) >= m
  {
    if i > period - 1 {
      WilderAtLeast(xs, period, i - 1, m);
      WilderStepAtLeast(WilderAverage(xs, period, i - 1), xs[i], period, m);
    }
  }

  /** A Wilder step between two values of at least m is at least m. */
  lemma WilderStepAtLeast(prev: real, x: real, period: int, m: real)
    requires period >= 1 && prev >= m && x >= m
    ensures WilderStep(prev, x, period) >= m
  {
    var p := period as real;
    var q := (period - 1) as real;
    assert (prev - m) * q >= 0.0;
    assert prev * q + x >= m * p;
    assert (prev * q + x) / p >= (m * p) / p;
  }

  lemma {:induction false} SumPositive(s: seq<real>, lo: int, hi: int)
    requires 0 <= lo < hi <= |s|
    requires forall j :: lo <= j < hi ==> s[j] > 0.0
    ensures Sum(s, lo, hi) > 0.0
    decreases hi - lo
  {
    if lo < hi - 1 {
      SumPositive(s, lo, hi - 1);
    }
  }

  /** Wilder smoothing of positive inputs is positive. */
  lemma {:induction false} WilderPositive(xs: seq<real>, period: int, i: nat)
    requires 1 <= period <= i + 1 <= |xs|
    requires forall j :: 0 <= j <= i ==> xs[j] > 0.0
    ensures WilderAverage(xs, period, i) > 0.0
  {
    if i == period - 1 {
      SumPositive(xs, 0, period);
    } else {
      WilderPositive(xs, period, i - 1);
      var prev := WilderAverage(xs, period, i - 1);
      assert prev * (period - 1) as real >= 0.0;
    }
  }

  // ---------------------------------------------------------------------
  // RSI (src/lib/indicators.ts:45-69)
  // ---------------------------------------------------------------------

  function Gain(change: real): real { if change >= 0.0 then change else 0.0 }

  function Loss(change: real): real { if change >= 0.0 then 0.0 else -change }

  /** Gains(closes)[j] is the gain of the change from closes[j] to closes[j+1]. */
  function Gains(closes: seq<real>): (g: seq<real>)
    ensures |g| == if closes == [] then 0 else |closes| - 1
    ensures forall j :: 0 <= j < |g| ==> g[j] >= 0.0
  {
    seq(if closes == [] then 0 else |closes| - 1, j requires 0 <= j < |closes| - 1 => Gain(closes[j + 1] - closes[j]))
  }

  function Losses(closes: seq<real>): (l: seq<real>)
    ensures |l| == if closes == [] then 0 else |closes| - 1
    ensures forall j :: 0 <= j < |l| ==> l[j] >= 0.0
  {
    seq(if closes == [] then 0 else |closes| - 1, j requires 0 <= j < |closes| - 1 => Loss(closes[j + 1] - closes[j]))
  }

  /** The relative strength index from an average gain and an average loss. */
  function RsIndex(avgGain: real, avgLoss: real): (rsi: real)
    requires avgGain >= 0.0 && avgLoss >= 0.0
    ensures 0.0 <= rsi <= 100.0
    ensures rsi == 100.0 <==> avgLoss == 0.0
    ensures rsi == 0.0 <==> avgGain == 0.0 && avgLoss > 0.0
  {
    if avgLoss == 0.0 then 100.0
    else
      var rs := avgGain / avgLoss;
      assert rs >= 0.0;
      assert 0.0 < 100.0 / (1.0 + rs) <= 100.0;
      assert 100.0 / (1.0 + rs) == 100.0 <==> rs == 0.0;
      100.0 - 100.0 / (1.0 + rs)
  }

  /** RSI at index i >= period: the relative strength index of the Wilder-smoothed gains and losses up to i. */
  function RsiValue(closes: seq<real>, period: int, i: nat): real
    requires 1 <= period <= i < |closes|
  {
    WilderNonNegative(Gains(closes), period, i - 1);
    WilderNonNegative(Losses(closes), period, i - 1);
    RsIndex(WilderAverage(Gains(closes), period, i - 1), WilderAverage(Losses(closes), period, i - 1))
  }

  /** Entry i of RSI: present from index `period` on. */
  function RsiAt(closes: seq<real>, period: int, i: nat): Option<real>
    requires i < |closes|
  {
    if period <= 0 || i < period then None else Some(RsiValue(closes, period, i))
  }

  function RsiSeries(closes: seq<real>, period: int): (r: Series)
    ensures |r| == |closes|
  {
    seq(|closes|, i requires 0 <= i < |closes| => RsiAt(closes, period, i))
  }

  /** The seed of RSI: the plain averages of the first `period` gains and losses give the value at index `period`. */
  lemma RsiSeed(closes: seq<real>, period: int, gains: real, losses: real)
    requires 1 <= period < |closes|
    requires gains == Sum(Gains(closes), 0, period) && losses == Sum(Losses(closes), 0, period)
    ensures gains / period as real == WilderAverage(Gains(closes), period, period - 1) >= 0.0
    ensures losses / period as real == WilderAverage(Losses(closes), period, period - 1) >= 0.0
    ensures RsiValue(closes, period, period) == RsIndex(gains / period as real, losses / period as real)
  {
    WilderNonNegative(Gains(closes), period, period - 1);
    WilderNonNegative(Losses(closes), period, period - 1);
  }

  /** One Wilder step of RSI: the updated averages give the value at index i. */
  lemma RsiStep(closes: seq<real>, period: int, i: nat, avgGain: real, avgLoss: real)
    requires 1 <= period < i < |closes|
    requires avgGain == WilderAverage(Gains(closes), period, i - 2)
    requires avgLoss == WilderAverage(Losses(closes), period, i - 2)
    ensures var change := closes[i] - closes[i - 1];
      var nextGain := WilderStep(avgGain, Max(change, 0.0), period);
      var nextLoss := WilderStep(avgLoss, Max(-change, 0.0), period);
      && nextGain == WilderAverage(Gains(closes), period, i - 1) >= 0.0
      && nextLoss == WilderAverage(Losses(closes), period, i - 1) >= 0.0
      && RsiValue(closes, period, i) == RsIndex(nextGain, nextLoss)
  {
    WilderNonNegative(Gains(closes), period, i - 1);
    WilderNonNegative(Losses(closes), period, i - 1);
  }

  /** The first loop of RSI: the total gain and the total loss over the first `period` changes. */
  method ChangeTotals(closes: seq<real>, period: int) returns (gains: real, losses: real)
    requires 1 <= period < |closes|
    ensures gains == Sum(Gains(closes), 0, period)
    ensures losses == Sum(Losses(closes), 0, period)
  {
    ghost var gs, ls := Gains(closes), Losses(closes);
    gains, losses := 0.0, 0.0;
    for i := 1 to period + 1
      invariant gains == Sum(gs, 0, i - 1)
      invariant losses == Sum(ls, 0, i - 1)
    {
      var change := closes[i] - closes[i - 1];
      assert gs[i - 1] == Gain(change) && ls[i - 1] == Loss(change);
      if change >= 0.0 {
        gains := gains + change;
      } else {
        losses := losses - change; // negative change: add its absolute value
      }
    }
  }

  method Rsi(closes: seq<real>, period: int) returns (r: Series)
    ensures r == RsiSeries(closes, period)
  {
    var out: Series := seq(|closes|, _ => None);
    if period <= 0 || |closes| < period + 1 {
      assert out == RsiSeries(closes, period);
      return out;
    }
    ghost var gs, ls := Gains(closes), Losses(closes);
    var gains, losses := ChangeTotals(closes, period);
    var avgGain := gains / period as real;
    var avgLoss := losses / period as real;
    assert avgGain == WilderAverage(gs, period, period - 1) >= 0.0
      && avgLoss == WilderAverage(ls, period, period - 1) >= 0.0
      && RsiAt(closes, period, period) == Some(RsIndex(avgGain, avgLoss))
    by {
      RsiSeed(closes, period, gains, losses);
    }
    out := out[period := Some(RsIndex(avgGain, avgLoss))];
    r := RsiSmooth(closes, period, out, avgGain, avgLoss);
  }

  /** The second loop of RSI: Wilder steps from index period + 1 on, filling the rest of the output. */
  method RsiSmooth(closes: seq<real>, period: int, seeded: Series, seedGain: real, seedLoss: real) returns (out: Series)
    requires 1 <= period < |closes| == |seeded|
    requires seedGain == WilderAverage(Gains(closes), period, period - 1)
    requires seedLoss == WilderAverage(Losses(closes), period, period - 1)
    requires forall j :: 0 <= j <= period ==> seeded[j] == RsiAt(closes, period, j)
    ensures out == RsiSeries(closes, period)
  {
    ghost var gs, ls := Gains(closes), Losses(closes);
    out := seeded;
    var avgGain, avgLoss := seedGain, seedLoss;
    for i := period + 1 to |closes|
      invariant |out| == |closes|
      invariant avgGain == WilderAverage(gs, period, i - 2)
      invariant avgLoss == WilderAverage(ls, period, i - 2)
      invariant forall j :: 0 <= j < i ==> out[j] == RsiAt(closes, period, j)
    {
      var change := closes[i] - closes[i - 1];
      var gain := Max(change, 0.0);
      var loss := Max(-change, 0.0);
      assert WilderStep(avgGain, gain, period) == WilderAverage(gs, period, i - 1) >= 0.0
        && WilderStep(avgLoss, loss, period) == WilderAverage(ls, period, i - 1) >= 0.0
        && RsiAt(closes, period, i) == Some(RsIndex(WilderStep(avgGain, gain, period), WilderStep(avgLoss, loss, period)))
      by {
        RsiStep(closes, period, i, avgGain, avgLoss);
      }
      avgGain := WilderStep(avgGain, gain, period);
      avgLoss := WilderStep(avgLoss, loss, period);
      out := out[i := Some(RsIndex(avgGain, avgLoss))];
    }
    assert out == RsiSeries(closes, period) by {
      assert forall j :: 0 <= j < |closes| ==> out[j] == RsiAt(closes, period, j);
    }
  }


  /**
   * RSI is absent exactly below index `period`; in particular it is absent
   * everywhere when period <= 0 or there are fewer than period + 1 closes.
   */
  lemma RsiShape(closes: seq<real>, period: int)
    ensures |RsiSeries(closes, period)| == |closes|
    ensures forall i :: 0 <= i < |closes| ==>
      (RsiSeries(closes, period)[i].Some? <==> period >= 1 && i >= period)
    ensures period <= 0 || |closes| < period + 1 ==>
      forall i :: 0 <= i < |closes| ==> RsiSeries(closes, period)[i] == None
  {
  }

  /** Every present RSI value lies in [0, 100]. */
  lemma RsiInRange(closes: seq<real>, period: int)
    ensures forall i :: 0 <= i < |closes| && RsiSeries(closes, period)[i].Some? ==>
      0.0 <= RsiSeries(closes, period)[i].value <= 100.0
  {
    forall i | 0 <= i < |closes| && RsiSeries(closes, period)[i].Some?
      ensures 0.0 <= RsiSeries(closes, period)[i].value <= 100.0
    {
      WilderNonNegative(Gains(closes), period, i - 1);
      WilderNonNegative(Losses(closes), period, i - 1);
    }
  }

  /**
   * When no close is below its predecessor the average loss is 0, so every
   * present RSI value is exactly 100; a flat series is the special case.
   */
  lemma RsiOfNonDecreasing(closes: seq<real>, period: int)
    requires forall j :: 0 < j < |closes| ==> closes[j - 1] <= closes[j]
    ensures forall i :: 0 <= i < |closes| && RsiSeries(closes, period)[i].Some? ==>
      RsiSeries(closes, period)[i].value == 100.0
  {
    var ls := Losses(closes);
    forall j | 0 <= j < |ls| ensures ls[j] == 0.0 {
      assert closes[j] <= closes[j + 1];
    }
    forall i | 0 <= i < |closes| && RsiSeries(closes, period)[i].Some?
      ensures RsiSeries(closes, period)[i].value == 100.0
    {
      RsiWithoutLosses(closes, period, i);
    }
  }

  /** With no losses the smoothed loss is 0, so RSI is 100. */
  lemma RsiWithoutLosses(closes: seq<real>, period: int, i: nat)
    requires 1 <= period <= i < |closes|
    requires forall j :: 0 <= j < |Losses(closes)| ==> Losses(closes)[j] == 0.0
    ensures RsiValue(closes, period, i) == 100.0
  {
    WilderOfConstant(Losses(closes), period, i - 1, 0.0);
  }

  /**
   * When every close is below its predecessor there are no gains and every
   * average loss is positive, so every present RSI value is exactly 0.
   */
  lemma RsiOfFalling(closes: seq<real>, period: int)
    requires forall j :: 0 < j < |closes| ==> closes[j] < closes[j - 1]
    ensures forall i :: 0 <= i < |closes| && RsiSeries(closes, period)[i].Some? ==>
      RsiSeries(closes, period)[i].value == 0.0
  {
    var gs, ls := Gains(closes), Losses(closes);
    forall j | 0 <= j < |gs| ensures gs[j] == 0.0 && ls[j] > 0.0 {
      assert closes[j + 1] < closes[j];
    }
    forall i | 0 <= i < |closes| && RsiSeries(closes, period)[i].Some?
      ensures RsiSeries(closes, period)[i].value == 0.0
    {
      RsiWithoutGains(closes, period, i);
    }
  }

  /** With no gains and only positive losses the smoothed gain is 0 and the smoothed loss positive, so RSI is 0. */
  lemma RsiWithoutGains(closes: seq<real>, period: int, i: nat)
    requires 1 <= period <= i < |closes|
    requires forall j :: 0 <= j < |Gains(closes)| ==> Gains(closes)[j] == 0.0 && Losses(closes)[j] > 0.0
    ensures RsiValue(closes, period, i) == 0.0
  {
    WilderOfConstant(Gains(closes), period, i - 1, 0.0);
    WilderPositive(Losses(closes), period, i - 1);
  }


  // ---------------------------------------------------------------------
  // MACD (src/lib/indicators.ts:74-100)
  // ---------------------------------------------------------------------

  /** a - b where both are present, absent otherwise. */
  function Difference(a: Option<real>, b: Option<real>): Option<real>
  {
    if a.Some? && b.Some? then Some(a.value - b.value) else None
  }

  /** The series with absent entries replaced by 0 (the `map(v => v == null ? 0 : v)` step). */
  function ZeroFilled(s: Series): (r: seq<real>)
    ensures |r| == |s|
  {
    seq(|s|, i requires 0 <= i < |s| => if s[i].None? then 0.0 else s[i].value)
  }

  function MacdLine(closes: seq<real>, fast: int, slow: int): (line: Series)
    ensures |line| == |closes|
  {
    var emaFast := EmaSeries(closes, fast);
    var emaSlow := EmaSeries(closes, slow);
    seq(|closes|, i requires 0 <= i < |closes| => Difference(emaFast[i], emaSlow[i]))
  }

  /** The histogram: line - signal wherever both are present. */
  function HistogramOf(line: Series, signal: Series): (h: Series)
    requires |signal| == |line|
    ensures |h| == |line|
  {
    seq(|line|, i requires 0 <= i < |line| => Difference(line[i], signal[i]))
  }

  /** The MACD line, its signal line (EMA of the zero-filled line) and the histogram. */
  function MacdOf(closes: seq<real>, fast: int, slow: int, signalPeriod: int): Macd
  {
    var line := MacdLine(closes, fast, slow);
    var signal := EmaSeries(ZeroFilled(line), signalPeriod);
    Macd(line, signal, HistogramOf(line, signal))
  }

  method MacdSeries(closes: seq<real>, fast: int, slow: int, signalPeriod: int) returns (m: Macd)
    ensures m == MacdOf(closes, fast, slow, signalPeriod)
  {
    var emaFast := Ema(closes, fast);
    var emaSlow := Ema(closes, slow);
    var macd: Series := seq(|closes|, _ => None);
    for i := 0 to |closes|
      invariant |macd| == |closes|
      invariant forall j :: 0 <= j < i ==> macd[j] == Difference(emaFast[j], emaSlow[j])
      invariant forall j :: i <= j < |closes| ==> macd[j] == None
    {
      if emaFast[i].Some? && emaSlow[i].Some? {
        macd := macd[i := Some(emaFast[i].value - emaSlow[i].value)];
      }
    }
    assert macd == MacdLine(closes, fast, slow);

    var macdNumbers := ZeroFilled(macd);
    var signal := Ema(macdNumbers, signalPeriod);
    var histogram: Series := seq(|closes|, _ => None);
    for i := 0 to |closes|
      invariant |histogram| == |closes|
      invariant forall j :: 0 <= j < i ==> histogram[j] == Difference(macd[j], signal[j])
      invariant forall j :: i <= j < |closes| ==> histogram[j] == None
    {
      if macd[i].Some? && signal[i].Some? {
        histogram := histogram[i := Some(macd[i].value - signal[i].value)];
      }
    }
    assert histogram == HistogramOf(macd, signal);
    m := Macd(macd, signal, histogram);
  }

  /**
   * All three MACD series have the input's length; the MACD line is present
   * exactly where both EMAs are (from index max(fast, slow) - 1 on) and is
   * their difference; the signal line is present from signalPeriod - 1 on;
   * the histogram is present exactly where line and signal both are, and is
   * their difference.
   */
  lemma MacdShape(closes: seq<real>, fast: int, slow: int, signalPeriod: int)
    ensures var m := MacdOf(closes, fast, slow, signalPeriod);
      |m.macd| == |closes| && |m.signal| == |closes| && |m.histogram| == |closes|
    ensures var m := MacdOf(closes, fast, slow, signalPeriod);
      forall i :: 0 <= i < |closes| ==>
        (m.macd[i].Some? <==> fast >= 1 && slow >= 1 && i >= fast - 1 && i >= slow - 1)
    ensures var m := MacdOf(closes, fast, slow, signalPeriod);
      forall i :: 0 <= i < |closes| && m.macd[i].Some? ==>
        m.macd[i].value == EmaSeries(closes, fast)[i].value - EmaSeries(closes, slow)[i].value
    ensures var m := MacdOf(closes, fast, slow, signalPeriod);
      forall i :: 0 <= i < |closes| ==> (m.signal[i].Some? <==> signalPeriod >= 1 && i >= signalPeriod - 1)
    ensures var m := MacdOf(closes, fast, slow, signalPeriod);
      forall i :: 0 <= i < |closes| ==>
        (m.histogram[i].Some? <==> m.macd[i].Some? && m.signal[i].Some?) &&
        (m.histogram[i].Some? ==> m.histogram[i].value == m.macd[i].value - m.signal[i].value)
  {
    EmaShape(closes, fast);
    EmaShape(closes, slow);
    EmaShape(ZeroFilled(MacdLine(closes, fast, slow)), signalPeriod);
  }

  // ---------------------------------------------------------------------
  // ATR (src/lib/indicators.ts:105-134)
  // ---------------------------------------------------------------------

  /** The true range of a bar: the largest of its span and its distances from the previous close. */
  function TrueRange(c: Candle, prevClose: real): (tr: real)
    ensures tr >= 0.0
    ensures tr >= c.high - c.low && tr >= Abs(c.high - prevClose) && tr >= Abs(c.low - prevClose)
    ensures tr == c.high - c.low || tr == Abs(c.high - prevClose) || tr == Abs(c.low - prevClose)
  {
    Max(Max(c.high - c.low, Abs(c.high - prevClose)), Abs(c.low - prevClose))
  }

  /** True ranges of all bars; the first bar is measured against its own close. */
  function TrueRanges(candles: seq<Candle>): (trs: seq<real>)
    ensures |trs| == |candles|
    ensures forall i :: 0 <= i < |trs| ==> trs[i] >= 0.0
  {
    seq(|candles|, i requires 0 <= i < |candles| =>
      TrueRange(candles[i], if i > 0 then candles[i - 1].close else candles[i].close))
  }

  /** Entry i of ATR: the Wilder average of the true ranges, present from index period - 1 on. */
  function AtrAt(candles: seq<Candle>, period: int, i: nat): Option<real>
    requires period >= 1 && i < |candles|
  {
    if i < period - 1 then None else Some(WilderAverage(TrueRanges(candles), period, i))
  }

  function AtrSeries(candles: seq<Candle>, period: int): (r: Series)
    requires period >= 1
    ensures |r| == |candles|
  {
    seq(|candles|, i requires 0 <= i < |candles| => AtrAt(candles, period, i))
  }

  /** The first loop of ATR: the true range of every bar, pushed in order. */
  method TrueRangeList(candles: seq<Candle>) returns (trs: seq<real>)
    ensures trs == TrueRanges(candles)
  {
    trs := [];
    for i := 0 to |candles|
      invariant trs == TrueRanges(candles)[..i]
    {
      var c := candles[i];
      var prevClose := if i > 0 then candles[i - 1].close else c.close;
      var tr := TrueRange(c, prevClose);
      trs := trs + [tr];
    }
  }

  method Atr(candles: seq<Candle>, period: int) returns (r: Series)
    requires period >= 1
    ensures r == AtrSeries(candles, period)
  {
    var out: Series := seq(|candles|, _ => None);
    if |candles| < period {
      assert out == AtrSeries(candles, period);
      return out;
    }
    var trs := TrueRangeList(candles);

    // Wilder's smoothing
    var atr := 0.0;
    for i := 0 to |trs|
      invariant |out| == |candles|
      invariant i >= period ==> atr == WilderAverage(trs, period, i - 1)
      invariant forall j :: 0 <= j < i ==> out[j] == AtrAt(candles, period, j)
      invariant forall j :: i <= j < |candles| ==> out[j] == None
    {
      if i == period - 1 {
        atr := Sum(trs, 0, period) / period as real;
        out := out[i := Some(atr)];
      } else if i >= period {
        assert WilderStep(atr, trs[i], period) == WilderAverage(trs, period, i);
        atr := WilderStep(atr, trs[i], period);
        out := out[i := Some(atr)];
      }
    }
    assert out == AtrSeries(candles, period) by {
      assert forall j :: 0 <= j < |candles| ==> out[j] == AtrAt(candles, period, j);
    }
    return out;
  }

  /**
   * ATR is absent exactly below index period - 1 (so everywhere when there
   * are fewer than `period` candles); its first value is the mean of the
   * first `period` true ranges; later values follow Wilder's recurrence.
   */
  lemma AtrShape(candles: seq<Candle>, period: int)
    requires period >= 1
    ensures forall i :: 0 <= i < |candles| ==> (AtrSeries(candles, period)[i].Some? <==> i >= period - 1)
    ensures |candles| < period ==> forall i :: 0 <= i < |candles| ==> AtrSeries(candles, period)[i] == None
    ensures period <= |candles| ==>
      AtrSeries(candles, period)[period - 1] == Some(Mean(TrueRanges(candles), 0, period))
    ensures forall i :: period <= i < |candles| ==>
      AtrSeries(candles, period)[i] ==
        Some(WilderStep(AtrSeries(candles, period)[i - 1].value, TrueRanges(candles)[i], period))
  {
  }

  /** Every present ATR value is at least 0. */
  lemma AtrNonNegative(candles: seq<Candle>, period: int)
    requires period >= 1
    ensures forall i :: 0 <= i < |candles| && AtrSeries(candles, period)[i].Some? ==>
      AtrSeries(candles, period)[i].value >= 0.0
  {
    forall i | 0 <= i < |candles| && AtrSeries(candles, period)[i].Some?
      ensures AtrSeries(candles, period)[i].value >= 0.0
    {
      WilderNonNegative(TrueRanges(candles), period, i);
    }
  }

  // ---------------------------------------------------------------------
  // Crossovers at the latest bar (src/lib/indicators.ts:139-149)
  // ---------------------------------------------------------------------

  /** Entry i of s, absent past either end (JavaScript reads `undefined` there). */
  function At(s: Series, i: int): Option<real>
  {
    if 0 <= i < |s| then s[i] else None
  }

  /**
   * a crossed above b at the latest bar of a: the gap a - b was at most 0 one
   * bar back and is positive now, both gaps being defined.
   */
  function CrossedAbove(a: Series, b: Series): (r: bool)
    ensures r <==> (
      && |a| >= 2
      && Difference(At(a, |a| - 2), At(b, |a| - 2)).Some? && Difference(At(a, |a| - 2), At(b, |a| - 2)).value <= 0.0
      && Difference(At(a, |a| - 1), At(b, |a| - 1)).Some? && Difference(At(a, |a| - 1), At(b, |a| - 1)).value > 0.0)
  {
    var n := |a| - 1;
    if n < 1 || At(a, n).None? || At(b, n).None? || At(a, n - 1).None? || At(b, n - 1).None? then false
    else At(a, n - 1).value <= At(b, n - 1).value && At(a, n).value > At(b, n).value
  }

  /** The mirror of CrossedAbove: the gap a - b was at least 0 one bar back and is negative now. */
  function CrossedBelow(a: Series, b: Series): (r: bool)
    ensures r <==> (
      && |a| >= 2
      && Difference(At(a, |a| - 2), At(b, |a| - 2)).Some? && Difference(At(a, |a| - 2), At(b, |a| - 2)).value >= 0.0
      && Difference(At(a, |a| - 1), At(b, |a| - 1)).Some? && Difference(At(a, |a| - 1), At(b, |a| - 1)).value < 0.0)
  {
    var n := |a| - 1;
    if n < 1 || At(a, n).None? || At(b, n).None? || At(a, n - 1).None? || At(b, n - 1).None? then false
    else At(a, n - 1).value >= At(b, n - 1).value && At(a, n).value < At(b, n).value
  }

  /** The two crossovers never hold together. */
  lemma CrossesExclusive(a: Series, b: Series)
    ensures !(CrossedAbove(a, b) && CrossedBelow(a, b))
  {
  }
}
