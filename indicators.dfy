/** The indicator columns `calculate_indicators` adds to the candle frame (SMA20,
    SMA50, RSI over 14 bars) and the average true range of `calculate_atr`.
    Every column is a pure function of the candle sequence; pandas' NaN is `None`. */
module Indicators {
  import opened Options

  /** One row of `rateInfos` as the venue returns it. */
  datatype Candle = Candle(ctm: int, open: real, high: real, low: real, close: real, vol: real)

  /** One row of the frame `calculate_indicators` returns: the candle and the three
      columns it adds. `None` is NaN: a warm-up row, or an RSI of 0/0. */
  datatype Row = Row(candle: Candle, sma20: Option<real>, sma50: Option<real>, rsi: Option<real>)

  const FastWindow: nat := 20
  const SlowWindow: nat := 50
  const RsiWindow: nat := 14

  /** The `close` column. */
  function Closes(candles: seq<Candle>): (r: seq<real>)
    ensures |r| == |candles|
    ensures forall i :: 0 <= i < |r| ==> r[i] == candles[i].close
  {
    seq(|candles|, i requires 0 <= i < |candles| => candles[i].close)
  }

  function Sum(s: seq<real>): real
  {
    if s == [] then 0.0 else s[0] + Sum(s[1..])
  }

  /** A sum of |s| terms, each at least lo, is at least |s| * lo. */
  lemma {:induction false} SumAtLeast(s: seq<real>, lo: real)
    requires forall k :: 0 <= k < |s| ==> lo <= s[k]
    ensures |s| as real * lo <= Sum(s)
  {
    if s != [] {
      SumAtLeast(s[1..], lo);
    }
  }

  /** A sum of |s| terms, each at most hi, is at most |s| * hi. */
  lemma {:induction false} SumAtMost(s: seq<real>, hi: real)
    requires forall k :: 0 <= k < |s| ==> s[k] <= hi
    ensures Sum(s) <= |s| as real * hi
  {
    if s != [] {
      SumAtMost(s[1..], hi);
    }
  }

  /** The arithmetic mean of a non-empty window. */
  function Mean(s: seq<real>): real
    requires |s| > 0
  {
    Sum(s) / |s| as real
  }

  /** A mean lies between any lower and upper bound of its terms. */
  lemma MeanWithin(s: seq<real>, lo: real, hi: real)
    requires |s| > 0
    requires forall k :: 0 <= k < |s| ==> lo <= s[k] <= hi
    ensures lo <= Mean(s) <= hi
  {
    var n := |s| as real;
    SumAtLeast(s, lo);
    SumAtMost(s, hi);
    assert Mean(s) * n == Sum(s);
  }

  /** `xs.rolling(window=w).mean()` at index i: the mean of xs[i-w+1..i], and NaN
      while fewer than w values exist (pandas' default min_periods is the window). */
  function RollingMean(xs: seq<real>, w: nat, i: nat): (r: Option<real>)
    requires w >= 1 && i < |xs|
    ensures r.Some? <==> i + 1 >= w
  {
    if i + 1 < w then None else Some(Mean(xs[i + 1 - w .. i + 1]))
  }

  /** A rolling mean lies between any bounds of the values in its window. */
  lemma RollingMeanWithin(xs: seq<real>, w: nat, i: nat, lo: real, hi: real)
    requires w >= 1 && w <= i + 1 < |xs| + 1
    requires forall k :: i + 1 - w <= k <= i ==> lo <= xs[k] <= hi
    ensures RollingMean(xs, w, i) == Some(Mean(xs[i + 1 - w .. i + 1]))
    ensures lo <= RollingMean(xs, w, i).value <= hi
  {
    var window := xs[i + 1 - w .. i + 1];
    forall k | 0 <= k < |window| ensures lo <= window[k] <= hi {
      assert window[k] == xs[i + 1 - w + k];
    }
    MeanWithin(window, lo, hi);
  }

  /** A rolling mean of non-negative values is non-negative. */
  lemma RollingMeanNonNegative(xs: seq<real>, w: nat, i: nat)
    requires w >= 1 && i < |xs|
    requires forall k :: 0 <= k < |xs| ==> xs[k] >= 0.0
    ensures RollingMean(xs, w, i).Some? ==> RollingMean(xs, w, i).value >= 0.0
  {
    if i + 1 >= w {
      var window := xs[i + 1 - w .. i + 1];
      SumAtLeast(window, 0.0);
    }
  }

  /** `delta.where(delta > 0, 0)` at index i. The first delta is NaN, and NaN > 0 is
      false, so `where` replaces it by 0 as well. */
  function Gain(closes: seq<real>, i: nat): real
    requires i < |closes|
  {
    if i == 0 then 0.0
    else var d := closes[i] - closes[i - 1]; if d > 0.0 then d else 0.0
  }

  /** `-delta.where(delta < 0, 0)` at index i: the size of a fall, else 0. */
  function Loss(closes: seq<real>, i: nat): real
    requires i < |closes|
  {
    if i == 0 then 0.0
    else var d := closes[i] - closes[i - 1]; if d < 0.0 then -d else 0.0
  }

  /** Gain and loss split every close-to-close move: both are non-negative, at most
      one is non-zero, and gain - loss is the delta itself. */
  lemma GainLossSplit(closes: seq<real>, i: nat)
    requires 1 <= i < |closes|
    ensures Gain(closes, i) >= 0.0 && Loss(closes, i) >= 0.0
    ensures Gain(closes, i) == 0.0 || Loss(closes, i) == 0.0
    ensures Gain(closes, i) - Loss(closes, i) == closes[i] - closes[i - 1]
  {
  }

  function Gains(closes: seq<real>): (r: seq<real>)
    ensures |r| == |closes|
    ensures forall i :: 0 <= i < |r| ==> r[i] == Gain(closes, i) && r[i] >= 0.0
  {
    seq(|closes|, i requires 0 <= i < |closes| => Gain(closes, i))
  }

  function Losses(closes: seq<real>): (r: seq<real>)
    ensures |r| == |closes|
    ensures forall i :: 0 <= i < |r| ==> r[i] == Loss(closes, i) && r[i] >= 0.0
  {
    seq(|closes|, i requires 0 <= i < |closes| => Loss(closes, i))
  }

  /** `100 - (100 / (1 + rs))` with `rs = gain / loss`, where the 14-bar means of gain
      and loss are known: a zero mean loss makes rs infinite (RSI 100) when the mean
      gain is positive, and 0/0 (NaN) when it is zero as well. */
  function RsiFromMeans(meanGain: real, meanLoss: real): Option<real>
    requires meanGain >= 0.0 && meanLoss >= 0.0
  {
    if meanLoss > 0.0 then Some(100.0 - 100.0 / (1.0 + meanGain / meanLoss))
    else if meanGain > 0.0 then Some(100.0)
    else None
  }

  /** The `RSI` column at index i. */
  function Rsi(closes: seq<real>, i: nat): Option<real>
    requires i < |closes|
  {
    var g := RollingMean(Gains(closes), RsiWindow, i);
    var l := RollingMean(Losses(closes), RsiWindow, i);
    if g.None? || l.None? then None
    else
      RollingMeanNonNegative(Gains(closes), RsiWindow, i);
      RollingMeanNonNegative(Losses(closes), RsiWindow, i);
      RsiFromMeans(g.value, l.value)
  }

  /** With non-negative means the RSI lies in [0, 100], and below 100 when the mean
      loss is positive; it is 100 exactly when there is gain and no loss. */
  lemma RsiFromMeansBounds(meanGain: real, meanLoss: real)
    requires meanGain >= 0.0 && meanLoss >= 0.0
    ensures var r := RsiFromMeans(meanGain, meanLoss);
      (r.Some? <==> meanLoss > 0.0 || meanGain > 0.0) &&
      (r.Some? ==> 0.0 <= r.value <= 100.0) &&
      (meanLoss > 0.0 ==> r.value < 100.0) &&
      (meanLoss == 0.0 && meanGain > 0.0 ==> r == Some(100.0))
  {
    if meanLoss > 0.0 {
      var rs := meanGain / meanLoss;
      assert rs * meanLoss == meanGain;
      assert rs >= 0.0;
      var q := 100.0 / (1.0 + rs);
      assert q * (1.0 + rs) == 100.0;
      assert 0.0 < q <= 100.0;
    }
  }

  /** Every RSI value of a frame is in [0, 100]; where the window's mean loss is
      positive it is below 100. The column is NaN for the first 13 rows. */
  lemma RsiBounds(closes: seq<real>, i: nat)
    requires i < |closes|
    ensures Rsi(closes, i).Some? ==> i + 1 >= RsiWindow
    ensures Rsi(closes, i).Some? ==> 0.0 <= Rsi(closes, i).value <= 100.0
    ensures i + 1 >= RsiWindow && RollingMean(Losses(closes), RsiWindow, i).value > 0.0 ==>
      Rsi(closes, i).Some? && Rsi(closes, i).value < 100.0
  {
    if i + 1 >= RsiWindow {
      var gs, ls := Gains(closes), Losses(closes);
      RollingMeanNonNegative(gs, RsiWindow, i);
      RollingMeanNonNegative(ls, RsiWindow, i);
      RsiFromMeansBounds(RollingMean(gs, RsiWindow, i).value, RollingMean(ls, RsiWindow, i).value);
    }
  }

  /** `calculate_indicators`: the frame with SMA20, SMA50 and RSI added, one row per
      candle, in the candles' order. */
  function CalculateIndicators(candles: seq<Candle>): (r: seq<Row>)
    ensures |r| == |candles|
    ensures forall i :: 0 <= i < |r| ==> r[i].candle == candles[i]
    ensures forall i :: 0 <= i < |r| ==> (r[i].sma20.Some? <==> i + 1 >= FastWindow)
    ensures forall i :: 0 <= i < |r| ==> (r[i].sma50.Some? <==> i + 1 >= SlowWindow)
  {
    var c := Closes(candles);
    seq(|candles|, i requires 0 <= i < |candles| =>
      Row(candles[i], RollingMean(c, FastWindow, i), RollingMean(c, SlowWindow, i), Rsi(c, i)))
  }

  /** What one row of the indicator frame holds: SMA20 and SMA50 are the mean closes of
      the 20 and 50 bars ending at that row, and the RSI is the 14-bar RSI of the closes
      at that row, present only from row 13 on and then in [0, 100]. */
  lemma IndicatorRow(candles: seq<Candle>, i: nat)
    requires i < |candles|
    ensures var row := CalculateIndicators(candles)[i];
      (i + 1 >= FastWindow ==> row.sma20 == Some(Mean(Closes(candles)[i + 1 - FastWindow .. i + 1]))) &&
      (i + 1 >= SlowWindow ==> row.sma50 == Some(Mean(Closes(candles)[i + 1 - SlowWindow .. i + 1]))) &&
      row.rsi == Rsi(Closes(candles), i) &&
      (row.rsi.Some? ==> i + 1 >= RsiWindow && 0.0 <= row.rsi.value <= 100.0)
  {
    RsiBounds(Closes(candles), i);
  }

  function Abs(x: real): (r: real)
    ensures r >= 0.0 && (r == x || r == -x)
  {
    if x < 0.0 then -x else x
  }

  function Max3(a: real, b: real, c: real): (r: real)
    ensures r >= a && r >= b && r >= c
    ensures r == a || r == b || r == c
  {
    if a >= b && a >= c then a else if b >= c then b else c
  }

  /** The `tr` column of `calculate_atr`: the largest of |high - low|, |high - previous
      close| and |low - previous close|. On the first row the previous close is NaN
      and `max(axis=1)` skips NaN, leaving |high - low|. */
  function TrueRange(candles: seq<Candle>, i: nat): real
    requires i < |candles|
  {
    var c := candles[i];
    if i == 0 then Abs(c.high - c.low)
    else Max3(Abs(c.high - c.low), Abs(c.high - candles[i - 1].close), Abs(c.low - candles[i - 1].close))
  }

  /** The true range is never negative and never below the bar's own range; when the
      previous close lies inside the bar, it is exactly the bar's range. */
  lemma TrueRangeFacts(candles: seq<Candle>, i: nat)
    requires i < |candles|
    ensures TrueRange(candles, i) >= Abs(candles[i].high - candles[i].low) >= 0.0
    ensures i > 0 && candles[i].low <= candles[i - 1].close <= candles[i].high ==>
      TrueRange(candles, i) == candles[i].high - candles[i].low
  {
  }

  function TrueRanges(candles: seq<Candle>): (r: seq<real>)
    ensures |r| == |candles|
    ensures forall i :: 0 <= i < |r| ==> r[i] == TrueRange(candles, i) && r[i] >= 0.0
  {
    seq(|candles|, i requires 0 <= i < |candles| => TrueRange(candles, i))
  }

  const AtrFallback: real := 0.001

  /** `calculate_atr(df, period)`: the fallback 0.001 when there is no frame or fewer
      than `period` rows, else the last value of the `period`-bar rolling mean of the
      true range. */
  function CalculateAtr(df: Option<seq<Candle>>, period: nat): real
    requires period >= 1
  {
    if df.None? || |df.value| < period then AtrFallback
    else RollingMean(TrueRanges(df.value), period, |df.value| - 1).value
  }

  /** The ATR is the fallback on a short frame, and otherwise the mean true range of
      the last `period` bars, which is non-negative and at most the largest of them. */
  lemma AtrFacts(df: Option<seq<Candle>>, period: nat, hi: real)
    requires period >= 1
    requires df.Some? ==> forall k :: 0 <= k && |df.value| - period <= k < |df.value| ==> TrueRange(df.value, k) <= hi
    ensures df.None? || |df.value| < period ==> CalculateAtr(df, period) == AtrFallback
    ensures df.Some? && |df.value| >= period ==>
      CalculateAtr(df, period) == Mean(TrueRanges(df.value)[|df.value| - period ..]) &&
      0.0 <= CalculateAtr(df, period) <= hi
  {
    if df.Some? && |df.value| >= period {
      var n := |df.value|;
      var trs := TrueRanges(df.value);
      assert trs[n - period .. n] == trs[n - period ..];
      RollingMeanWithin(trs, period, n - 1, 0.0, hi);
    }
  }
}
