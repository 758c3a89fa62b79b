/** `check_trading_signals`: the stateless rule that maps the last row of the
    indicator frame to BUY, SELL or no signal. */
module Signals {
  import opened Options
  import opened Indicators

  datatype Signal = Buy | Sell

  /** The least number of rows the rule looks at. */
  const MinRows: nat := 50

  /** pandas' `a > b` on two cells: false whenever either is NaN. */
  predicate Greater(a: Option<real>, b: Option<real>)
  {
    match (a, b)
    case (Some(x), Some(y)) => x > y
    case _ => false
  }

  /** BUY on a row: SMA20 above SMA50, RSI below 70, close above SMA20 (all strict,
      all three columns present). */
  predicate BuyRule(row: Row)
  {
    row.sma20.Some? && row.sma50.Some? && row.rsi.Some? &&
    row.sma20.value > row.sma50.value && row.rsi.value < 70.0 && row.candle.close > row.sma20.value
  }

  /** SELL on a row: SMA20 below SMA50, RSI above 30, close below SMA20. */
  predicate SellRule(row: Row)
  {
    row.sma20.Some? && row.sma50.Some? && row.rsi.Some? &&
    row.sma20.value < row.sma50.value && row.rsi.value > 30.0 && row.candle.close < row.sma20.value
  }

  /** The two rules contradict each other on SMA20 against SMA50. */
  lemma BuyAndSellExclusive(row: Row)
    ensures !(BuyRule(row) && SellRule(row))
  {
  }

  /** `check_trading_signals(df)`: no signal below 50 rows; otherwise BUY, else SELL,
      else none, judged on the last row. */
  function CheckTradingSignals(frame: seq<Row>): (r: Option<Signal>)
    ensures |frame| < MinRows ==> r == None
    ensures r == Some(Buy) <==> |frame| >= MinRows && BuyRule(frame[|frame| - 1])
    ensures r == Some(Sell) <==> |frame| >= MinRows && SellRule(frame[|frame| - 1])
    ensures r == None <==> (|frame| < MinRows || (!BuyRule(frame[|frame| - 1]) && !SellRule(frame[|frame| - 1])))
  {
    if |frame| < MinRows then None
    else
      var last := frame[|frame| - 1];
      var close := Some(last.candle.close);
      var buy := Greater(last.sma20, last.sma50) && Greater(Some(70.0), last.rsi) && Greater(close, last.sma20);
      var sell := Greater(last.sma50, last.sma20) && Greater(last.rsi, Some(30.0)) && Greater(last.sma20, close);
      if buy then Some(Buy) else if sell then Some(Sell) else None
  }

  /** On a frame computed from at least 50 candles both averages of the last row are
      present: BUY holds exactly when the 20-bar mean close exceeds the 50-bar mean,
      the last close exceeds the 20-bar mean and the RSI is present and below 70. */
  lemma SignalOnCandles(candles: seq<Candle>)
    requires |candles| >= MinRows
    ensures var n := |candles|;
      var c := Closes(candles);
      var fast := Mean(c[n - FastWindow ..]);
      var slow := Mean(c[n - SlowWindow ..]);
      var rsi := Rsi(c, n - 1);
      var r := CheckTradingSignals(CalculateIndicators(candles));
      (r == Some(Buy) <==> fast > slow && rsi.Some? && rsi.value < 70.0 && candles[n - 1].close > fast) &&
      (r == Some(Sell) <==> fast < slow && rsi.Some? && rsi.value > 30.0 && candles[n - 1].close < fast)
  {
    var n := |candles|;
    var c := Closes(candles);
    var last := CalculateIndicators(candles)[n - 1];
    assert c[n - FastWindow .. n] == c[n - FastWindow ..];
    assert c[n - SlowWindow .. n] == c[n - SlowWindow ..];
    assert last.sma20 == Some(Mean(c[n - FastWindow ..]));
    assert last.sma50 == Some(Mean(c[n - SlowWindow ..]));
    assert last.rsi == Rsi(c, n - 1);
  }

  /** Fewer than 50 candles never give a signal. */
  lemma ShortHistoryNoSignal(candles: seq<Candle>)
    requires |candles| < MinRows
    ensures CheckTradingSignals(CalculateIndicators(candles)) == None
  {
  }

  /** Over a 14-bar window in which no close fell below the close before it, the RSI is 100 (or NaN when
      nothing moved at all). */
  lemma RsiWithoutLoss(closes: seq<real>, i: nat)
    requires RsiWindow <= i + 1 <= |closes|
    requires forall k :: i + 1 - RsiWindow <= k <= i && k >= 1 ==> closes[k - 1] <= closes[k]
    ensures Rsi(closes, i) == None || Rsi(closes, i) == Some(100.0)
  {
    var ls := Losses(closes);
    forall k | i + 1 - RsiWindow <= k <= i ensures 0.0 <= ls[k] <= 0.0 {
      assert ls[k] == Loss(closes, k);
    }
    RollingMeanWithin(ls, RsiWindow, i, 0.0, 0.0);
  }

  /** When none of the last 14 closes fell below the close before it, the mean loss is
      zero, so the RSI is 100 or NaN and the `RSI < 70` clause forbids BUY. In
      particular a steadily rising market never gives BUY. */
  lemma {:induction false} NoLossNoBuy(candles: seq<Candle>)
    requires |candles| >= MinRows
    requires forall k :: |candles| - RsiWindow <= k < |candles| ==> candles[k - 1].close <= candles[k].close
    ensures CheckTradingSignals(CalculateIndicators(candles)) != Some(Buy)
  {
    var n := |candles|;
    var c := Closes(candles);
    forall k | n - RsiWindow <= k < n ensures c[k - 1] <= c[k] {
      assert c[k] == candles[k].close && c[k - 1] == candles[k - 1].close;
    }
    RsiWithoutLoss(c, n - 1);
    var rsi := Rsi(c, n - 1);
    assert rsi.Some? ==> !(rsi.value < 70.0);
    SignalOnCandles(candles);
  }
}
