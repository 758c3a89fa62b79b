/** One iteration of `run_strategy`'s loop as a function of the venue's answers:
    connection check, reconciliation of an open position, candles, indicators,
    signal, and `execute_trade`. */
module Strategy {
  import opened Options
  import opened Indicators
  import opened Signals
  import opened Position
  import opened Orders

  /** The signal a fetched history yields (none when the fetch gave nothing). */
  function SignalOf(history: Option<seq<Candle>>): Option<Signal>
  {
    match history
    case None => None
    case Some(candles) => CheckTradingSignals(CalculateIndicators(candles))
  }

  /** One cycle: `connected` is what `check_connection()` answered and `reconnected`
      what `connect()` answered when asked; `trades` the open-trades reply,
      `history` the candles of `get_historical_data()`, `info` the `getSymbol` reply
      and `respond` the venue's answer to an order. The result is the new position
      fields and the order sent, if any. */
  function Cycle(s: BotState, connected: bool, reconnected: bool, trades: TradesReply,
                 history: Option<seq<Candle>>, info: Option<SymbolInfo>,
                 respond: Order -> TradeResponse, variant: BracketVariant, symbol: string): (BotState, Option<Order>)
  {
    if !connected && !reconnected then (s, None)
    else
      var s1 := Reconcile(s, trades);
      var signal := SignalOf(history);
      if signal.None? then (s1, None)
      else Execute(s1, signal, info, respond, variant, symbol)
  }

  /** What one cycle guarantees. Without a connection nothing happens. An order is only
      sent after reconciliation found the bot flat, from at least 50 candles, with the
      signal's side; the fields are then what the venue's answer makes of the
      reconciled state. While the venue still lists the held trade, the cycle sends
      nothing and changes nothing. Consistent fields stay consistent. Conversely, a
      connected cycle that finds the bot flat, a signal and a positive quote sends the
      bracket order of that signal. */
  lemma CycleFacts(s: BotState, connected: bool, reconnected: bool, trades: TradesReply,
                   history: Option<seq<Candle>>, info: Option<SymbolInfo>,
                   respond: Order -> TradeResponse, variant: BracketVariant, symbol: string)
    ensures var (s', sent) := Cycle(s, connected, reconnected, trades, history, info, respond, variant, symbol);
      (!connected && !reconnected ==> s' == s && sent == None) &&
      (sent.Some? ==>
        !Reconcile(s, trades).positionOpen &&
        history.Some? && |history.value| >= MinRows &&
        SignalOf(history).Some? &&
        sent.value.cmd == (if SignalOf(history) == Some(Buy) then BuyCmd else SellCmd) &&
        info.Some? && info.value.ask.GetOr(0.0) > 0.0 && info.value.bid.GetOr(0.0) > 0.0 &&
        sent.value == BuildOrder(SignalOf(history).value, info.value, variant, symbol) &&
        s' == ApplyResponse(Reconcile(s, trades), respond(sent.value))) &&
      (sent.None? && (connected || reconnected) ==> s' == Reconcile(s, trades)) &&
      (s.positionOpen && TradeIsOpen(s.currentOrderId, trades) ==> s' == s && sent == None) &&
      (Consistent(s) ==> Consistent(s')) &&
      ((connected || reconnected) && !Reconcile(s, trades).positionOpen && SignalOf(history).Some? &&
       info.Some? && info.value.ask.GetOr(0.0) > 0.0 && info.value.bid.GetOr(0.0) > 0.0 ==>
        sent == Some(BuildOrder(SignalOf(history).value, info.value, variant, symbol)) &&
        s' == ApplyResponse(Reconcile(s, trades), respond(sent.value)))
  {
    if connected || reconnected {
      var s1 := Reconcile(s, trades);
      if Consistent(s) {
        TransitionsKeepConsistent(s, trades, TradeResponse(false, None));
      }
      var signal := SignalOf(history);
      if signal.Some? {
        ExecuteFacts(s1, signal, info, respond, variant, symbol);
        var d := TradeDecision(s1.positionOpen, signal, info, variant, symbol);
        if d.Ok? {
          BracketLevels(signal.value, info.value, variant, symbol);
        }
      }
    }
  }

  /** The idempotence of reconciliation, at the level of the cycle: a connected cycle that
      sends nothing leaves a state that a second reconciliation against the same venue
      reply does not change. */
  lemma QuietCycleIsStable(s: BotState, connected: bool, reconnected: bool, trades: TradesReply,
                           history: Option<seq<Candle>>, info: Option<SymbolInfo>,
                           respond: Order -> TradeResponse, variant: BracketVariant, symbol: string)
    requires connected || reconnected
    requires Cycle(s, connected, reconnected, trades, history, info, respond, variant, symbol).1 == None
    ensures var s' := Cycle(s, connected, reconnected, trades, history, info, respond, variant, symbol).0;
      Reconcile(s', trades) == s'
  {
    CycleFacts(s, connected, reconnected, trades, history, info, respond, variant, symbol);
    ReconcileIdempotent(s, trades);
  }
}
