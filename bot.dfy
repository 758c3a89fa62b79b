/** `XTBTradingBot`: the object whose `position_open` and `current_order_id` fields
    the strategy updates in place. The venue's answers are passed in as values (and
    the trade response as a function of the order sent). */
module Bot {
  import opened Options
  import opened Indicators
  import opened Signals
  import opened Position
  import opened Orders
  import Strategy

  const DefaultSymbol: string := "BITCOIN"
  const DefaultTimeframe: string := "1h"
  const ReconnectInterval: int := 60
  const MinVolume: real := 0.001
  const RiskPercentage: real := 0.01

  /** `not self.userId or not self.password` is false: both are set and non-empty. */
  predicate HasCredentials(userId: Option<string>, password: Option<string>)
  {
    userId.Some? && userId.value != "" && password.Some? && password.value != ""
  }

  class TradingBot {
    const userId: string
    const password: string
    const symbol: string
    const timeframe: string
    const reconnectInterval: int
    const minVolume: real
    const riskPercentage: real
    var positionOpen: bool
    var currentOrderId: Option<int>

    /** The position fields as a value. */
    function State(): BotState
      reads this
    {
      BotState(positionOpen, currentOrderId)
    }

    /** The object invariant: an order id is held exactly while a position is open. */
    ghost predicate Valid()
      reads this
    {
      Consistent(State())
    }

    /** `__init__` with credentials present: no position, no order id, and the
        configuration defaults of the primary version. */
    constructor (userId: string, password: string, symbol: string, timeframe: string)
      requires userId != "" && password != ""
      ensures Valid() && State() == Flat
      ensures this.userId == userId && this.password == password
      ensures this.symbol == symbol && this.timeframe == timeframe
      ensures reconnectInterval == ReconnectInterval
      ensures minVolume == MinVolume && riskPercentage == RiskPercentage
    {
      this.userId := userId;
      this.password := password;
      this.symbol := symbol;
      this.timeframe := timeframe;
      reconnectInterval := ReconnectInterval;
      minVolume := MinVolume;
      riskPercentage := RiskPercentage;
      positionOpen := false;
      currentOrderId := None;
    }

    /** `XTBTradingBot(symbol, timeframe)` with the environment's credentials: `null`
        (the `ValueError`) when either is missing or empty, else a fresh flat bot. The
        symbol and timeframe default to `BITCOIN` and `1h`, as in `__init__`. */
    static method Create(userId: Option<string>, password: Option<string>,
                         symbol: string := DefaultSymbol, timeframe: string := DefaultTimeframe)
      returns (bot: TradingBot?)
      ensures bot == null <==> !HasCredentials(userId, password)
      ensures bot != null ==> (fresh(bot) && bot.Valid() && bot.State() == Flat &&
                               bot.symbol == symbol && bot.timeframe == timeframe)
    {
      if !HasCredentials(userId, password) {
        return null;
      }
      bot := new TradingBot(userId.value, password.value, symbol, timeframe);
    }

    /** `XTBTradingBot()` with no arguments: the default symbol `BITCOIN` and the
        default timeframe `1h`. */
    static method CreateWithDefaults(userId: Option<string>, password: Option<string>) returns (bot: TradingBot?)
      ensures bot == null <==> !HasCredentials(userId, password)
      ensures bot != null ==> (fresh(bot) && bot.Valid() && bot.State() == Flat &&
                               bot.symbol == "BITCOIN" && bot.timeframe == "1h")
    {
      bot := Create(userId, password);
    }

    /** `check_trade_status()`: true exactly when the held order id is truthy and the
        venue's open-trades list has a trade whose `order2` is that id. */
    method CheckTradeStatus(reply: TradesReply) returns (open: bool)
      ensures open == TradeIsOpen(currentOrderId, reply)
      ensures open <==> (Truthy(currentOrderId) && reply.Trades? &&
                         exists k :: 0 <= k < |reply.trades| && reply.trades[k].order2 == currentOrderId)
    {
      TradeIsOpenIff(currentOrderId, reply);
      if !Truthy(currentOrderId) {
        return false;
      }
      match reply
      case Raised =>
        return false;
      case NoReturnData =>
        return false;
      case Trades(trades) =>
        var i := 0;
        while i < |trades|
          invariant 0 <= i <= |trades|
          invariant forall k :: 0 <= k < i ==> trades[k].order2 != currentOrderId
        {
          if trades[i].order2 == currentOrderId {
            return true;
          }
          i := i + 1;
        }
        return false;
    }

    /** The reconciliation step of `run_strategy`: an open position whose trade the
        venue no longer reports becomes flat, with the order id cleared. */
    method ReconcilePosition(reply: TradesReply)
      requires Valid()
      modifies this
      ensures Valid()
      ensures State() == Reconcile(old(State()), reply)
    {
      if positionOpen {
        var open := CheckTradeStatus(reply);
        if !open {
          positionOpen := false;
          currentOrderId := None;
        }
      }
    }

    /** `execute_trade(signal)`: the order sent to the venue, if any, and the new
        position fields. */
    method ExecuteTrade(signal: Option<Signal>, info: Option<SymbolInfo>,
                        respond: Order -> TradeResponse, variant: BracketVariant)
      returns (sent: Option<Order>)
      requires Valid()
      modifies this
      ensures Valid()
      ensures (State(), sent) == Execute(old(State()), signal, info, respond, variant, symbol)
    {
      ExecuteFacts(State(), signal, info, respond, variant, symbol);
      if signal.None? || positionOpen {
        return None;
      }
      if info.None? {
        return None;
      }
      var askPrice := info.value.ask.GetOr(0.0);
      var bidPrice := info.value.bid.GetOr(0.0);
      if askPrice <= 0.0 || bidPrice <= 0.0 {
        return None;
      }
      var order := BuildOrder(signal.value, info.value, variant, symbol);
      var response := respond(order);
      if response.status {
        currentOrderId := Some(OrderIdOf(response));
        positionOpen := true;
      }
      sent := Some(order);
    }

    /** One iteration of `run_strategy`'s loop: reconnect if needed (skipping the
        cycle when that fails), reconcile an open position, and trade on the signal
        of the fetched candles. */
    method RunStrategyCycle(connected: bool, reconnected: bool, trades: TradesReply,
                            history: Option<seq<Candle>>, info: Option<SymbolInfo>,
                            respond: Order -> TradeResponse, variant: BracketVariant)
      returns (sent: Option<Order>)
      requires Valid()
      modifies this
      ensures Valid()
      ensures (State(), sent) ==
        Strategy.Cycle(old(State()), connected, reconnected, trades, history, info, respond, variant, symbol)
    {
      sent := None;
      if !connected && !reconnected {
        return;
      }
      ReconcilePosition(trades);
      if history.Some? {
        var frame := CalculateIndicators(history.value);
        var signal := CheckTradingSignals(frame);
        if signal.Some? {
          sent := ExecuteTrade(signal, info, respond, variant);
        }
      }
    }
  }
}
