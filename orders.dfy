/** `execute_trade`: the guards before an order is sent, the bracketed market order
    it builds (both variants of the stop/target rule), and the effect of the venue's
    answer on the position fields. */
module Orders {
  import opened Options
  import opened Decimal
  import opened Signals
  import opened Position

  /** The `returnData` of `getSymbol`, as far as `execute_trade` reads it. `None` is a
      missing key; the dictionary as a whole being empty is modelled one level up. */
  datatype SymbolInfo = SymbolInfo(
    ask: Option<real>, bid: Option<real>,
    lotMin: Option<real>, lotStep: Option<real>,
    pipsPrecision: Option<nat>)

  /** The `tradeTransInfo` sent with `tradeTransaction`. */
  datatype Order = Order(cmd: int, symbol: string, volume: real, orderType: int, price: real, sl: real, tp: real)

  /** The stop/target rule: fixed distances of 500 and 1000 price units (the primary
      version), or 100 and 200 pips, with the pip size worked out from `pipsPrecision`
      as the code does it or as evidently intended. */
  datatype BracketVariant = FixedDistance | PipDistanceAsWritten | PipDistance

  const DefaultLotMin: real := 0.01
  const DefaultPipsPrecision: nat := 5
  const BuyCmd: int := 0
  const SellCmd: int := 1

  /** `len(str(symbol_info.get('pipsPrecision', 5)))`: the number of characters of the
      precision, not the precision. */
  function PipDigitsAsWritten(info: SymbolInfo): nat
  {
    DecimalLength(info.pipsPrecision.GetOr(DefaultPipsPrecision))
  }

  /** The number of decimal places of a pip, as the venue reports it. */
  function PipDigits(info: SymbolInfo): nat
  {
    info.pipsPrecision.GetOr(DefaultPipsPrecision)
  }

  /** The decimal places the stop and target are rounded to: 2 in the fixed variant,
      the pip precision in the pip variants. */
  function Precision(variant: BracketVariant, info: SymbolInfo): nat
  {
    match variant
    case FixedDistance => 2
    case PipDistanceAsWritten => PipDigitsAsWritten(info)
    case PipDistance => PipDigits(info)
  }

  /** The distance from entry to stop. */
  function StopDistance(variant: BracketVariant, info: SymbolInfo): real
  {
    if variant == FixedDistance then 500.0 else 100.0 / Pow10(Precision(variant, info))
  }

  /** The distance from entry to target. */
  function TargetDistance(variant: BracketVariant, info: SymbolInfo): real
  {
    if variant == FixedDistance then 1000.0 else 200.0 / Pow10(Precision(variant, info))
  }

  /** In every variant the target is twice as far as the stop, and the stop is more
      than half a rounding unit away, so rounding cannot move a level across entry. */
  lemma DistanceFacts(variant: BracketVariant, info: SymbolInfo)
    ensures TargetDistance(variant, info) == 2.0 * StopDistance(variant, info)
    ensures StopDistance(variant, info) > 0.5 / Pow10(Precision(variant, info))
    ensures variant == FixedDistance ==> StopDistance(variant, info) == 500.0
    ensures variant != FixedDistance ==>
      StopDistance(variant, info) * Pow10(Precision(variant, info)) == 100.0
  {
    var p := Pow10(Precision(variant, info));
    if variant == FixedDistance {
      assert IntPow10(1) == 10 && IntPow10(2) == 100;
      assert p == 100.0;
    } else {
      PipDistances(p);
    }
  }

  /** The pip variants' distances for a rounding scale p >= 1. */
  lemma PipDistances(p: real)
    requires p >= 1.0
    ensures 200.0 / p == 2.0 * (100.0 / p)
    ensures 100.0 / p > 0.5 / p
    ensures (100.0 / p) * p == 100.0
  {
    DivideBound(0.5, 100.0, p);
    assert (0.5 / p) * p == 0.5;
    assert (100.0 / p) * p == 100.0;
  }

  /** The order `execute_trade` sends for a signal: BUY enters at the ask with the stop
      below and the target above, SELL at the bid the other way round; the volume is
      `lotMin` (0.01 when missing), the order type 0. */
  function BuildOrder(signal: Signal, info: SymbolInfo, variant: BracketVariant, symbol: string): Order
  {
    var stop := StopDistance(variant, info);
    var target := TargetDistance(variant, info);
    var digits := Precision(variant, info);
    var volume := info.lotMin.GetOr(DefaultLotMin);
    if signal == Buy then
      var entry := info.ask.GetOr(0.0);
      Order(BuyCmd, symbol, volume, 0, entry, Round(entry - stop, digits), Round(entry + target, digits))
    else
      var entry := info.bid.GetOr(0.0);
      Order(SellCmd, symbol, volume, 0, entry, Round(entry + stop, digits), Round(entry - target, digits))
  }

  /** The bracket rule: a BUY has stop < entry < target at the ask, a SELL has
      target < entry < stop at the bid; each level is the entry moved by the variant's
      distance, up to half a unit of the rounding precision. */
  lemma BracketLevels(signal: Signal, info: SymbolInfo, variant: BracketVariant, symbol: string)
    ensures var o := BuildOrder(signal, info, variant, symbol);
      var stop := StopDistance(variant, info);
      var target := TargetDistance(variant, info);
      var half := 0.5 / Pow10(Precision(variant, info));
      o.symbol == symbol && o.orderType == 0 && o.volume == info.lotMin.GetOr(DefaultLotMin) &&
      (signal == Buy ==>
        o.cmd == BuyCmd && o.price == info.ask.GetOr(0.0) && o.sl < o.price < o.tp &&
        o.price - stop - half <= o.sl <= o.price - stop + half &&
        o.price + target - half <= o.tp <= o.price + target + half) &&
      (signal == Sell ==>
        o.cmd == SellCmd && o.price == info.bid.GetOr(0.0) && o.tp < o.price < o.sl &&
        o.price + stop - half <= o.sl <= o.price + stop + half &&
        o.price - target - half <= o.tp <= o.price - target + half)
  {
    var stop := StopDistance(variant, info);
    var target := TargetDistance(variant, info);
    var digits := Precision(variant, info);
    DistanceFacts(variant, info);
    var entry := if signal == Buy then info.ask.GetOr(0.0) else info.bid.GetOr(0.0);
    RoundError(entry - stop, digits);
    RoundError(entry + stop, digits);
    RoundError(entry + target, digits);
    RoundError(entry - target, digits);
  }

  /** Why `execute_trade` returns without contacting the venue. */
  datatype Blocked = NoSignal | PositionAlreadyOpen | NoSymbolInfo | InvalidPrices

  /** The guards of `execute_trade`, in the code's order, and the order it would send.
      `info == None` is an empty `getSymbol` reply. */
  function TradeDecision(positionOpen: bool, signal: Option<Signal>, info: Option<SymbolInfo>,
                         variant: BracketVariant, symbol: string): (r: Result<Order, Blocked>)
    ensures r.Ok? <==> (signal.Some? && !positionOpen && info.Some? &&
                        info.value.ask.GetOr(0.0) > 0.0 && info.value.bid.GetOr(0.0) > 0.0)
    ensures r.Ok? ==> r.value == BuildOrder(signal.value, info.value, variant, symbol)
    ensures r == Err(NoSignal) <==> signal.None?
    ensures r == Err(PositionAlreadyOpen) <==> signal.Some? && positionOpen
    ensures r == Err(NoSymbolInfo) <==> signal.Some? && !positionOpen && info.None?
  {
    if signal.None? then Err(NoSignal)
    else if positionOpen then Err(PositionAlreadyOpen)
    else if info.None? then Err(NoSymbolInfo)
    else
      var ask := info.value.ask.GetOr(0.0);
      var bid := info.value.bid.GetOr(0.0);
      if ask <= 0.0 || bid <= 0.0 then Err(InvalidPrices)
      else Ok(BuildOrder(signal.value, info.value, variant, symbol))
  }

  /** `execute_trade(signal)` on the position fields, with the venue as an oracle from
      the order sent to its response: the new fields and the order sent, if any. */
  function Execute(s: BotState, signal: Option<Signal>, info: Option<SymbolInfo>,
                   respond: Order -> TradeResponse, variant: BracketVariant, symbol: string): (BotState, Option<Order>)
  {
    match TradeDecision(s.positionOpen, signal, info, variant, symbol)
    case Err(_) => (s, None)
    case Ok(order) => (ApplyResponse(s, respond(order)), Some(order))
  }

  /** Of `execute_trade`: it sends nothing and changes nothing while a position is open,
      without a signal, without symbol information or with a non-positive quote; an
      order it sends opens the position exactly when the venue accepts it, under the
      returned id (0 when missing); fields that were consistent stay consistent. */
  lemma ExecuteFacts(s: BotState, signal: Option<Signal>, info: Option<SymbolInfo>,
                     respond: Order -> TradeResponse, variant: BracketVariant, symbol: string)
    ensures var (s', sent) := Execute(s, signal, info, respond, variant, symbol);
      (sent.None? <==> TradeDecision(s.positionOpen, signal, info, variant, symbol).Err?) &&
      (sent.None? ==> s' == s) &&
      (s.positionOpen ==> sent.None?) &&
      (sent.Some? ==> (sent.value.price > 0.0 &&
                       (if respond(sent.value).status
                        then s' == BotState(true, Some(OrderIdOf(respond(sent.value))))
                        else s' == s))) &&
      (Consistent(s) ==> Consistent(s'))
  {
    var d := TradeDecision(s.positionOpen, signal, info, variant, symbol);
    if d.Ok? {
      BracketLevels(signal.value, info.value, variant, symbol);
    }
  }

  /** At most one open position: once an order has been accepted, a second
      `execute_trade`, whatever its signal and quote, is blocked without contacting
      the venue. */
  lemma SecondSubmitBlocked(s: BotState, signal: Option<Signal>, info: Option<SymbolInfo>,
                            respond: Order -> TradeResponse, variant: BracketVariant, symbol: string,
                            signal2: Option<Signal>, info2: Option<SymbolInfo>)
    requires var (_, sent) := Execute(s, signal, info, respond, variant, symbol);
      sent.Some? && respond(sent.value).status
    ensures var (s1, _) := Execute(s, signal, info, respond, variant, symbol);
      s1.positionOpen && Execute(s1, signal2, info2, respond, variant, symbol) == (s1, None)
  {
  }

  /** The pip size as written: with `pipsPrecision` 4 (four decimal places) the code
      takes one digit, a pip of 0.1 and a stop 10 price units away instead of 0.01;
      with the default 5 it also takes one digit. */
  lemma PipDigitsAsWrittenCounterexample(info: SymbolInfo)
    requires info.pipsPrecision == Some(4)
    ensures PipDigitsAsWritten(info) == 1
    ensures StopDistance(PipDistanceAsWritten, info) == 10.0
    ensures StopDistance(PipDistance, info) == 0.01
    ensures PipDigitsAsWritten(info.(pipsPrecision := None)) == 1
  {
    assert IntPow10(1) == 10 && IntPow10(2) == 100 && IntPow10(3) == 1000 && IntPow10(4) == 10000;
    assert Pow10(4) == 10000.0;
  }

  /** Corrected pip rule: the stop is exactly 100 pips and the target 200 pips from
      entry, where a pip is 10^-pipsPrecision, and both are rounded to the pip. */
  lemma PipStopIsHundredPips(info: SymbolInfo)
    ensures var pip := 1.0 / Pow10(PipDigits(info));
      StopDistance(PipDistance, info) == 100.0 * pip &&
      TargetDistance(PipDistance, info) == 200.0 * pip &&
      Precision(PipDistance, info) == PipDigits(info)
    ensures info.pipsPrecision.Some? && info.pipsPrecision.value >= 2 ==>
      PipDigitsAsWritten(info) != PipDigits(info)
  {
    var p := Pow10(PipDigits(info));
    assert 100.0 / p == 100.0 * (1.0 / p);
    assert 200.0 / p == 200.0 * (1.0 / p);
    if info.pipsPrecision.Some? && info.pipsPrecision.value >= 2 {
      DecimalLengthBelow(info.pipsPrecision.value);
    }
  }
}
