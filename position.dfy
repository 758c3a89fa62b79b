/** Position tracking: the two fields `position_open` and `current_order_id`, the
    venue's open-trades reply, `check_trade_status`, the reconciliation step of
    `run_strategy`, and what an accepted trade response does to the fields. */
module Position {
  import opened Options

  /** The bot's position fields. `currentOrderId == None` is Python's `None`. */
  datatype BotState = BotState(positionOpen: bool, currentOrderId: Option<int>)

  /** The state `__init__` sets up: no position, no order id. */
  const Flat := BotState(false, None)

  /** The fields agree: an order id is held exactly while a position is open. */
  predicate Consistent(s: BotState)
  {
    s.positionOpen == s.currentOrderId.Some?
  }

  /** An entry of `getTrades(openedOnly=True)`; a missing key is `None`. */
  datatype OpenTrade = OpenTrade(order: Option<int>, order2: Option<int>, symbol: string)

  /** What the open-trades request yields: the list under `returnData`, a reply that
      is empty or has no `returnData`, or an exception while asking. */
  datatype TradesReply = Trades(trades: seq<OpenTrade>) | NoReturnData | Raised

  /** Python truthiness of `current_order_id`: neither `None` nor 0. */
  predicate Truthy(id: Option<int>)
  {
    id.Some? && id.value != 0
  }

  /** Whether some trade, scanned from the front, has `order2 == id`. */
  function Listed(trades: seq<OpenTrade>, id: int): bool
  {
    if trades == [] then false
    else if trades[0].order2 == Some(id) then true
    else Listed(trades[1..], id)
  }

  /** The scan finds a trade exactly when one with that `order2` is in the list. */
  lemma {:induction false} ListedIff(trades: seq<OpenTrade>, id: int)
    ensures Listed(trades, id) <==> exists k :: 0 <= k < |trades| && trades[k].order2 == Some(id)
  {
    if trades != [] {
      ListedIff(trades[1..], id);
      if trades[0].order2 != Some(id) {
        if exists k :: 0 <= k < |trades| && trades[k].order2 == Some(id) {
          var k :| 0 <= k < |trades| && trades[k].order2 == Some(id);
          assert trades[1..][k - 1] == trades[k];
        }
      }
    }
  }

  /** `check_trade_status()` as a value: true when the held order id is truthy and the
      venue lists an open trade whose `order2` is that id. */
  function TradeIsOpen(id: Option<int>, reply: TradesReply): bool
  {
    Truthy(id) && reply.Trades? && Listed(reply.trades, id.value)
  }

  /** The specification of `check_trade_status`, in terms of the list itself: a falsy
      id, a reply without data and an exception all give false. */
  lemma TradeIsOpenIff(id: Option<int>, reply: TradesReply)
    ensures TradeIsOpen(id, reply) <==>
      Truthy(id) && reply.Trades? &&
      exists k :: 0 <= k < |reply.trades| && reply.trades[k].order2 == Some(id.value)
  {
    if Truthy(id) && reply.Trades? {
      ListedIff(reply.trades, id.value);
    }
  }

  /** The reconciliation step of `run_strategy`: an open position whose trade is no
      longer reported open becomes flat, with the order id cleared. */
  function Reconcile(s: BotState, reply: TradesReply): BotState
  {
    if s.positionOpen && !TradeIsOpen(s.currentOrderId, reply) then BotState(false, None) else s
  }

  /** Reconciliation only ever closes: a flat state stays as it is, and an open one
      either stays exactly as it is or becomes `Flat`. */
  lemma ReconcileOnlyCloses(s: BotState, reply: TradesReply)
    ensures Reconcile(s, reply) == s || (s.positionOpen && Reconcile(s, reply) == Flat)
    ensures !s.positionOpen ==> Reconcile(s, reply) == s
  {
  }

  /** Reconciling twice against the same venue reply gives what reconciling once did. */
  lemma ReconcileIdempotent(s: BotState, reply: TradesReply)
    ensures Reconcile(Reconcile(s, reply), reply) == Reconcile(s, reply)
  {
  }

  /** An open position stays open exactly when the venue still lists its order id
      among the open trades' `order2` values; otherwise it becomes `Flat`. */
  lemma ReconcileOpenPosition(s: BotState, reply: TradesReply)
    requires s.positionOpen
    ensures Reconcile(s, reply).positionOpen <==>
      Truthy(s.currentOrderId) && reply.Trades? &&
      exists k :: 0 <= k < |reply.trades| && reply.trades[k].order2 == Some(s.currentOrderId.value)
    ensures !Reconcile(s, reply).positionOpen ==> Reconcile(s, reply) == Flat
  {
    TradeIsOpenIff(s.currentOrderId, reply);
  }

  /** A failed or empty open-trades request closes any open position. */
  lemma ReconcileWithoutDataCloses(s: BotState, reply: TradesReply)
    requires reply.NoReturnData? || reply.Raised?
    ensures Reconcile(s, reply) == Flat || (Reconcile(s, reply) == s && !s.positionOpen)
  {
  }

  /** `returnData` of a trade-transaction reply; only its `order` key is read. */
  datatype ReturnData = ReturnData(order: Option<int>)

  /** The venue's answer to `tradeTransaction`: its `status` flag (false when missing)
      and its `returnData`, if any. */
  datatype TradeResponse = TradeResponse(status: bool, returnData: Option<ReturnData>)

  /** `response.get('returnData', {}).get('order', 0)`. */
  function OrderIdOf(resp: TradeResponse): (id: int)
    ensures resp.returnData.Some? && resp.returnData.value.order.Some? ==> id == resp.returnData.value.order.value
    ensures resp.returnData.None? || resp.returnData.value.order.None? ==> id == 0
  {
    match resp.returnData
    case None => 0
    case Some(data) => data.order.GetOr(0)
  }

  /** What an order sent to the venue does to the fields: an accepted response opens
      the position under the returned order id; a refused one changes nothing. */
  function ApplyResponse(s: BotState, resp: TradeResponse): BotState
  {
    if resp.status then BotState(true, Some(OrderIdOf(resp))) else s
  }

  /** Both transitions keep the fields consistent. */
  lemma TransitionsKeepConsistent(s: BotState, reply: TradesReply, resp: TradeResponse)
    requires Consistent(s)
    ensures Consistent(Reconcile(s, reply))
    ensures Consistent(ApplyResponse(s, resp))
  {
  }

  /** An accepted response without an order id leaves `current_order_id` at 0, which
      is falsy, so the next reconciliation closes the position whatever the venue
      reports: the trade stays open at the venue while the bot believes it is flat. */
  lemma MissingOrderIdIsForgotten(s: BotState, resp: TradeResponse, reply: TradesReply)
    requires resp.status && (resp.returnData.None? || resp.returnData.value.order.None?)
    ensures ApplyResponse(s, resp) == BotState(true, Some(0))
    ensures Reconcile(ApplyResponse(s, resp), reply) == Flat
  {
  }

  /** An accepted order whose id the venue then lists stays open on reconciliation. */
  lemma AcceptedListedStaysOpen(s: BotState, resp: TradeResponse, trades: seq<OpenTrade>, k: nat)
    requires resp.status && OrderIdOf(resp) != 0
    requires k < |trades| && trades[k].order2 == Some(OrderIdOf(resp))
    ensures Reconcile(ApplyResponse(s, resp), Trades(trades)) == ApplyResponse(s, resp)
  {
    ListedIff(trades, OrderIdOf(resp));
  }
}
