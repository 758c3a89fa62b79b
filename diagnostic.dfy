/** The pure checks of the diagnostic script: `check_signal_conditions` over the bot's
    `/debug` reply and the position-tracking comparison over its `/sync_status` reply.
    Replies are JSON values as `response.json()` decodes them. */
module Diagnostic {
  import opened Options

  /** A decoded JSON value; Python's `None` is `JNull`. */
  datatype Json = JNull | JBool(b: bool) | JNum(n: real) | JStr(s: string) | JArr(items: seq<Json>) | JObj(fields: map<string, Json>)

  /** Python truthiness of a decoded value. */
  predicate Truthy(v: Json)
  {
    match v
    case JNull => false
    case JBool(b) => b
    case JNum(n) => n != 0.0
    case JStr(s) => s != ""
    case JArr(items) => items != []
    case JObj(fields) => fields != map[]
  }

  /** `d.get(key)`: the value under key, or `None`. */
  function Get(d: map<string, Json>, key: string): (v: Json)
    ensures key in d ==> v == d[key]
    ensures key !in d ==> v == JNull
  {
    if key in d then d[key] else JNull
  }

  /** `d.get(key, {})` when a dictionary is expected next: the nested dictionary, or
      `None` when the value is not one (the next `.get` on it raises). */
  function SubObject(d: map<string, Json>, key: string): (r: Option<map<string, Json>>)
    ensures key !in d ==> r == Some(map[])
    ensures key in d && d[key].JObj? ==> r == Some(d[key].fields)
    ensures key in d && !d[key].JObj? ==> r == None
  {
    if key !in d then Some(map[])
    else match d[key]
      case JObj(fields) => Some(fields)
      case _ => None
  }

  const UnknownMessage: string := "Unknown - couldn't get debug info"

  /** The result of `check_signal_conditions`: the "Unknown" string, the report
      dictionary, or the `AttributeError` raised when a part that should be a
      dictionary is not. */
  datatype SignalCheck =
    | Unknown(message: string)
    | Report(conditionsMet: bool, smaCondition: bool, rsiCondition: bool, priceCondition: bool,
             price: Json, sma20: Json, sma50: Json, rsi: Json)
    | AttributeFault

  /** `conditions.get(key, 'False') == 'True'`: only the string "True" counts. */
  predicate ConditionHolds(conditions: map<string, Json>, key: string)
  {
    (if key in conditions then conditions[key] else JStr("False")) == JStr("True")
  }

  /** `check_signal_conditions(debug_info)`. */
  function CheckSignalConditions(debugInfo: Json): (r: SignalCheck)
    ensures r.Unknown? <==> (!Truthy(debugInfo) ||
      (debugInfo.JObj? && Get(debugInfo.fields, "status") != JStr("success")))
    ensures r.Unknown? ==> r.message == UnknownMessage
    ensures r.Report? ==> (debugInfo.JObj? && Get(debugInfo.fields, "status") == JStr("success") &&
                           SubObject(debugInfo.fields, "trading_conditions").Some? &&
                           SubObject(debugInfo.fields, "market_data").Some?)
    ensures r == AttributeFault <==> (Truthy(debugInfo) &&
      (!debugInfo.JObj? ||
       (Get(debugInfo.fields, "status") == JStr("success") &&
        (SubObject(debugInfo.fields, "trading_conditions").None? || SubObject(debugInfo.fields, "market_data").None?))))
    ensures r.Report? ==> r.conditionsMet == (r.smaCondition && r.rsiCondition && r.priceCondition)
    ensures r.Report? ==> var cs := SubObject(debugInfo.fields, "trading_conditions").value;
      (r.smaCondition <==> "sma_condition" in cs && cs["sma_condition"] == JStr("True")) &&
      (r.rsiCondition <==> "rsi_condition" in cs && cs["rsi_condition"] == JStr("True")) &&
      (r.priceCondition <==> "price_condition" in cs && cs["price_condition"] == JStr("True"))
    ensures r.Report? ==> var md := SubObject(debugInfo.fields, "market_data").value;
      r.price == Get(md, "last_price") && r.sma20 == Get(md, "sma20") &&
      r.sma50 == Get(md, "sma50") && r.rsi == Get(md, "rsi")
  {
    if !Truthy(debugInfo) then Unknown(UnknownMessage)
    else match debugInfo
      case JObj(d) =>
        if Get(d, "status") != JStr("success") then Unknown(UnknownMessage)
        else
          var conditions := SubObject(d, "trading_conditions");
          var marketData := SubObject(d, "market_data");
          if conditions.None? || marketData.None? then AttributeFault
          else
            var cs, md := conditions.value, marketData.value;
            var sma := ConditionHolds(cs, "sma_condition");
            var rsi := ConditionHolds(cs, "rsi_condition");
            var price := ConditionHolds(cs, "price_condition");
            Report(sma && rsi && price, sma, rsi, price,
                   Get(md, "last_price"), Get(md, "sma20"), Get(md, "sma50"), Get(md, "rsi"))
      case _ => AttributeFault
  }

  /** A boolean `True` sent for a condition (rather than the string "True") does not
      count, so such a reply never reports the conditions as met. */
  lemma BooleanConditionNotCounted(debugInfo: Json)
    requires debugInfo.JObj? && Get(debugInfo.fields, "status") == JStr("success")
    requires SubObject(debugInfo.fields, "trading_conditions") == Some(map["sma_condition" := JBool(true)])
    requires SubObject(debugInfo.fields, "market_data").Some?
    ensures CheckSignalConditions(debugInfo).Report?
    ensures !CheckSignalConditions(debugInfo).smaCondition
    ensures !CheckSignalConditions(debugInfo).conditionsMet
  {
    assert Truthy(debugInfo) by {
      assert "status" in debugInfo.fields;
    }
  }

  /** Python's `==` on decoded values: booleans compare equal to the numbers 1 and 0,
      everything else by kind and value. */
  predicate PyEquals(a: Json, b: Json)
  {
    match (a, b)
    case (JBool(x), JNum(n)) => n == (if x then 1.0 else 0.0)
    case (JNum(n), JBool(x)) => n == (if x then 1.0 else 0.0)
    case _ => a == b
  }

  /** The verdict on position tracking: no verdict when the `/sync_status` reply is
      falsy, the comparison otherwise, or the `AttributeError` of a reply that is not
      a dictionary. */
  datatype TrackingCheck = NoVerdict | Verdict(accurate: bool) | NotADictionary

  /** `position_tracking_ok = sync_result.get('position_open') == sync_result.get('previous_state')`. */
  function PositionTrackingOk(syncResult: Json): (r: TrackingCheck)
    ensures !Truthy(syncResult) <==> r == NoVerdict
    ensures r.Verdict? ==> syncResult.JObj?
    ensures r.Verdict? && Get(syncResult.fields, "position_open").JBool? && Get(syncResult.fields, "previous_state").JBool? ==>
      (r.accurate <==> Get(syncResult.fields, "position_open").b == Get(syncResult.fields, "previous_state").b)
    ensures r.Verdict? && "position_open" !in syncResult.fields && "previous_state" !in syncResult.fields ==> r.accurate
    ensures r.Verdict? && Get(syncResult.fields, "position_open").JStr? ==>
      (r.accurate <==> Get(syncResult.fields, "position_open") == Get(syncResult.fields, "previous_state"))
    ensures r.Verdict? ==>
      var a, b := Get(syncResult.fields, "position_open"), Get(syncResult.fields, "previous_state");
      !(a.JBool? && b.JNum?) && !(a.JNum? && b.JBool?) ==> (r.accurate <==> a == b)
    ensures r.Verdict? ==>
      var a, b := Get(syncResult.fields, "position_open"), Get(syncResult.fields, "previous_state");
      a.JBool? && b.JNum? ==> (r.accurate <==> b.n == if a.b then 1.0 else 0.0)
    ensures r.Verdict? ==>
      var a, b := Get(syncResult.fields, "position_open"), Get(syncResult.fields, "previous_state");
      a.JNum? && b.JBool? ==> (r.accurate <==> a.n == if b.b then 1.0 else 0.0)
    ensures (r.Verdict? && "position_open" in syncResult.fields && !syncResult.fields["position_open"].JNull? &&
             "previous_state" !in syncResult.fields) ==> !r.accurate
  {
    if !Truthy(syncResult) then NoVerdict
    else match syncResult
      case JObj(d) => Verdict(PyEquals(Get(d, "position_open"), Get(d, "previous_state")))
      case _ => NotADictionary
  }
}
