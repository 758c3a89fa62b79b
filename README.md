# XTB trading bot: signal and position state machine

This project is a Dafny model of the decision core of `XTBTradingBot` (`bot_cloud.py`). It covers:

- the indicator columns (SMA20, SMA50, a 14-bar RSI) and the average true range;
- the BUY/SELL classifier;
- the bracketed market order that `execute_trade` builds, in both of the file's stop/target variants;
- the two position fields, `position_open` and `current_order_id`. An accepted order opens them. Reconciliation against the venue's open-trades list closes them.

It also models the two pure checks of the diagnostic script (`diagnostic.py`).

`bot_cloud.py` contains unresolved merge-conflict markers, so two versions of the class are interleaved. The model follows the `HEAD` side. The other side's pip-based bracket (lines 433-449) and its `calculate_atr` (lines 207-227) are modelled as named alternatives. `check_trading_signals` appears twice with the same rule, and it is modelled once.

The venue is an oracle. Each call's answer is an input to the model:

- `check_connection()` / `connect()` answers are booleans;
- the `getTrades` reply is a `TradesReply`;
- the candles are an `Option<seq<Candle>>`;
- the `getSymbol` reply is an `Option<SymbolInfo>` (`None` is the empty dictionary);
- the `tradeTransaction` answer is a function `Order -> TradeResponse`.

One call of `Bot.TradingBot.RunStrategyCycle` is one iteration of the `run_strategy` loop.

Modules, one per concern:

- `Options`: Option/Result.
- `Decimal`: powers of ten, `len(str(n))`, `round`.
- `Indicators`: `calculate_indicators`, `calculate_atr`.
- `Signals`: `check_trading_signals`.
- `Position`: the fields, `check_trade_status` as a value, reconciliation, the trade response.
- `Orders`: `execute_trade`'s guards and bracket.
- `Strategy`: one loop iteration as a function.
- `Bot`: the class, whose methods update the fields in place and are proved against the `Position`/`Orders`/`Strategy` functions.
- `Diagnostic`: `check_signal_conditions` and `position_tracking_ok`.

Modelling choices:

- Prices are `real`. pandas' NaN is `None`, and every comparison with NaN is false, as in pandas.
- Rolling means are strict: a value exists only once the window is full.
- At index 0, `delta` is NaN and `delta.where(delta > 0, 0)` replaces it by 0. So the 14-bar gain and loss means, and hence the RSI, exist from row 13 on, not from row 14.
- When the mean loss is 0, pandas gives an infinite `rs`. The model states this case explicitly: RSI is 100 when the mean gain is positive, and NaN when it is 0 too.
- `round(x, d)` is exact decimal rounding with ties to even, and its error is proved to be at most half a unit.

Behaviour of the code worth knowing, which the model follows:

- A failed or empty open-trades request makes `check_trade_status` return false. `run_strategy` then marks the position closed. It does not assume the position is still open.
- The order volume is `lotMin` (0.01 when missing). No risk-percentage sizing or spread check happens. `min_volume` and `risk_percentage` are set but never read.
- Lenient SMA warm-up is not used: the SMA stays NaN until its window is full.
- A market rising steadily over the last 14 bars does not give BUY. Its mean loss is 0, so its RSI is 100, and the `RSI < 70` clause fails (`Signals.NoLossNoBuy`).

## Model

| member | source | states |
|---|---|---|
| `Decimal.DecimalLength` | bot_cloud.py:434 | `len(str(n))` for a non-negative int: the unique r >= 1 with 10^(r-1) <= n < 10^r |
| `Decimal.RoundHalfEvenInt` | bot_cloud.py:341-342 | `round(y)` gives an integer within 0.5 of y |
| `Decimal.RoundError` | bot_cloud.py:442-449 | `round(x, d)` moves x by at most half a unit of the d-th decimal place |
| `Indicators.RollingMean` | bot_cloud.py:193-194 | a `rolling(w).mean()` value exists exactly from index w-1 on (strict warm-up) |
| `Indicators.RollingMeanWithin` | bot_cloud.py:193-194 | a rolling mean is the mean of closes i-w+1..i and lies between any bounds of that window |
| `Indicators.GainLossSplit` | bot_cloud.py:196-198 | gain and loss are both >= 0, at most one is non-zero, and gain - loss equals the close-to-close delta |
| `Indicators.Gains` | bot_cloud.py:197 | the gain column has one non-negative entry per row |
| `Indicators.Losses` | bot_cloud.py:198 | the loss column has one non-negative entry per row |
| `Indicators.RsiFromMeansBounds` | bot_cloud.py:199-200 | with mean loss > 0 the RSI is in [0, 100); with zero loss and positive gain it is 100; with neither it is NaN |
| `Indicators.RsiBounds` | bot_cloud.py:196-200 | every RSI value of the frame is in [0, 100] and appears only from row 13 on; where the window's mean loss is positive it exists and is below 100 |
| `Indicators.CalculateIndicators` | bot_cloud.py:190-202 | one row per candle, the candle kept, SMA20 present exactly from row 19 and SMA50 exactly from row 49 (the column values are stated by `Indicators.IndicatorRow`) |
| `Indicators.IndicatorRow` | bot_cloud.py:193-200 | at every row of the frame, SMA20 and SMA50 are the mean closes of the trailing 20 and 50 bars, the RSI is the 14-bar RSI of the closes at that row, and an RSI value exists only from row 13 on and lies in [0, 100] |
| `Indicators.TrueRangeFacts` | bot_cloud.py:218-222 | the true range is at least abs(high - low) >= 0, and equals high - low when the previous close lies inside the bar |
| `Indicators.TrueRanges` | bot_cloud.py:218-222 | the `tr` column has one non-negative entry per row |
| `Indicators.AtrFacts` | bot_cloud.py:207-227 | the ATR is 0.001 without a frame or with fewer than `period` rows; otherwise it is the mean of the last `period` true ranges, between 0 and any bound on those `period` true ranges (earlier rows do not matter) |
| `Signals.CheckTradingSignals` | bot_cloud.py:230-254 | no signal below 50 rows; BUY iff SMA20 > SMA50, RSI < 70 and close > SMA20 on the last row; SELL iff SMA20 < SMA50, RSI > 30 and close < SMA20; none otherwise |
| `Signals.BuyAndSellExclusive` | bot_cloud.py:236-246 | the BUY and SELL rules never hold together |
| `Signals.SignalOnCandles` | bot_cloud.py:236-246 | on at least 50 candles: BUY/SELL stated directly in terms of the 20- and 50-bar mean closes, the RSI and the last close |
| `Signals.ShortHistoryNoSignal` | bot_cloud.py:230-232 | fewer than 50 candles never give a signal |
| `Signals.RsiWithoutLoss` | bot_cloud.py:196-200 | if no close in the 14-bar window fell, the RSI is 100 or NaN |
| `Signals.NoLossNoBuy` | bot_cloud.py:236-240 | if none of the last 14 closes fell, there is never a BUY |
| `Position.ListedIff` | bot_cloud.py:373-377 | the scan of the trades finds a match iff some trade has `order2` equal to the id |
| `Position.TradeIsOpenIff` | bot_cloud.py:355-381 | `check_trade_status` is true iff the id is truthy (not None, not 0), the reply has data, and some open trade has `order2 == id`; a missing `returnData` or an exception gives false |
| `Position.ReconcileOnlyCloses` | bot_cloud.py:395-399 | reconciliation leaves a flat state alone, and either keeps an open state or makes it exactly flat with the id cleared |
| `Position.ReconcileIdempotent` | bot_cloud.py:395-399 | reconciling twice against the same reply is the same as reconciling once |
| `Position.ReconcileOpenPosition` | bot_cloud.py:395-399 | an open position stays open iff its id is truthy and listed as some trade's `order2`; otherwise it becomes `position_open = False`, `current_order_id = None` |
| `Position.ReconcileWithoutDataCloses` | bot_cloud.py:369-381 | a reply without `returnData`, or an exception, closes any open position |
| `Position.OrderIdOf` | bot_cloud.py:349 | the order id is `returnData.order`, or 0 when `returnData` or `order` is missing |
| `Position.TransitionsKeepConsistent` | bot_cloud.py:348-350 | the trade response and reconciliation both keep "an id is held iff a position is open" |
| `Position.MissingOrderIdIsForgotten` | bot_cloud.py:349-359 | an accepted response without an order id stores 0, and the next reconciliation then closes the position whatever the venue lists |
| `Position.AcceptedListedStaysOpen` | bot_cloud.py:348-377 | an accepted order whose id the venue lists stays open on reconciliation |
| `Orders.DistanceFacts` | bot_cloud.py:323-330 | in every bracket variant the target distance is twice the stop distance; the stop is 500 in the fixed variant and 100 rounding units in the pip variants |
| `Orders.BracketLevels` | bot_cloud.py:323-345 | BUY: cmd 0, entry at the ask, sl < entry < tp. SELL: cmd 1, entry at the bid, tp < entry < sl. Each level is within half a rounding unit of entry -/+ its distance. Volume is `lotMin` (default 0.01), type 0, the bot's symbol |
| `Orders.TradeDecision` | bot_cloud.py:270-320 | an order is built iff there is a signal, no position is open, the symbol info is non-empty, and ask > 0 and bid > 0; the guards are checked in the code's order |
| `Orders.ExecuteFacts` | bot_cloud.py:270-353 | blocked calls send nothing and change nothing. A sent order has a positive entry. The position opens under the returned id iff the venue's status is true, and nothing changes otherwise. Consistency is kept |
| `Orders.SecondSubmitBlocked` | bot_cloud.py:271-272 | after an accepted order, a second `execute_trade` with any signal and quote is blocked without calling the venue |
| `Orders.PipDigitsAsWrittenCounterexample` | bot_cloud.py:434-435 | with `pipsPrecision` 4 the code takes 1 digit and a stop 10 price units away, where 100 pips is 0.01; the default 5 also gives 1 digit |
| `Decimal.DecimalLengthBelow` | bot_cloud.py:434 | `len(str(n)) < n` for n >= 2, so the as-written pip size is wrong for every precision from 2 on |
| `Orders.PipStopIsHundredPips` | bot_cloud.py:433-449 | corrected pip rule: the stop is exactly 100 pips and the target 200 pips, with a pip of 10^-pipsPrecision, rounded to the pip |
| `Strategy.CycleFacts` | bot_cloud.py:383-409 | No connection means no change. An order is sent only after reconciliation left the bot flat, from >= 50 candles, with symbol information and a positive ask and bid, and with the signal's side. The order sent is the bracket order `Orders.BuildOrder` of the signal. The new fields then come from the venue's answer. While the held trade is still listed, nothing is sent or changed. Consistency is kept. Conversely, a connected cycle with a flat reconciled state, a signal, symbol information and a positive ask and bid sends exactly that bracket order |
| `Strategy.QuietCycleIsStable` | bot_cloud.py:395-399 | after a connected cycle that sent nothing, reconciling again against the same reply changes nothing |
| `Bot.TradingBot.constructor` | bot_cloud.py:37-53 | a new bot is flat (`position_open` false, `current_order_id` None) and has the `HEAD` defaults: reconnect interval 60, min volume 0.001, risk 0.01 |
| `Bot.TradingBot.Create` | bot_cloud.py:38-43 | construction fails (the `ValueError`) iff the user id or the password is missing or empty |
| `Bot.TradingBot.CreateWithDefaults` | bot_cloud.py:38-45 | `XTBTradingBot()` without arguments fails iff a credential is missing or empty, and otherwise gives a flat bot on symbol `BITCOIN` and timeframe `1h` |
| `Bot.TradingBot.CheckTradeStatus` | bot_cloud.py:355-381 | the loop returns true iff the held id is truthy and some open trade's `order2` equals it |
| `Bot.TradingBot.ReconcilePosition` | bot_cloud.py:395-399 | the fields afterwards are `Position.Reconcile` of the fields before; the invariant is kept |
| `Bot.TradingBot.ExecuteTrade` | bot_cloud.py:270-353 | the order sent and the new fields are `Orders.Execute` of the fields before; the invariant is kept |
| `Bot.TradingBot.RunStrategyCycle` | bot_cloud.py:383-409 | one loop iteration equals `Strategy.Cycle` of the fields before; the invariant is kept |
| `Diagnostic.SubObject` | diagnostic.py:72-73 | `.get(key, {})` gives `{}` when the key is missing, the nested dictionary when there is one, and a fault otherwise |
| `Diagnostic.CheckSignalConditions` | diagnostic.py:67-90 | "Unknown - couldn't get debug info" iff the reply is falsy or its `status` is not `'success'`. Each condition holds iff its field is exactly the string `'True'` (a missing field counts as `'False'`). `conditions_met` is their conjunction. The market fields are copied, or None when missing. A non-dictionary part raises |
| `Diagnostic.BooleanConditionNotCounted` | diagnostic.py:75-80 | a boolean `True` in place of the string `'True'` does not count, so the conditions are not met |
| `Diagnostic.PositionTrackingOk` | diagnostic.py:158-161 | no verdict on a falsy reply and a fault on a reply that is not a dictionary. Otherwise tracking is accurate iff `position_open` equals `previous_state` as Python's `==` decides: values of the same kind (a missing key is `None`) by value, a boolean against a number as 1/0, and anything else as unequal; so a present value against a missing `previous_state` is "Inconsistent" |

## Findings

| source | as written | input that shows it | evidently intended | confidence | as-written member | corrected member |
|---|---|---|---|---|---|---|
| bot_cloud.py:434-435 | `precision = len(str(pipsPrecision))`, so a pip is 10^-(number of characters of the precision) | `pipsPrecision = 4` gives precision 1, a pip of 0.1 and a stop 10 price units from entry (and rounding to one decimal) | a pip of 10^-pipsPrecision: a stop 0.01 from entry, rounded to 4 decimals | medium (not executed) | `Orders.PipDigitsAsWrittenCounterexample` | `Orders.PipStopIsHundredPips` |

The bracket variants are `FixedDistance` (the `HEAD` rule), `PipDistanceAsWritten` (the other side's rule exactly as written) and `PipDistance` (the corrected rule). The corrected rule is the pip variant the rest of the model states its pip properties about. The as-written rule remains available, so the other side's `execute_trade` can be run as the code has it.

## Left out

- Transport and session I/O are not modelled: WebSocket and streaming clients, login, ping, `getMarginLevel`, `getSymbol`, `getChartLastRequest`. Their answers are inputs, and `check_connection`/`connect` are booleans.
- The infinite `while True` loops and `time.sleep` are not modelled. One iteration is modelled. The reconnect clock (`last_reconnect`) is not represented.
- The Flask routes and threads pasted at the end of `bot_cloud.py` are web and threading layers, not decision logic. So are `start.py` and the `requests` functions and monitoring loop of `diagnostic.py`.
- Logging messages and environment loading are not modelled. The credentials are parameters of `Bot.TradingBot.Create`.
- `Decimal.RoundError`: Python rounds binary floats, which can differ from exact decimal rounding on a tie. The model rounds the exact decimal value.
- `Indicators.RsiBounds`: floating-point error of pandas' rolling sums is not modelled. For example, a mean loss that should be 0 may come out slightly non-zero.
- `Indicators.CalculateAtr` requires `period >= 1`: pandas' behaviour for a zero window is not modelled, and no caller passes one (`calculate_atr` is never called).
- The exception branch of `calculate_indicators`, which returns None, is not modelled. With numeric closes it is never taken.
- The timestamps (`pd.to_datetime`) and the sort of `get_historical_data` belong to the fetch. The model takes the candles in the order given.
- `execute_trade` is not modelled with a `None` venue response, which would raise in `response.get`. Nor is a non-numeric price or lot field, which would raise in `float(...)`. The unused `lotStep` is read into `SymbolInfo` only.
- The other side's `__init__` defaults (`EURUSD`, min volume 0.1, risk 0.02) and its `run_strategy` (no connection check, reconnect after an exception) are not modelled. Only its bracket and ATR are.
- `Position.OrderIdOf`: the venue's `returnData` is taken to be a dictionary or absent, and its `order` an integer or absent. A JSON `null` in either place is not modelled. A `null` `order` would leave `position_open` true with `current_order_id` None, against `Position.Consistent`. A `null` `returnData` would raise in `execute_trade` after the venue accepted the order, and `run_strategy` would swallow the exception and stay flat. `Position.TransitionsKeepConsistent` and `Bot.TradingBot.Valid` hold only for the non-null replies modelled.
- `Diagnostic.PositionTrackingOk`: nested dictionaries and lists are compared structurally. Python's `True == 1` inside them is not modelled.
