# Order execution and ordering tick of crypto-trading-bot, in Dafny

This project models the order-management core of the trading engine:

- the `OrderExecutor` of `modules/order/order_executor.js`, with
  - order placement with bounded retries (`executeOrder` / `triggerOrder`);
  - the price-following adjustment of an order before it is submitted (`createAdjustmentOrder`);
  - the polling ticker price lookup (`getCurrentPrice`);
  - `cancelOrder` and `cancelAll`;
  - the periodic re-pricing pass over the tracked orders (`adjustOpenOrdersPrice` with its per-order `visitExchangeOrder`), including the per-order guard `runningOrders`;
- the `tick_ordering` handler of `modules/trade.js`, with its `running` marker that keeps ordering cycles from overlapping;
- the list of active pairs that `start()` announces.

Layout:

- `boundary.dfy` (module `Boundary`) holds the collaborators the executor talks to. These are the exchange adapters, the ticker cache, the factory functions of the order dictionary and the configuration, all as inputs. Every call into an exchange adapter or the ticker cache takes the clock, in milliseconds, so they may answer differently over time. The order factory and the configuration do not depend on the clock.
- `placement.dfy` (module `Placement`) defines price lookup and placement as functions of those inputs and the clock. It proves the retry rules about them.
- `adjustment.dfy` (module `Adjustment`) does the same for the re-pricing pass over the executor's state.
- `order_executor.dfy` (module `Executor`) is the `OrderExecutor` class. Its fields `orders` and `runningOrders` are updated by methods that follow the source step by step: the polling loop, the retry loop, the purge loop and the visits. Each of these methods is proved equal to the function of `Placement` or `Adjustment` that specifies it; `cancelOrder`, `cancelAll` and the constructor have direct contracts instead.
- `trade.dfy` (module `Trading`) is the `Trade` class with the `running` marker and the active-pairs list. The handler's entry (up to its first `await`) and its last statement are separate methods, so a tick that arrives while a cycle awaits is a call of the entry on the marker that cycle left.

Modelling decisions:

- **Time.** Time is an integer number of milliseconds. Each wait the source makes advances the clock that the method threads through:
  - a poll interval of 200 ms;
  - the retry delay `order.retry_ms`.
  The retry delay is clamped as Node's timers clamp it: a delay below 1 ms or above 2^31 - 1 ms fires after 1 ms.
- **Configuration.** `systemUtil.getConfig` is modelled only for the two keys the executor reads, `order.retry` (default 4) and `order.retry_ms` (default 1500).
- **JavaScript truthiness is kept.** A price lookup that yields 0 counts as "no price" (`Truthy`), as the tests `!price` at order_executor.js:69 and :236 do.
- **The recreate call.** At order_executor.js:97 the re-pricing pass hands `Order.createRetryOrder` the tracked entry, not the order request inside it. The model keeps that distinction with a separate factory function `createRetryOrderFromEntry`.
- **A thrown order lookup.** `exchange.findOrderById` is awaited outside any `try` (order_executor.js:46). When it throws, that visit rejects, so the promise of the whole pass rejects, while the other visits run on. The model records this as the pass's `rejected` flag. The tick handler then stops before it clears its marker (trade.js:134-135).
  The design intent is that the core never raises and that per-order failures never fail the pass. The code does not do this here, and the model follows the code.
- **Guard on a thrown lookup.** The guard entry is also left as it was on that path. The visit sets the guard only later, at order_executor.js:66.
- **Visits run in sequence.** The visits of one pass follow one another in the order of the tracked list, each starting when the previous one ended. The guard entry a visit sets at line 66 is deleted again before the visit ends. In the source, an "already running" skip happens for an id whose visit from an earlier pass is still in flight. This model has no pass in flight, so from a new executor the guard stays empty (`Adjustment.AdjustPassFromEmptyGuard`). The skip and the purge are stated for arbitrary guard states, not reached from the constructor.

## Model

| member | source | states |
|---|---|---|
| Placement.RetryDelay | modules/order/order_executor.js:203-207 | the delay before a retry is the configured `order.retry_ms` (default 1500) when that lies within 1 ms and 2^31 - 1 ms, and 1 ms otherwise, as Node's timer clamps it |
| Placement.SignedPrice | modules/order/order_executor.js:282-287 | no contract of its own: the price of a ticker for a side; its properties are stated by `Placement.PriceSign` |
| Placement.PriceSign | modules/order/order_executor.js:282-287 | the magnitude of a looked-up price is the ask for a short order and the bid otherwise; with positive quotes the price is negative exactly for a short order |
| Placement.PollFrom | modules/order/order_executor.js:265-280 | no contract of its own: the polling loop from a given poll on; its properties are stated by `Placement.PollingBound`, and `Executor.OrderExecutor.GetCurrentPrice` is proved equal to it |
| Placement.CurrentPrice | modules/order/order_executor.js:254-289 | no contract of its own: the whole lookup from the first poll; `Placement.PollingBound` at poll 0 states its properties |
| Placement.PollingBound | modules/order/order_executor.js:265-280 | a lookup polls the ticker cache at most 40 times, 200 ms apart, asking for tickers at most 10 s old; it stops at the first up-to-date ticker and returns its signed price; it finds no price exactly when all 40 polls miss, and then ends 40 intervals later |
| Placement.TryOnce | modules/order/order_executor.js:161-198 | one call of triggerOrder keeps its counter, order and start time; it submits only with a counter within `order.retry`; it asks for a retry only on a reply with the retry flag and reports success only on a reply without it |
| Placement.Submit | modules/order/order_executor.js:190-200 | a submission records the order sent; when the exchange's `order` call throws the call fails; otherwise the reply is recorded, and the call asks for a retry exactly when the reply carries the retry flag and is a created order otherwise |
| Placement.AttemptRules | modules/order/order_executor.js:162-198 | a counter past `order.retry` ends the call before anything else; an unknown exchange ends it; the ticker is consulted only for a price-following order; no usable price ends the call; a price-following order is submitted as `createRetryOrderWithPriceAdjustment` at the looked-up price, a fixed-price order as it is; the exchange's reply decides failure, retry or success |
| Placement.Run | modules/order/order_executor.js:200-210 | a chain of triggerOrder calls is never empty and starts with the call for the given order and counter |
| Placement.Appended | modules/order/order_executor.js:212-222 | the chain adds at most one tracked entry, exactly when it resolves to a created order; that entry has the exchange order's id, the exchange name, the exchange order and the order submitted |
| Placement.Resolution | modules/order/order_executor.js:164-222 | no contract of its own: what executeOrder resolves to, the created exchange order of the chain's last call or undefined; `Placement.FailuresResolveUndefined` and `Placement.Appended` state its properties |
| Placement.RunSteps | modules/order/order_executor.js:161-206 | the counters of the calls of a chain are `retry`, `retry + 1`, ... in order |
| Placement.OnlyRetryFlagRetries | modules/order/order_executor.js:200-210 | every call of a chain except the last got a reply with the retry flag; the last call is never a retry request |
| Placement.RetryOrderChain | modules/order/order_executor.js:203-207 | each call after the first is given `createRetryOrder` of what the previous call submitted, and starts one retry delay after the previous call ended |
| Placement.RetryBound | modules/order/order_executor.js:162-207 | a chain started with counter `retry` submits at most `order.retry + 1 - retry` times and makes at most one call more; from counter 0 that is at most `order.retry + 1` submissions |
| Placement.SubmitsWithinLimit | modules/order/order_executor.js:162-166 | every call of a chain that submits has a counter of at most `order.retry` |
| Placement.FixedPriceNeverPolls | modules/order/order_executor.js:180-188 | when retry orders of fixed-price orders are fixed-price, a chain for a fixed-price order never looks up a price: each call submits its own order and takes no time |
| Placement.FailuresResolveUndefined | modules/order/order_executor.js:162-198 | a chain resolves to undefined exactly when its last call hit the retry limit, an unknown exchange, a missing price or a thrown submission, and exactly then it adds nothing to `orders` |
| Adjustment.Purge | modules/order/order_executor.js:30-34 | after the purge every guard entry was there before with the same start time and is at most two minutes old; every entry at most two minutes old is kept |
| Adjustment.DropId | modules/order/order_executor.js:52-54 | the tracked list afterwards is no longer than before; which entries remain, in which order and how often, is stated by `Adjustment.DropIdMembers`, `Adjustment.DropIdConcat` and `Adjustment.DropIdCounts` |
| Adjustment.DropIdMembers | modules/order/order_executor.js:52-54 | the tracked list afterwards holds exactly the entries whose id differs from the dropped one |
| Adjustment.DropIdAbsent | modules/order/order_executor.js:52-54 | dropping an id that no entry has leaves the tracked list unchanged |
| Adjustment.DropIdConcat | modules/order/order_executor.js:52-54 | the filter keeps the order of the entries: on two lists joined it gives the result on the first followed by the result on the second |
| Adjustment.DropIdCounts | modules/order/order_executor.js:52-54 | the filter keeps every copy of an entry whose id differs and no copy of one whose id matches |
| Adjustment.PriceFollowing | modules/order/order_executor.js:25-27 | the orders a pass visits are exactly the tracked orders that follow the price |
| Adjustment.PriceFollowingConcat | modules/order/order_executor.js:25-27 | the orders a pass visits keep the order of the tracked list: on two lists joined the filter gives the result on the first followed by the result on the second |
| Adjustment.PriceFollowingCounts | modules/order/order_executor.js:25-27 | the orders a pass visits include every copy of a price-following entry and no copy of any other |
| Adjustment.VisitOrder | modules/order/order_executor.js:36-106 | no contract of its own: one visit of a tracked order; `Adjustment.VisitGuard`, `Adjustment.VisitOrders`, `Adjustment.UpdateOnlyOnPriceChange`, `Adjustment.VisitDecision` and `Adjustment.RecreateOnCanceledRetry` state its properties, and `Executor.OrderExecutor.VisitExchangeOrder` is proved equal to it |
| Adjustment.Reprice | modules/order/order_executor.js:67-105 | no contract of its own: the rest of a visit once the order is open and unguarded; its properties are stated through `Adjustment.VisitOrder` by the same four lemmas |
| Adjustment.VisitGuard | modules/order/order_executor.js:36-106 | after a visit the guard entry of the visited id is absent on every path except the "already running" skip and a thrown order lookup, which leave the guard as it was; no other entry changes |
| Adjustment.VisitOrders | modules/order/order_executor.js:46-58 | a visit drops the order, with every entry of its id, exactly when the exchange reports it missing or not open; on every other path the tracked list only grows, by one entry exactly when a recreated order was created |
| Adjustment.UpdateOnlyOnPriceChange | modules/order/order_executor.js:61-88 | an update is considered only for an unguarded order the exchange reports open with a nonzero looked-up price; when one is considered it is sent exactly when the magnitudes of the old and new price differ, and it is the price update order for the exchange order's id |
| Adjustment.VisitDecision | modules/order/order_executor.js:60-88 | for an order the exchange reports open: the visit is skipped exactly when its id is guarded; otherwise it ends without an update exactly when no nonzero price is found; and with such a price an update is sent exactly when the magnitudes of the old and new price differ |
| Adjustment.RecreateOnCanceledRetry | modules/order/order_executor.js:88-100 | the order is recreated exactly when the update comes back not open, canceled and with the retry flag; the recreation runs the whole retry chain from `createRetryOrder` of the tracked entry and adds what that chain adds |
| Adjustment.VisitAll | modules/order/order_executor.js:36-110 | no contract of its own: the visits of a pass one after another, rejecting when a lookup threw; `Adjustment.VisitAllKeepsGuard` and `Adjustment.VisitAllKeepsOtherOrders` state its properties |
| Adjustment.AdjustPass | modules/order/order_executor.js:24-110 | no contract of its own: the whole pass; `Adjustment.AdjustPassGuard` and `Adjustment.AdjustPassKeepsFixedPriceOrders` state its properties, and `Executor.OrderExecutor.AdjustOpenOrdersPrice` is proved equal to it |
| Adjustment.VisitAllKeepsGuard | modules/order/order_executor.js:36-110 | the visits of a pass add no guard entry and change no start time |
| Adjustment.AdjustPassGuard | modules/order/order_executor.js:24-110 | after a whole pass the guard holds only entries that existed before it and were at most two minutes old when it started |
| Adjustment.AdjustPassFromEmptyGuard | modules/order/order_executor.js:24-110 | a pass that starts with an empty guard leaves it empty, because every visit releases its own entry |
| Adjustment.VisitAllKeepsOtherOrders | modules/order/order_executor.js:46-110 | a tracked entry whose id no visited order shares is still tracked after the visits |
| Adjustment.AdjustPassKeepsFixedPriceOrders | modules/order/order_executor.js:24-58 | a tracked order whose id no price-following order shares survives a pass |
| Executor.OrderExecutor.constructor | modules/order/order_executor.js:8-19 | a new executor tracks no orders and has an empty guard |
| Executor.OrderExecutor.GetCurrentPrice | modules/order/order_executor.js:254-289 | the polling loop yields the price and the end time of `CurrentPrice`, the lookup that `PollingBound` characterises |
| Executor.OrderExecutor.CreateAdjustmentOrder | modules/order/order_executor.js:232-244 | the adjusted order exists exactly when the lookup yields a usable price, and it is `createRetryOrderWithPriceAdjustment` at that price |
| Executor.OrderExecutor.TriggerOrderOnce | modules/order/order_executor.js:161-198 | one call of triggerOrder up to the exchange's answer ends as `TryOnce` does, so the rules of `AttemptRules` hold for it |
| Executor.OrderExecutor.ExecuteOrder | modules/order/order_executor.js:113-223 | executeOrder resolves as the chain of triggerOrder calls does, ends when the chain ends, and appends exactly what the chain adds to `orders` |
| Executor.OrderExecutor.CancelOrder | modules/order/order_executor.js:119-138 | cancelOrder yields the exchange's answer, and nothing exactly for an unknown exchange or a thrown call |
| Executor.OrderExecutor.CancelAll | modules/order/order_executor.js:140-159 | cancelAll yields the exchange's answer, and nothing exactly for an unknown exchange or a thrown call |
| Executor.OrderExecutor.PurgeStaleGuards | modules/order/order_executor.js:29-34 | the cleanup loop leaves exactly the purged guard |
| Executor.OrderExecutor.VisitExchangeOrder | modules/order/order_executor.js:36-106 | a visit leaves the tracked list and the guard, and ends on the path and at the time, that `VisitOrder` gives for the state before it |
| Executor.OrderExecutor.AdjustOpenOrdersPrice | modules/order/order_executor.js:24-111 | the pass leaves the state, the rejection flag and the end time that `AdjustPass` gives: the price-following orders are taken first, then the guard is purged, then they are visited |
| Trading.MayStartCycle | modules/trade.js:131 | no contract of its own: the handler's test, no marker or a marker more than 20 s old; `Trading.Trade.BeginCycle` and `Trading.Trade.OnTickOrdering` state what follows from it |
| Trading.Trade.constructor | modules/trade.js:129 | the handler starts with no cycle marked |
| Trading.Trade.BeginCycle | modules/trade.js:130-132 | a tick starts a cycle exactly when no cycle is marked or the marked one started more than 20 s ago, and then marks it with now; otherwise the marker stays, so a tick arriving while a cycle awaits within 20 s of its start is skipped |
| Trading.Trade.EndCycle | modules/trade.js:135 | once both awaited calls complete the marker is cleared |
| Trading.Trade.OnTickOrdering | modules/trade.js:129-139 | a cycle starts exactly when no cycle is marked or the marked one started more than 20 s ago; a skipped tick calls nothing and changes nothing; a started cycle sets the marker to now before its first call, runs the pair-state step and then, only if that step completed, the re-pricing pass; the marker is cleared only when both complete, so after a failure every tick within the next 20 s is skipped |
| Trading.ActivePairs | modules/trade.js:59-63 | the list has at most one entry per instance |
| Trading.ActivePairsMembers | modules/trade.js:59-63 | the label `exchange.symbol` of every watched instance is in the list, and every label in it is that of a watched instance |
| Trading.ActivePairsConcat | modules/trade.js:59-63 | the pairs of two lists joined are the pairs of the first followed by those of the second, so the order of the instances is kept |
| Trading.ActivePairsCount | modules/trade.js:59-63 | the list holds one label per watched instance |
| Trading.ActivePairsSingle | modules/trade.js:59-63 | a single instance contributes its label exactly when its state is `watch` |

## Left out

- Timers and scheduling: the `setInterval` tick emitters, the warmup delay and the daily log cleanup are not modelled. The retry delay and the polling interval appear only as clock advances.
- Concurrency inside the re-pricing pass: the visits that `Promise.all` runs together are modelled one after another, with the clock threaded through them. Interleavings of visits, and a visit running during another pass, are not captured.
- Concurrency between the tick handler and other callers of the executor is not modelled. Neither is concurrency between placements started by other listeners and a running pass.
- Process and operating system calls (the SIGINT handler, `process.exit`, the host name and platform, the random instance id and the formatted start time) are not modelled.
- Notification: the start message sent through `notify` is not modelled; only the pair list in it is.
- Event wiring and the listeners other than `tick_ordering` forward to collaborators that are not part of this model.
- Logging and console output are not modelled.
- The implementations of the exchange adapters, the exchange manager, the ticker cache, `systemUtil.getConfig` and the order dictionary (`dict/order`) are not part of this model. They are inputs (arrow-typed fields of `Venue`) with no behaviour assumed beyond their types.
- Configuration keys other than `order.retry` and `order.retry_ms` are not read by the modelled code and are not modelled.
- `Trading.Trade.OnTickOrdering`: the pair-state step is an input that gives the clock when it completes, or a thrown error. Its effects on the executor (it may place orders) are not modelled.
- An exchange reply of `undefined` from `exchange.order` or `exchange.updateOrder` is not modelled. In the source this makes the next property access throw.
- Guard entries left by a pass still in flight: visits run one after another, so a pass never overlaps another. From a new executor the guard stays empty, and the "already running" skip (order_executor.js:60-63) and the two-minute purge (:30-34) are reached only from guard states given as inputs to the lemmas.
- Dates and `moment` comparisons become integer millisecond comparisons that keep the strict `<`.
- Trading.Trade.OnTickOrdering: a whole cycle runs inside one call, with nothing between its `await`s. A tick that arrives while a cycle awaits is captured only through `Trading.Trade.BeginCycle` on the marker that cycle left, not as an interleaving with the awaited calls.
- Calls into the exchanges (`order`, `findOrderById`, `updateOrder`, `cancelOrder`, `cancelAll`) take no clock time: only the 200 ms poll wait and the retry delay advance the clock. So the end time of a call of triggerOrder is the time of its submission.
- Prices and quotes are reals. A `NaN` or `undefined` quote or price cannot occur, so the cases where `!price` (order_executor.js:69 and :236) is true for `NaN`, and where `===` (order_executor.js:80) is false for `NaN`, are not modelled.
