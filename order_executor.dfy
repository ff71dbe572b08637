// The OrderExecutor object: the tracked orders and the adjustment guard as fields,
// its operations as methods that update them step by step. The lookup, placement
// and re-pricing methods are proved equal to the functions of Placement and
// Adjustment that specify them, and the properties of the source's contract are
// proved about those functions; cancelOrder and cancelAll have direct contracts.

module Executor {
  import opened Boundary
  import opened Placement
  import opened Adjustment

  class OrderExecutor {
    /** The exchange manager, the ticker cache, the order factory and the configuration. */
    const venue: Venue
    /** The orders this executor placed and still tracks. */
    var orders: seq<TrackedOrder>
    /** Order id to the clock when a price adjustment of it started. */
    var runningOrders: map<string, int>

    function State(): ExecutorState
      reads this
    {
      ExecutorState(orders, runningOrders)
    }

    constructor(venue: Venue)
      ensures this.venue == venue
      ensures orders == [] && runningOrders == map[]
    {
      this.venue := venue;
      orders := [];
      runningOrders := map[];
    }

    /**
     * getCurrentPrice: poll the ticker cache until it has an up-to-date ticker, at
     * most `TickerPriceRetries` times, waiting one interval after each miss; the
     * price is the bid, or the negated ask for a short order.
     */
    method GetCurrentPrice(exchangeName: string, symbol: string, side: string, now: int)
      returns (price: Option<real>, later: int)
      ensures price == CurrentPrice(venue, exchangeName, symbol, side, now).price
      ensures later == CurrentPrice(venue, exchangeName, symbol, side, now).end
    {
      var ticker: Option<Ticker> := None;
      var retry: nat := 0;
      later := now;
      while retry < TickerPriceRetries
        invariant retry <= TickerPriceRetries
        invariant ticker.None?
        invariant later == now + TickerPriceInterval * retry
        invariant PollFrom(venue, exchangeName, symbol, side, now, retry) == CurrentPrice(venue, exchangeName, symbol, side, now)
      {
        ticker := venue.tickers(exchangeName, symbol, TickerMaxAge, later);
        if ticker.Some? {
          break;
        }
        retry := retry + 1;
        later := later + TickerPriceInterval;
      }
      if ticker.None? {
        return None, later;
      }
      var p := ticker.value.bid;
      if side == "short" {
        p := ticker.value.ask * -1.0;
      }
      price := Some(p);
    }

    /**
     * createAdjustmentOrder: the price-adjusted retry order at the current ticker
     * price, or nothing when no usable price is found.
     */
    method CreateAdjustmentOrder(exchangeName: string, order: Order, now: int)
      returns (adjusted: Option<Order>, later: int)
      ensures var lookup := CurrentPrice(venue, exchangeName, order.symbol, order.side, now);
        && later == lookup.end
        && (adjusted.Some? <==> Truthy(lookup.price))
        && (adjusted.Some? ==> adjusted.value == venue.factory.createRetryOrderWithPriceAdjustment(order, lookup.price.value))
    {
      var price;
      price, later := GetCurrentPrice(exchangeName, order.symbol, order.side, now);
      if !Truthy(price) {
        return None, later;
      }
      adjusted := Some(venue.factory.createRetryOrderWithPriceAdjustment(order, price.value));
    }

    /**
     * One call of triggerOrder up to the exchange's answer: the retry limit, the
     * exchange lookup, the price adjustment of a price-following order and the
     * submission.
     */
    method TriggerOrderOnce(exchangeName: string, order: Order, retry: nat, now: int) returns (step: Step)
      ensures step == TryOnce(venue, exchangeName, order, retry, now)
    {
      if retry > MaxRetries(venue) {
        return Step(retry, order, now, RetryLimitReached, now);
      }
      if exchangeName !in venue.exchanges {
        return Step(retry, order, now, InvalidExchange, now);
      }
      var submitted := order;
      var at := now;
      if order.adjustPrice {
        var adjusted;
        adjusted, at := CreateAdjustmentOrder(exchangeName, order, now);
        if adjusted.None? {
          return Step(retry, order, now, NoTickerPrice, at);
        }
        submitted := adjusted.value;
      }
      var reply := venue.exchanges[exchangeName].order(at, submitted);
      if reply.Threw? {
        return Step(retry, order, now, SubmitThrew(submitted), at);
      }
      if reply.value.retry {
        step := Step(retry, order, now, RetryRequested(submitted, reply.value), at);
      } else {
        step := Step(retry, order, now, Created(submitted, reply.value), at);
      }
    }

    /**
     * executeOrder with the calls of triggerOrder it leads to, one loop iteration per
     * call: a reply with the retry flag schedules `createRetryOrder` of the submitted
     * order one retry delay later with the next counter; any other end resolves the
     * promise, and only a created order adds an entry to `orders`.
     */
    method ExecuteOrder(exchangeName: string, order: Order, now: int)
      returns (result: Option<ExchangeOrder>, later: int)
      modifies this`orders
      ensures result == Resolution(Run(venue, exchangeName, order, 0, now))
      ensures later == RunEnd(Run(venue, exchangeName, order, 0, now))
      ensures orders == old(orders) + Appended(Run(venue, exchangeName, order, 0, now), exchangeName)
    {
      var current := order;
      var retry: nat := 0;
      var t := now;
      ghost var chain := Run(venue, exchangeName, order, 0, now);
      var step := TriggerOrderOnce(exchangeName, current, retry, t);
      while step.attempt.RetryRequested?
        invariant step == TryOnce(venue, exchangeName, current, retry, t)
        invariant Last(chain) == Last(Run(venue, exchangeName, current, retry, t))
        invariant orders == old(orders)
        decreases RetryMeasure(venue, retry)
      {
        RunContinues(venue, exchangeName, current, retry, t, step);
        current := venue.factory.createRetryOrder(step.attempt.submitted);
        retry := retry + 1;
        t := step.end + RetryDelay(venue);
        step := TriggerOrderOnce(exchangeName, current, retry, t);
      }
      RunStops(venue, exchangeName, current, retry, t, step);
      assert Last(chain) == step;
      later := step.end;
      if step.attempt.Created? {
        var exchangeOrder := step.attempt.reply;
        orders := orders + [TrackedOrder(exchangeOrder.id, exchangeName, exchangeOrder, step.attempt.submitted)];
        result := Some(exchangeOrder);
      } else {
        result := None;
      }
    }

    /** cancelOrder: the exchange's answer, or nothing for an unknown exchange or a thrown call. */
    method CancelOrder(exchangeName: string, orderId: string, now: int) returns (result: Option<ExchangeOrder>)
      ensures result.Some? <==> exchangeName in venue.exchanges && venue.exchanges[exchangeName].cancelOrder(now, orderId).Returned?
      ensures result.Some? ==> result.value == venue.exchanges[exchangeName].cancelOrder(now, orderId).value
    {
      if exchangeName !in venue.exchanges {
        return None;
      }
      var reply := venue.exchanges[exchangeName].cancelOrder(now, orderId);
      if reply.Threw? {
        return None;
      }
      result := Some(reply.value);
    }

    /** cancelAll: the exchange's answer, or nothing for an unknown exchange or a thrown call. */
    method CancelAll(exchangeName: string, symbol: string, now: int) returns (result: Option<seq<ExchangeOrder>>)
      ensures result.Some? <==> exchangeName in venue.exchanges && venue.exchanges[exchangeName].cancelAll(now, symbol).Returned?
      ensures result.Some? ==> result.value == venue.exchanges[exchangeName].cancelAll(now, symbol).value
    {
      if exchangeName !in venue.exchanges {
        return None;
      }
      var reply := venue.exchanges[exchangeName].cancelAll(now, symbol);
      if reply.Threw? {
        return None;
      }
      result := Some(reply.value);
    }

    /** The cleanup loop at the start of a pass: delete every guard entry older than two minutes. */
    method PurgeStaleGuards(now: int)
      modifies this`runningOrders
      ensures runningOrders == Purge(old(runningOrders), now)
    {
      var pending := runningOrders.Keys;
      ghost var start := runningOrders;
      while pending != {}
        invariant pending <= start.Keys
        invariant runningOrders == map id | id in start && (id in pending || !StaleGuard(start[id], now)) :: start[id]
        decreases |pending|
      {
        var id :| id in pending;
        if StaleGuard(runningOrders[id], now) {
          runningOrders := runningOrders - {id};
        }
        pending := pending - {id};
      }
    }

    /**
     * visitExchangeOrder for the tracked entry `tr`: drop it when the exchange no
     * longer reports it open, skip it while a visit of its id is in flight, else
     * guard it, look up the price and send an update when the price moved.
     */
    method VisitExchangeOrder(tr: TrackedOrder, now: int) returns (path: VisitPath, later: int)
      modifies this
      ensures Visit(State(), path, later) == VisitOrder(venue, old(State()), tr, now)
    {
      later := now;
      if tr.exchange !in venue.exchanges {
        runningOrders := runningOrders - {tr.id};
        return UnknownExchange, later;
      }
      var exchange := venue.exchanges[tr.exchange];
      var found := exchange.findOrderById(now, tr.id);
      if found.Threw? {
        return FindThrew, later;
      }
      if found.value.None? || found.value.value.status != "open" {
        orders := DropId(orders, tr.id);
        runningOrders := runningOrders - {tr.id};
        return Stale(found.value), later;
      }
      var last := found.value.value;
      if tr.id in runningOrders {
        return AlreadyRunning, later;
      }
      runningOrders := runningOrders[tr.id := now];
      var price;
      price, later := GetCurrentPrice(tr.exchange, tr.order.symbol, tr.order.side, now);
      if !Truthy(price) {
        runningOrders := runningOrders - {tr.id};
        return NoPrice, later;
      }
      var update := venue.factory.createPriceUpdateOrder(tr.exchangeOrder.id, price.value);
      if Abs(last.price) == Abs(price.value) {
        runningOrders := runningOrders - {tr.id};
        return PriceUnchanged(last, price.value), later;
      }
      var answer: UpdateAnswer;
      var reply := exchange.updateOrder(later, update.id, update);
      if reply.Threw? {
        answer := UpdateThrew;
      } else if reply.value.status == "open" {
        answer := StillOpen(reply.value);
      } else if reply.value.status == "canceled" && reply.value.retry {
        var result;
        result, later := ExecuteOrder(tr.exchange, venue.factory.createRetryOrderFromEntry(tr), later);
        answer := Recreated(result);
      } else {
        answer := UnexpectedState(reply.value);
      }
      runningOrders := runningOrders - {tr.id};
      path := UpdateSent(last, price.value, update, answer);
    }

    /**
     * adjustOpenOrdersPrice: take the price-following orders, purge stale guard
     * entries, then visit the orders one after another. `rejected` tells whether
     * the joined promise rejects.
     */
    method AdjustOpenOrdersPrice(now: int) returns (rejected: bool, later: int)
      modifies this
      ensures Pass(State(), rejected, later) == AdjustPass(venue, old(State()), now)
    {
      var snapshot := PriceFollowing(orders);
      PurgeStaleGuards(now);
      rejected := false;
      later := now;
      var i := 0;
      assert snapshot[i..] == snapshot;
      while i < |snapshot|
        invariant 0 <= i <= |snapshot|
        invariant var rest := VisitAll(venue, State(), snapshot[i..], later);
          AdjustPass(venue, old(State()), now) == Pass(rest.state, rejected || rest.rejected, rest.end)
      {
        assert snapshot[i..][1..] == snapshot[i + 1..];
        var path;
        path, later := VisitExchangeOrder(snapshot[i], later);
        if path.FindThrew? {
          rejected := true;
        }
        i := i + 1;
      }
    }
  }
}
