// The re-pricing pass over tracked orders (adjustOpenOrdersPrice with its inner
// visitExchangeOrder) as functions of the executor's state, the collaborators and
// the clock. The per-order visits, which the source starts together and joins,
// follow one another here.

module Adjustment {
  import opened Boundary
  import opened Placement

  /** The executor's state: the tracked orders and the guard from order id to start time. */
  datatype ExecutorState = ExecutorState(orders: seq<TrackedOrder>, running: map<string, int>)

  /** Guard entries older than this (milliseconds) are purged before a pass. */
  const GuardTtl: int := 120000

  /** A guard entry that started strictly before two minutes ago is stale. */
  predicate StaleGuard(started: int, now: int) {
    started < now - GuardTtl
  }

  /** The guard after the purge at the start of a pass. */
  function Purge(running: map<string, int>, now: int): (r: map<string, int>)
    ensures forall id :: id in r ==> id in running && r[id] == running[id] && now - r[id] <= GuardTtl
    ensures forall id :: id in running && now - running[id] <= GuardTtl ==> id in r
  {
    map id | id in running && !StaleGuard(running[id], now) :: running[id]
  }

  /** `orders.filter(o => o.id !== id)`. */
  function DropId(orders: seq<TrackedOrder>, id: string): (r: seq<TrackedOrder>)
    ensures |r| <= |orders|
  {
    if orders == [] then []
    else (if orders[0].id == id then [] else [orders[0]]) + DropId(orders[1..], id)
  }

  /** The entries left are exactly those whose id differs from the dropped one. */
  lemma {:induction false} DropIdMembers(orders: seq<TrackedOrder>, id: string)
    ensures forall e :: e in DropId(orders, id) <==> e in orders && e.id != id
  {
    if orders != [] {
      DropIdMembers(orders[1..], id);
      assert forall e :: e in orders <==> e == orders[0] || e in orders[1..];
    }
  }

  /** Dropping an id no entry has leaves the list as it was. */
  lemma {:induction false} DropIdAbsent(orders: seq<TrackedOrder>, id: string)
    requires forall e :: e in orders ==> e.id != id
    ensures DropId(orders, id) == orders
  {
    if orders != [] {
      assert orders[0] in orders;
      DropIdAbsent(orders[1..], id);
      assert orders == [orders[0]] + orders[1..];
    }
  }

  /** `orders.filter(o => o.order.hasAdjustedPrice())`: the orders a pass visits. */
  function PriceFollowing(orders: seq<TrackedOrder>): (r: seq<TrackedOrder>)
    ensures forall e :: e in r <==> e in orders && e.order.adjustPrice
    ensures |r| <= |orders|
  {
    if orders == [] then []
    else (if orders[0].order.adjustPrice then [orders[0]] else []) + PriceFollowing(orders[1..])
  }

  /** DropId on a list with a first entry: that entry unless it has the id, then the rest filtered. */
  lemma DropIdCons(x: TrackedOrder, rest: seq<TrackedOrder>, id: string)
    ensures DropId([x] + rest, id) == (if x.id == id then [] else [x]) + DropId(rest, id)
  {
    assert ([x] + rest)[1..] == rest;
  }

  /** The filter keeps the order of the entries it keeps: it distributes over concatenation. */
  lemma {:induction false} DropIdConcat(xs: seq<TrackedOrder>, ys: seq<TrackedOrder>, id: string)
    ensures DropId(xs + ys, id) == DropId(xs, id) + DropId(ys, id)
  {
    if xs == [] {
      assert xs + ys == ys;
    } else {
      var head := if xs[0].id == id then [] else [xs[0]];
      assert xs == [xs[0]] + xs[1..];
      assert xs + ys == [xs[0]] + (xs[1..] + ys);
      DropIdCons(xs[0], xs[1..], id);
      DropIdCons(xs[0], xs[1..] + ys, id);
      DropIdConcat(xs[1..], ys, id);
      assert head + (DropId(xs[1..], id) + DropId(ys, id)) == (head + DropId(xs[1..], id)) + DropId(ys, id);
    }
  }

  /** The filter keeps every copy of a kept entry and no copy of a dropped one. */
  lemma {:induction false} DropIdCounts(orders: seq<TrackedOrder>, id: string, e: TrackedOrder)
    ensures multiset(DropId(orders, id))[e] == if e.id == id then 0 else multiset(orders)[e]
  {
    if orders != [] {
      DropIdCounts(orders[1..], id, e);
      assert orders == [orders[0]] + orders[1..];
    }
  }

  /** The orders a pass visits keep the order of the tracked list: the filter distributes over concatenation. */
  lemma {:induction false} PriceFollowingConcat(xs: seq<TrackedOrder>, ys: seq<TrackedOrder>)
    ensures PriceFollowing(xs + ys) == PriceFollowing(xs) + PriceFollowing(ys)
  {
    if xs == [] {
      assert xs + ys == ys;
    } else {
      var head := if xs[0].order.adjustPrice then [xs[0]] else [];
      assert (xs + ys)[0] == xs[0];
      assert (xs + ys)[1..] == xs[1..] + ys;
      PriceFollowingConcat(xs[1..], ys);
      calc {
        PriceFollowing(xs + ys);
        head + PriceFollowing(xs[1..] + ys);
        head + (PriceFollowing(xs[1..]) + PriceFollowing(ys));
        (head + PriceFollowing(xs[1..])) + PriceFollowing(ys);
        PriceFollowing(xs) + PriceFollowing(ys);
      }
    }
  }

  /** The orders a pass visits include every copy of a price-following entry and no other entry. */
  lemma {:induction false} PriceFollowingCounts(orders: seq<TrackedOrder>, e: TrackedOrder)
    ensures multiset(PriceFollowing(orders))[e] == if e.order.adjustPrice then multiset(orders)[e] else 0
  {
    if orders != [] {
      PriceFollowingCounts(orders[1..], e);
      assert orders == [orders[0]] + orders[1..];
    }
  }

  /** How the update request of a visit ends. */
  datatype UpdateAnswer =
    | StillOpen(updated: ExchangeOrder)
    | Recreated(result: Option<ExchangeOrder>)
    | UnexpectedState(updated: ExchangeOrder)
    | UpdateThrew

  /** How one visit of a tracked order ends. */
  datatype VisitPath =
    | UnknownExchange
    | FindThrew
    | Stale(found: Option<ExchangeOrder>)
    | AlreadyRunning
    | NoPrice
    | PriceUnchanged(last: ExchangeOrder, price: real)
    | UpdateSent(last: ExchangeOrder, price: real, update: PriceUpdate, answer: UpdateAnswer)

  /** The state after a visit, how it ended and the clock when it ended. */
  datatype Visit = Visit(state: ExecutorState, path: VisitPath, end: int)

  /** The state after the guard entry of `id` is deleted. */
  function Release(s: ExecutorState, id: string): ExecutorState {
    ExecutorState(s.orders, s.running - {id})
  }

  /** visitExchangeOrder for the tracked order `tr`, starting at clock `now`. */
  function VisitOrder(v: Venue, s: ExecutorState, tr: TrackedOrder, now: int): Visit {
    if tr.exchange !in v.exchanges then
      Visit(Release(s, tr.id), UnknownExchange, now)
    else
      var exchange := v.exchanges[tr.exchange];
      match exchange.findOrderById(now, tr.id)
      case Threw => Visit(s, FindThrew, now)
      case Returned(found) =>
        if found.None? || found.value.status != "open" then
          Visit(ExecutorState(DropId(s.orders, tr.id), s.running - {tr.id}), Stale(found), now)
        else if tr.id in s.running then
          Visit(s, AlreadyRunning, now)
        else
          Reprice(v, s, tr, found.value, now)
  }

  /**
   * The rest of a visit once the exchange reports the order open and no visit of its
   * id is in flight: look up the price, compare magnitudes, send the update.
   */
  function Reprice(v: Venue, s: ExecutorState, tr: TrackedOrder, last: ExchangeOrder, now: int): Visit
    requires tr.exchange in v.exchanges
  {
    var lookup := CurrentPrice(v, tr.exchange, tr.order.symbol, tr.order.side, now);
    if !Truthy(lookup.price) then
      Visit(Release(s, tr.id), NoPrice, lookup.end)
    else
      var price := lookup.price.value;
      var update := v.factory.createPriceUpdateOrder(tr.exchangeOrder.id, price);
      var t := lookup.end;
      if Abs(last.price) == Abs(price) then
        Visit(Release(s, tr.id), PriceUnchanged(last, price), t)
      else
        match v.exchanges[tr.exchange].updateOrder(t, update.id, update)
        case Threw => Visit(Release(s, tr.id), UpdateSent(last, price, update, UpdateThrew), t)
        case Returned(u) =>
          if u.status == "open" then
            Visit(Release(s, tr.id), UpdateSent(last, price, update, StillOpen(u)), t)
          else if u.status == "canceled" && u.retry then
            var run := Run(v, tr.exchange, v.factory.createRetryOrderFromEntry(tr), 0, t);
            Visit(ExecutorState(s.orders + Appended(run, tr.exchange), s.running - {tr.id}),
                  UpdateSent(last, price, update, Recreated(Resolution(run))), RunEnd(run))
          else
            Visit(Release(s, tr.id), UpdateSent(last, price, update, UnexpectedState(u)), t)
  }

  /**
   * The guard after a visit: the visit's own entry is deleted on every path except
   * the "already running" skip and a thrown lookup, which leave the guard as it was;
   * no other entry changes.
   */
  lemma VisitGuard(v: Venue, s: ExecutorState, tr: TrackedOrder, now: int)
    ensures var r := VisitOrder(v, s, tr, now);
      r.state.running == if r.path.AlreadyRunning? || r.path.FindThrew? then s.running else s.running - {tr.id}
  {
  }

  /**
   * The tracked orders after a visit: an order the exchange no longer reports open
   * is dropped together with every entry of its id; otherwise the list only grows,
   * by the entry of a recreated order.
   */
  lemma VisitOrders(v: Venue, s: ExecutorState, tr: TrackedOrder, now: int)
    ensures var r := VisitOrder(v, s, tr, now);
      && (r.path.Stale? <==>
            tr.exchange in v.exchanges &&
            match v.exchanges[tr.exchange].findOrderById(now, tr.id)
            case Threw => false
            case Returned(found) => found.None? || found.value.status != "open")
      && (r.path.Stale? ==> r.state.orders == DropId(s.orders, tr.id))
      && (!r.path.Stale? ==> s.orders <= r.state.orders && |r.state.orders| <= |s.orders| + 1)
      && (|r.state.orders| == |s.orders| + 1 <==> r.path.UpdateSent? && r.path.answer.Recreated? && r.path.answer.result.Some?)
  {
    var r := VisitOrder(v, s, tr, now);
    if r.path.UpdateSent? && r.path.answer.Recreated? {
      var t := CurrentPrice(v, tr.exchange, tr.order.symbol, tr.order.side, now).end;
      var run := Run(v, tr.exchange, v.factory.createRetryOrderFromEntry(tr), 0, t);
      assert r.state.orders == s.orders + Appended(run, tr.exchange);
    }
  }

  /**
   * The exchange is asked to update a price only when a visit found the order open
   * and unguarded, found a price, and the magnitudes of the old and the new price
   * differ; the request carries the signed new price for the exchange order's id.
   */
  lemma UpdateOnlyOnPriceChange(v: Venue, s: ExecutorState, tr: TrackedOrder, now: int)
    ensures var r := VisitOrder(v, s, tr, now);
      (r.path.UpdateSent? || r.path.PriceUnchanged?) ==>
        && tr.id !in s.running
        && r.path.last.status == "open"
        && Some(r.path.price) == CurrentPrice(v, tr.exchange, tr.order.symbol, tr.order.side, now).price
        && r.path.price != 0.0
        && (r.path.UpdateSent? <==> Abs(r.path.last.price) != Abs(r.path.price))
    ensures var r := VisitOrder(v, s, tr, now);
      r.path.UpdateSent? ==> r.path.update == v.factory.createPriceUpdateOrder(tr.exchangeOrder.id, r.path.price)
  {
  }

  /**
   * The decision of a visit once the exchange reports the order open: a guarded id is
   * skipped; otherwise a missing or zero price ends the visit, and with a usable price
   * an update is sent exactly when the magnitudes of the old and the new price differ.
   */
  lemma VisitDecision(v: Venue, s: ExecutorState, tr: TrackedOrder, now: int, eo: ExchangeOrder)
    requires tr.exchange in v.exchanges
    requires v.exchanges[tr.exchange].findOrderById(now, tr.id) == Returned(Some(eo)) && eo.status == "open"
    ensures var r := VisitOrder(v, s, tr, now);
      var lookup := CurrentPrice(v, tr.exchange, tr.order.symbol, tr.order.side, now);
      && (r.path.AlreadyRunning? <==> tr.id in s.running)
      && (tr.id !in s.running ==> (r.path.NoPrice? <==> !Truthy(lookup.price)))
      && (tr.id !in s.running && Truthy(lookup.price) ==>
            (r.path.UpdateSent? <==> Abs(eo.price) != Abs(lookup.price.value)))
  {
  }

  /**
   * An order whose update came back canceled with the retry flag is placed again,
   * through the whole retry chain, as `createRetryOrder` of its tracked entry.
   */
  lemma RecreateOnCanceledRetry(v: Venue, s: ExecutorState, tr: TrackedOrder, now: int)
    ensures var r := VisitOrder(v, s, tr, now);
      r.path.UpdateSent? ==>
        var t := CurrentPrice(v, tr.exchange, tr.order.symbol, tr.order.side, now).end;
        var run := Run(v, tr.exchange, v.factory.createRetryOrderFromEntry(tr), 0, t);
        && (r.path.answer.Recreated? <==>
              match v.exchanges[tr.exchange].updateOrder(t, r.path.update.id, r.path.update)
              case Threw => false
              case Returned(u) => u.status != "open" && u.status == "canceled" && u.retry)
        && (r.path.answer.Recreated? ==>
              r.path.answer.result == Resolution(run) && r.state.orders == s.orders + Appended(run, tr.exchange))
  {
  }

  /** The state after the visits of `snapshot`, whether one of them rejected, and the clock at the end. */
  datatype Pass = Pass(state: ExecutorState, rejected: bool, end: int)

  /**
   * The visits of `snapshot`, one after another, each starting when the previous one
   * ended. A visit whose order lookup threw rejects the joined promise.
   */
  function VisitAll(v: Venue, s: ExecutorState, snapshot: seq<TrackedOrder>, now: int): Pass
    decreases |snapshot|
  {
    if snapshot == [] then Pass(s, false, now)
    else
      var first := VisitOrder(v, s, snapshot[0], now);
      var rest := VisitAll(v, first.state, snapshot[1..], first.end);
      Pass(rest.state, first.path.FindThrew? || rest.rejected, rest.end)
  }

  /** adjustOpenOrdersPrice: take the price-following orders, purge the guard, visit them. */
  function AdjustPass(v: Venue, s: ExecutorState, now: int): Pass {
    VisitAll(v, ExecutorState(s.orders, Purge(s.running, now)), PriceFollowing(s.orders), now)
  }

  /**
   * A pass never leaves a guard entry of its own behind: every entry after the
   * visits was there before them, with the same start time.
   */
  lemma {:induction false} VisitAllKeepsGuard(v: Venue, s: ExecutorState, snapshot: seq<TrackedOrder>, now: int)
    decreases |snapshot|
    ensures forall id :: id in VisitAll(v, s, snapshot, now).state.running ==>
      id in s.running && VisitAll(v, s, snapshot, now).state.running[id] == s.running[id]
  {
    if snapshot != [] {
      var first := VisitOrder(v, s, snapshot[0], now);
      VisitGuard(v, s, snapshot[0], now);
      VisitAllKeepsGuard(v, first.state, snapshot[1..], first.end);
    }
  }

  /**
   * After a whole pass the guard holds only entries that were there before it and
   * are at most two minutes old at the start of the pass.
   */
  lemma AdjustPassGuard(v: Venue, s: ExecutorState, now: int)
    ensures forall id :: id in AdjustPass(v, s, now).state.running ==>
      && id in s.running
      && AdjustPass(v, s, now).state.running[id] == s.running[id]
      && now - s.running[id] <= GuardTtl
  {
    VisitAllKeepsGuard(v, ExecutorState(s.orders, Purge(s.running, now)), PriceFollowing(s.orders), now);
  }

  /**
   * A pass drops a tracked entry only when a visited order shares its id: an entry
   * whose id no visited order has is still tracked afterwards.
   */
  lemma {:induction false} VisitAllKeepsOtherOrders(v: Venue, s: ExecutorState, snapshot: seq<TrackedOrder>, now: int, e: TrackedOrder)
    requires e in s.orders
    requires forall x :: x in snapshot ==> x.id != e.id
    decreases |snapshot|
    ensures e in VisitAll(v, s, snapshot, now).state.orders
  {
    if snapshot != [] {
      var first := VisitOrder(v, s, snapshot[0], now);
      VisitOrders(v, s, snapshot[0], now);
      DropIdMembers(s.orders, snapshot[0].id);
      assert snapshot[0] in snapshot;
      assert e in first.state.orders;
      forall x | x in snapshot[1..]
        ensures x.id != e.id
      {
        assert x in snapshot;
      }
      VisitAllKeepsOtherOrders(v, first.state, snapshot[1..], first.end, e);
    }
  }

  /**
   * Since the visits of a pass run one after another and each releases its own
   * guard entry, a pass that starts with an empty guard leaves it empty.
   */
  lemma AdjustPassFromEmptyGuard(v: Venue, s: ExecutorState, now: int)
    requires s.running == map[]
    ensures AdjustPass(v, s, now).state.running == map[]
  {
    AdjustPassGuard(v, s, now);
  }

  /**
   * A tracked order that does not follow the price, and whose id no price-following
   * order shares, survives a pass.
   */
  lemma AdjustPassKeepsFixedPriceOrders(v: Venue, s: ExecutorState, now: int, e: TrackedOrder)
    requires e in s.orders
    requires forall x :: x in s.orders && x.order.adjustPrice ==> x.id != e.id
    ensures e in AdjustPass(v, s, now).state.orders
  {
    VisitAllKeepsOtherOrders(v, ExecutorState(s.orders, Purge(s.running, now)), PriceFollowing(s.orders), now, e);
  }
}
