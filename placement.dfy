// Placing an order: the ticker price lookup (getCurrentPrice), the price-following
// adjustment (createAdjustmentOrder) and the retry rule of triggerOrder, as
// functions of the collaborators and the clock. The class in order_executor.dfy
// runs these steps imperatively and is proved equal to them.

module Placement {
  import opened Boundary

  /** Milliseconds between two polls of the ticker cache. */
  const TickerPriceInterval: int := 200
  /** How often the ticker cache is polled before giving up. */
  const TickerPriceRetries: nat := 40
  /** The age a ticker may have and still count as up to date. */
  const TickerMaxAge: int := 10000

  function Abs(x: real): real {
    if x < 0.0 then -x else x
  }

  /** A price as a JavaScript condition sees it: a missing price and 0 are both false. */
  predicate Truthy(price: Option<real>) {
    price.Some? && price.value != 0.0
  }

  /** `order.retry` with its default: the largest retry counter that still submits. */
  function MaxRetries(v: Venue): int {
    GetConfig(v.config.retry, 4)
  }

  /**
   * The delay before a retry: `order.retry_ms` with its default, as a timer
   * applies it (a delay below 1 ms or above 2^31 - 1 ms runs after 1 ms).
   */
  function RetryDelay(v: Venue): (d: int)
    ensures 1 <= d
    ensures 1 <= GetConfig(v.config.retryMs, 1500) <= 0x7fff_ffff ==> d == GetConfig(v.config.retryMs, 1500)
    ensures !(1 <= GetConfig(v.config.retryMs, 1500) <= 0x7fff_ffff) ==> d == 1
  {
    var ms := GetConfig(v.config.retryMs, 1500);
    if 1 <= ms <= 0x7fff_ffff then ms else 1
  }

  /** The price of a ticker for an order side: the bid, or the negated ask for a short order. */
  function SignedPrice(t: Ticker, side: string): real {
    if side == "short" then t.ask * -1.0 else t.bid
  }

  /**
   * The sign of a price tells its side: its magnitude is the ask for a short order
   * and the bid otherwise, and with positive quotes it is negative exactly for a
   * short order.
   */
  lemma PriceSign(t: Ticker, side: string)
    ensures Abs(SignedPrice(t, side)) == (if side == "short" then Abs(t.ask) else Abs(t.bid))
    ensures t.bid > 0.0 && t.ask > 0.0 ==> (SignedPrice(t, side) < 0.0 <==> side == "short")
  {
  }

  /** The answer of the ticker cache to poll number `j` (from 0) of a lookup that starts at `now`. */
  function PollAt(v: Venue, exchange: string, symbol: string, now: int, j: nat): Option<Ticker> {
    v.tickers(exchange, symbol, TickerMaxAge, now + TickerPriceInterval * j)
  }

  /**
   * The outcome of a price lookup: the price (if any), how many polls were made
   * and the clock when the lookup resolves.
   */
  datatype PriceLookup = PriceLookup(price: Option<real>, polls: nat, end: int)

  /**
   * Polling from poll `j` on: stop at the first up-to-date ticker; after a poll that
   * finds none, wait one interval; after `TickerPriceRetries` polls, give up.
   */
  function PollFrom(v: Venue, exchange: string, symbol: string, side: string, now: int, j: nat): PriceLookup
    requires j <= TickerPriceRetries
    decreases TickerPriceRetries - j
  {
    if j == TickerPriceRetries then
      PriceLookup(None, j, now + TickerPriceInterval * j)
    else
      match PollAt(v, exchange, symbol, now, j)
      case Some(t) => PriceLookup(Some(SignedPrice(t, side)), j + 1, now + TickerPriceInterval * j)
      case None => PollFrom(v, exchange, symbol, side, now, j + 1)
  }

  /** getCurrentPrice: the whole lookup, from the first poll. */
  function CurrentPrice(v: Venue, exchange: string, symbol: string, side: string, now: int): PriceLookup {
    PollFrom(v, exchange, symbol, side, now, 0)
  }

  /**
   * Bounded polling: a lookup polls at most `TickerPriceRetries` times, one interval
   * apart; it stops at the first up-to-date ticker, whose signed price it returns,
   * and finds no price exactly when no poll yields a ticker.
   */
  lemma {:induction false} PollingBound(v: Venue, exchange: string, symbol: string, side: string, now: int, j: nat)
    requires j <= TickerPriceRetries
    decreases TickerPriceRetries - j
    ensures var r := PollFrom(v, exchange, symbol, side, now, j);
      j <= r.polls <= TickerPriceRetries
    ensures forall k :: j <= k < PollFrom(v, exchange, symbol, side, now, j).polls ==>
      (PollAt(v, exchange, symbol, now, k).Some? <==>
        PollFrom(v, exchange, symbol, side, now, j).price.Some? && k == PollFrom(v, exchange, symbol, side, now, j).polls - 1)
    ensures var r := PollFrom(v, exchange, symbol, side, now, j);
      r.price.Some? ==>
      && j < r.polls
      && PollAt(v, exchange, symbol, now, r.polls - 1).Some?
      && r.price.value == SignedPrice(PollAt(v, exchange, symbol, now, r.polls - 1).value, side)
      && r.end == now + TickerPriceInterval * (r.polls - 1)
    ensures var r := PollFrom(v, exchange, symbol, side, now, j);
      r.price.None? ==> r.polls == TickerPriceRetries && r.end == now + TickerPriceInterval * TickerPriceRetries
  {
    if j < TickerPriceRetries && PollAt(v, exchange, symbol, now, j).None? {
      PollingBound(v, exchange, symbol, side, now, j + 1);
    }
  }

  /** How one call of triggerOrder ends. */
  datatype Attempt =
    | RetryLimitReached
    | InvalidExchange
    | NoTickerPrice
    | SubmitThrew(submitted: Order)
    | RetryRequested(submitted: Order, reply: ExchangeOrder)
    | Created(submitted: Order, reply: ExchangeOrder)

  predicate Submitted(a: Attempt) {
    a.SubmitThrew? || a.RetryRequested? || a.Created?
  }

  /**
   * One call of triggerOrder: its retry counter, the order it was given, the clock
   * when it starts, how it ends and the clock when it ends.
   */
  datatype Step = Step(retry: nat, order: Order, start: int, attempt: Attempt, end: int)

  /** One call of triggerOrder for `order` with counter `retry` at clock `now`. */
  function TryOnce(v: Venue, name: string, order: Order, retry: nat, now: int): (s: Step)
    ensures s.retry == retry && s.order == order && s.start == now
    ensures Submitted(s.attempt) ==> retry <= MaxRetries(v)
    ensures s.attempt.RetryRequested? ==> s.attempt.reply.retry
    ensures s.attempt.Created? ==> !s.attempt.reply.retry
  {
    if retry > MaxRetries(v) then
      Step(retry, order, now, RetryLimitReached, now)
    else if name !in v.exchanges then
      Step(retry, order, now, InvalidExchange, now)
    else if !order.adjustPrice then
      Submit(v, name, order, retry, now, order, now)
    else
      var lookup := CurrentPrice(v, name, order.symbol, order.side, now);
      if !Truthy(lookup.price) then
        Step(retry, order, now, NoTickerPrice, lookup.end)
      else
        var adjusted := v.factory.createRetryOrderWithPriceAdjustment(order, lookup.price.value);
        Submit(v, name, order, retry, now, adjusted, lookup.end)
  }

  /** The submission of `submitted` at clock `t` by the call for `order`, and what the exchange answers. */
  function Submit(v: Venue, name: string, order: Order, retry: nat, now: int, submitted: Order, t: int): (s: Step)
    requires name in v.exchanges
    ensures s.retry == retry && s.order == order && s.start == now && s.end == t
    ensures Submitted(s.attempt) && s.attempt.submitted == submitted
    ensures s.attempt.RetryRequested? ==> s.attempt.reply.retry
    ensures s.attempt.Created? ==> !s.attempt.reply.retry
    ensures match v.exchanges[name].order(t, submitted)
      case Threw => s.attempt.SubmitThrew?
      case Returned(eo) => !s.attempt.SubmitThrew? && s.attempt.reply == eo && (s.attempt.RetryRequested? <==> eo.retry)
  {
    match v.exchanges[name].order(t, submitted)
    case Threw => Step(retry, order, now, SubmitThrew(submitted), t)
    case Returned(eo) =>
      if eo.retry then Step(retry, order, now, RetryRequested(submitted, eo), t)
      else Step(retry, order, now, Created(submitted, eo), t)
  }

  /**
   * The rules of one call of triggerOrder: past the limit nothing is looked up or
   * submitted; an unknown exchange ends the call; the ticker is consulted only for
   * an order that follows the price, and then the price-adjusted order is submitted;
   * the exchange's answer decides between failure, retry and success.
   */
  lemma AttemptRules(v: Venue, name: string, order: Order, retry: nat, now: int)
    ensures var s := TryOnce(v, name, order, retry, now);
      && (s.attempt.RetryLimitReached? <==> retry > MaxRetries(v))
      && (s.attempt.InvalidExchange? <==> retry <= MaxRetries(v) && name !in v.exchanges)
      && (!order.adjustPrice ==> s.end == now && !s.attempt.NoTickerPrice?)
      && (!order.adjustPrice && Submitted(s.attempt) ==> s.attempt.submitted == order)
      && (s.attempt.NoTickerPrice? <==>
            retry <= MaxRetries(v) && name in v.exchanges && order.adjustPrice &&
            !Truthy(CurrentPrice(v, name, order.symbol, order.side, now).price))
      && (order.adjustPrice && Submitted(s.attempt) ==>
            var lookup := CurrentPrice(v, name, order.symbol, order.side, now);
            Truthy(lookup.price) && s.end == lookup.end &&
            s.attempt.submitted == v.factory.createRetryOrderWithPriceAdjustment(order, lookup.price.value))
      && (Submitted(s.attempt) ==>
            retry <= MaxRetries(v) && name in v.exchanges &&
            match v.exchanges[name].order(s.end, s.attempt.submitted)
            case Threw => s.attempt.SubmitThrew?
            case Returned(eo) => (if eo.retry then s.attempt.RetryRequested? else s.attempt.Created?) && s.attempt.reply == eo)
  {
  }

  function RetryMeasure(v: Venue, retry: nat): nat {
    if retry <= MaxRetries(v) then MaxRetries(v) + 1 - retry else 0
  }

  /**
   * The chain of triggerOrder calls that starts with counter `retry`: a call whose
   * submission comes back with the retry flag schedules the next one with
   * `createRetryOrder` of the submitted order, one retry delay later.
   */
  function Run(v: Venue, name: string, order: Order, retry: nat, now: int): (r: seq<Step>)
    decreases RetryMeasure(v, retry)
    ensures |r| >= 1 && r[0] == TryOnce(v, name, order, retry, now)
  {
    var s := TryOnce(v, name, order, retry, now);
    if s.attempt.RetryRequested? then
      [s] + Run(v, name, v.factory.createRetryOrder(s.attempt.submitted), retry + 1, s.end + RetryDelay(v))
    else
      [s]
  }

  /** A retried call is followed by the chain of its retry, which ends where the whole chain ends. */
  lemma RunContinues(v: Venue, name: string, order: Order, retry: nat, now: int, s: Step)
    requires s == TryOnce(v, name, order, retry, now)
    requires s.attempt.RetryRequested?
    ensures Last(Run(v, name, order, retry, now))
      == Last(Run(v, name, v.factory.createRetryOrder(s.attempt.submitted), retry + 1, s.end + RetryDelay(v)))
  {
    var tail := Run(v, name, v.factory.createRetryOrder(s.attempt.submitted), retry + 1, s.end + RetryDelay(v));
    assert Run(v, name, order, retry, now) == [s] + tail;
  }

  /** A call that is not retried ends the chain. */
  lemma RunStops(v: Venue, name: string, order: Order, retry: nat, now: int, s: Step)
    requires s == TryOnce(v, name, order, retry, now)
    requires !s.attempt.RetryRequested?
    ensures Run(v, name, order, retry, now) == [s]
  {
  }

  function Last(r: seq<Step>): Step
    requires |r| >= 1
  {
    r[|r| - 1]
  }

  /** What the promise of executeOrder resolves to: the created exchange order, or undefined. */
  function Resolution(r: seq<Step>): Option<ExchangeOrder>
    requires |r| >= 1
  {
    match Last(r).attempt
    case Created(_, eo) => Some(eo)
    case _ => None
  }

  /** The clock when the chain resolves. */
  function RunEnd(r: seq<Step>): int
    requires |r| >= 1
  {
    Last(r).end
  }

  /** What the chain appends to `orders`: one entry for the created order, nothing otherwise. */
  function Appended(r: seq<Step>, name: string): (a: seq<TrackedOrder>)
    requires |r| >= 1
    ensures |a| <= 1
    ensures a != [] <==> Resolution(r).Some?
    ensures a != [] ==> a[0] == TrackedOrder(Resolution(r).value.id, name, Resolution(r).value, Last(r).attempt.submitted)
  {
    match Last(r).attempt
    case Created(submitted, eo) => [TrackedOrder(eo.id, name, eo, submitted)]
    case _ => []
  }

  /** The counters of a chain go up by one from `retry`. */
  lemma {:induction false} RunSteps(v: Venue, name: string, order: Order, retry: nat, now: int)
    decreases RetryMeasure(v, retry)
    ensures forall k :: 0 <= k < |Run(v, name, order, retry, now)| ==> Run(v, name, order, retry, now)[k].retry == retry + k
  {
    var s := TryOnce(v, name, order, retry, now);
    var r := Run(v, name, order, retry, now);
    if s.attempt.RetryRequested? {
      var next := v.factory.createRetryOrder(s.attempt.submitted);
      var t := s.end + RetryDelay(v);
      RunSteps(v, name, next, retry + 1, t);
      var tail := Run(v, name, next, retry + 1, t);
      forall k | 1 <= k < |r|
        ensures r[k].retry == retry + k
      {
        assert r[k] == tail[k - 1];
      }
    }
  }

  /**
   * Only the retry flag retries: every call but the last got a reply with the retry
   * flag, and the last call did not.
   */
  lemma {:induction false} OnlyRetryFlagRetries(v: Venue, name: string, order: Order, retry: nat, now: int)
    decreases RetryMeasure(v, retry)
    ensures forall k :: 0 <= k < |Run(v, name, order, retry, now)| - 1 ==>
      Run(v, name, order, retry, now)[k].attempt.RetryRequested? &&
      Run(v, name, order, retry, now)[k].attempt.reply.retry
    ensures !Last(Run(v, name, order, retry, now)).attempt.RetryRequested?
  {
    var s := TryOnce(v, name, order, retry, now);
    var r := Run(v, name, order, retry, now);
    if s.attempt.RetryRequested? {
      var next := v.factory.createRetryOrder(s.attempt.submitted);
      var t := s.end + RetryDelay(v);
      OnlyRetryFlagRetries(v, name, next, retry + 1, t);
      var tail := Run(v, name, next, retry + 1, t);
      forall k | 1 <= k < |r| - 1
        ensures r[k].attempt.RetryRequested? && r[k].attempt.reply.retry
      {
        assert r[k] == tail[k - 1];
      }
      assert Last(r) == Last(tail);
    }
  }

  /** The next call of a chain: `createRetryOrder` of what the retried call submitted, one retry delay later. */
  predicate Follows(v: Venue, previous: Step, next: Step) {
    && previous.attempt.RetryRequested?
    && next.order == v.factory.createRetryOrder(previous.attempt.submitted)
    && next.start == previous.end + RetryDelay(v)
  }

  /** A retried call hands `createRetryOrder` of what it submitted to the next call. */
  lemma {:induction false} RetryOrderChain(v: Venue, name: string, order: Order, retry: nat, now: int)
    decreases RetryMeasure(v, retry)
    ensures forall j, k {:trigger Run(v, name, order, retry, now)[j], Run(v, name, order, retry, now)[k]} ::
      0 <= j && k == j + 1 && k < |Run(v, name, order, retry, now)| ==>
      Follows(v, Run(v, name, order, retry, now)[j], Run(v, name, order, retry, now)[k])
  {
    var s := TryOnce(v, name, order, retry, now);
    var r := Run(v, name, order, retry, now);
    if s.attempt.RetryRequested? {
      var next := v.factory.createRetryOrder(s.attempt.submitted);
      var t := s.end + RetryDelay(v);
      RetryOrderChain(v, name, next, retry + 1, t);
      var tail := Run(v, name, next, retry + 1, t);
      forall j, k {:trigger r[j], r[k]} | 0 <= j && k == j + 1 && k < |r|
        ensures Follows(v, r[j], r[k])
      {
        assert r[k] == tail[j];
        if j > 0 {
          assert r[j] == tail[j - 1];
        }
      }
    }
  }

  /** The number of calls in a chain that submitted an order to the exchange. */
  function SubmissionCount(r: seq<Step>): nat {
    if r == [] then 0 else (if Submitted(r[0].attempt) then 1 else 0) + SubmissionCount(r[1..])
  }

  /**
   * The retry bound: a chain started with counter `retry` makes at most
   * `order.retry + 1 - retry` calls that submit, and at most one more call.
   */
  lemma {:induction false} RetryBound(v: Venue, name: string, order: Order, retry: nat, now: int)
    decreases RetryMeasure(v, retry)
    ensures SubmissionCount(Run(v, name, order, retry, now)) <= RetryMeasure(v, retry)
    ensures |Run(v, name, order, retry, now)| <= RetryMeasure(v, retry) + 1
  {
    var s := TryOnce(v, name, order, retry, now);
    var r := Run(v, name, order, retry, now);
    if s.attempt.RetryRequested? {
      var next := v.factory.createRetryOrder(s.attempt.submitted);
      var t := s.end + RetryDelay(v);
      RetryBound(v, name, next, retry + 1, t);
      assert r[1..] == Run(v, name, next, retry + 1, t);
    } else {
      assert r[1..] == [];
    }
  }

  /** Every call of a chain that submits does so with a counter of at most `order.retry`. */
  lemma {:induction false} SubmitsWithinLimit(v: Venue, name: string, order: Order, retry: nat, now: int)
    decreases RetryMeasure(v, retry)
    ensures forall k :: 0 <= k < |Run(v, name, order, retry, now)| && Submitted(Run(v, name, order, retry, now)[k].attempt) ==>
      Run(v, name, order, retry, now)[k].retry <= MaxRetries(v)
  {
    var s := TryOnce(v, name, order, retry, now);
    var r := Run(v, name, order, retry, now);
    if s.attempt.RetryRequested? {
      var next := v.factory.createRetryOrder(s.attempt.submitted);
      var t := s.end + RetryDelay(v);
      SubmitsWithinLimit(v, name, next, retry + 1, t);
      var tail := Run(v, name, next, retry + 1, t);
      forall k | 1 <= k < |r| && Submitted(r[k].attempt)
        ensures r[k].retry <= MaxRetries(v)
      {
        assert r[k] == tail[k - 1];
      }
    }
  }

  /**
   * A fixed-price order never consults the ticker cache, provided the retry orders
   * of fixed-price orders are fixed-price too: every call submits the order it was
   * given and takes no time.
   */
  lemma {:induction false} FixedPriceNeverPolls(v: Venue, name: string, order: Order, retry: nat, now: int)
    requires forall o: Order {:trigger v.factory.createRetryOrder(o)} :: !o.adjustPrice ==> !v.factory.createRetryOrder(o).adjustPrice
    requires !order.adjustPrice
    decreases RetryMeasure(v, retry)
    ensures forall k :: 0 <= k < |Run(v, name, order, retry, now)| ==>
      var step := Run(v, name, order, retry, now)[k];
      && !step.order.adjustPrice
      && step.end == step.start
      && !step.attempt.NoTickerPrice?
      && (Submitted(step.attempt) ==> step.attempt.submitted == step.order)
  {
    var s := TryOnce(v, name, order, retry, now);
    var r := Run(v, name, order, retry, now);
    if s.attempt.RetryRequested? {
      var next := v.factory.createRetryOrder(s.attempt.submitted);
      var t := s.end + RetryDelay(v);
      FixedPriceNeverPolls(v, name, next, retry + 1, t);
      var tail := Run(v, name, next, retry + 1, t);
      forall k | 1 <= k < |r|
        ensures && !r[k].order.adjustPrice
                && r[k].end == r[k].start
                && !r[k].attempt.NoTickerPrice?
                && (Submitted(r[k].attempt) ==> r[k].attempt.submitted == r[k].order)
      {
        assert r[k] == tail[k - 1];
      }
    }
  }

  /**
   * The failures that are not retried (an unknown exchange, no ticker price for a
   * price-following order, a thrown submission) and the retry limit end the chain
   * with undefined and leave `orders` as it was.
   */
  lemma {:induction false} FailuresResolveUndefined(v: Venue, name: string, order: Order, retry: nat, now: int)
    ensures Resolution(Run(v, name, order, retry, now)).None? <==>
      var last := Last(Run(v, name, order, retry, now)).attempt;
      last.RetryLimitReached? || last.InvalidExchange? || last.NoTickerPrice? || last.SubmitThrew?
    ensures Resolution(Run(v, name, order, retry, now)).None? <==> Appended(Run(v, name, order, retry, now), name) == []
  {
    OnlyRetryFlagRetries(v, name, order, retry, now);
  }
}
