// The trade module's ordering tick: a marker that keeps two ordering cycles from
// overlapping (unless one has been stuck for more than 20 seconds), and the list of
// active pairs announced when the module starts.

module Trading {
  import opened Boundary
  import opened Adjustment
  import opened Executor

  /** A marker older than this (milliseconds) no longer blocks a new cycle. */
  const StuckCycleOverride: int := 20000

  /** The tick handler's test: no cycle is marked, or the marked one started more than 20 s ago. */
  predicate MayStartCycle(running: Option<int>, now: int) {
    running.None? || running.value < now - StuckCycleOverride
  }

  /** A call of the handler into a collaborator, with the marker as it was at the call. */
  datatype TickCall =
    | PairStateTick(marker: Option<int>)
    | AdjustOpenOrders(marker: Option<int>)

  /** How one `tick_ordering` event ends. */
  datatype TickOutcome =
    | Skipped
    | PairStateFailed
    | AdjustFailed
    | Completed(end: int)

  class Trade {
    const orderExecutor: OrderExecutor
    /**
     * `pairStateExecution.onPairStateExecutionTick`, given the clock at the call:
     * the clock when it completes, or a thrown error.
     */
    const pairStateExecution: int -> Reply<int>
    /** The `running` marker of the tick handler: when the current cycle started. */
    var running: Option<int>

    /** The state `start()` leaves behind: no cycle marked. */
    constructor(orderExecutor: OrderExecutor, pairStateExecution: int -> Reply<int>)
      ensures this.orderExecutor == orderExecutor && this.pairStateExecution == pairStateExecution
      ensures running == None
    {
      this.orderExecutor := orderExecutor;
      this.pairStateExecution := pairStateExecution;
      running := None;
    }

    /**
     * The handler's entry at clock `now`, up to its first `await`: a cycle starts only
     * when MayStartCycle holds, and then marks itself. A tick that arrives while an
     * earlier cycle is still awaiting runs this on the marker that cycle left.
     */
    method BeginCycle(now: int) returns (started: bool)
      modifies this`running
      ensures started <==> MayStartCycle(old(running), now)
      ensures running == if started then Some(now) else old(running)
    {
      if !MayStartCycle(running, now) {
        return false;
      }
      running := Some(now);
      started := true;
    }

    /** The handler's last statement, reached once both awaited calls completed: the marker is cleared. */
    method EndCycle()
      modifies this`running
      ensures running == None
    {
      running := None;
    }

    /**
     * The `tick_ordering` handler at clock `now`, when nothing else runs between its
     * `await`s: BeginCycle, the pair-state step, the re-pricing pass, EndCycle. A cycle starts only when
     * MayStartCycle holds; it sets the marker before any work, runs the pair-state
     * step, then the re-pricing pass, and clears the marker only when both complete.
     * `calls` lists the collaborator calls in order, with the marker at each call.
     */
    method OnTickOrdering(now: int) returns (outcome: TickOutcome, calls: seq<TickCall>)
      modifies this`running, orderExecutor
      ensures outcome.Skipped? <==> !MayStartCycle(old(running), now)
      ensures outcome.Skipped? ==> calls == [] && running == old(running)
      ensures !outcome.Skipped? ==>
        calls == [PairStateTick(Some(now))] + (if pairStateExecution(now).Threw? then [] else [AdjustOpenOrders(Some(now))])
      ensures outcome.Skipped? || outcome.PairStateFailed? ==> orderExecutor.State() == old(orderExecutor.State())
      ensures outcome.PairStateFailed? <==> MayStartCycle(old(running), now) && pairStateExecution(now).Threw?
      ensures !outcome.Skipped? && pairStateExecution(now).Returned? ==>
        var pass := AdjustPass(orderExecutor.venue, old(orderExecutor.State()), pairStateExecution(now).value);
        && orderExecutor.State() == pass.state
        && (outcome.AdjustFailed? <==> pass.rejected)
        && (outcome.Completed? ==> outcome.end == pass.end)
      ensures running == if outcome.Completed? then None else if outcome.Skipped? then old(running) else Some(now)
      ensures outcome.PairStateFailed? || outcome.AdjustFailed? ==>
        forall t :: t <= now + StuckCycleOverride ==> !MayStartCycle(running, t)
    {
      calls := [];
      var started := BeginCycle(now);
      if !started {
        return Skipped, calls;
      }
      calls := calls + [PairStateTick(running)];
      var pairState := pairStateExecution(now);
      if pairState.Threw? {
        return PairStateFailed, calls;
      }
      calls := calls + [AdjustOpenOrders(running)];
      var rejected, later := orderExecutor.AdjustOpenOrdersPrice(pairState.value);
      if rejected {
        return AdjustFailed, calls;
      }
      EndCycle();
      outcome := Completed(later);
    }
  }

  /** An entry of the instance file's symbol list. */
  datatype Instance = Instance(exchange: string, symbol: string, state: string)

  predicate Watched(i: Instance) {
    i.state == "watch"
  }

  function PairLabel(i: Instance): string {
    i.exchange + "." + i.symbol
  }

  /**
   * `notifyActivePairs`: the label `exchange.symbol` of every watched instance, in
   * the order of the list.
   */
  function ActivePairs(symbols: seq<Instance>): (r: seq<string>)
    ensures |r| <= |symbols|
  {
    if symbols == [] then []
    else (if Watched(symbols[0]) then [PairLabel(symbols[0])] else []) + ActivePairs(symbols[1..])
  }

  /** Every watched instance has its label in the list, and every label in it comes from one. */
  lemma {:induction false} ActivePairsMembers(symbols: seq<Instance>)
    ensures forall i :: i in symbols && Watched(i) ==> PairLabel(i) in ActivePairs(symbols)
    ensures forall p :: p in ActivePairs(symbols) ==> exists i :: i in symbols && Watched(i) && PairLabel(i) == p
  {
    if symbols != [] {
      ActivePairsMembers(symbols[1..]);
      assert forall i :: i in symbols ==> i == symbols[0] || i in symbols[1..];
    }
  }

  /** The number of watched instances in a list. */
  function WatchedCount(symbols: seq<Instance>): nat {
    if symbols == [] then 0 else (if Watched(symbols[0]) then 1 else 0) + WatchedCount(symbols[1..])
  }

  /**
   * The list keeps the order of the instances: the pairs of a concatenation are the
   * pairs of its first part followed by those of the second.
   */
  lemma {:induction false} ActivePairsConcat(xs: seq<Instance>, ys: seq<Instance>)
    ensures ActivePairs(xs + ys) == ActivePairs(xs) + ActivePairs(ys)
  {
    if xs == [] {
      assert xs + ys == ys;
    } else {
      var head := if Watched(xs[0]) then [PairLabel(xs[0])] else [];
      assert (xs + ys)[0] == xs[0];
      assert (xs + ys)[1..] == xs[1..] + ys;
      ActivePairsConcat(xs[1..], ys);
      calc {
        ActivePairs(xs + ys);
        head + ActivePairs(xs[1..] + ys);
        head + (ActivePairs(xs[1..]) + ActivePairs(ys));
        (head + ActivePairs(xs[1..])) + ActivePairs(ys);
        ActivePairs(xs) + ActivePairs(ys);
      }
    }
  }

  /** The list holds one label per watched instance. */
  lemma {:induction false} ActivePairsCount(symbols: seq<Instance>)
    ensures |ActivePairs(symbols)| == WatchedCount(symbols)
  {
    if symbols != [] {
      ActivePairsCount(symbols[1..]);
    }
  }

  /** A single instance contributes its label exactly when it is watched. */
  lemma ActivePairsSingle(i: Instance)
    ensures ActivePairs([i]) == if Watched(i) then [PairLabel(i)] else []
  {
    assert [i][1..] == [];
  }
}
