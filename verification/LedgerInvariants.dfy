/** What every run of the ledger keeps, and what a checkpoint makes it forget (ez/live/ledger.py). */
module LedgerInvariants {
  import opened BrokerStatus
  import opened Events
  import opened Options
  import opened Ledger
  import opened Flows
  import Sorting

  // ---- invariants of all runs ----------------------------------------------------------

  /** A broker order that is only submitted shows no fills, whatever its reports claimed. */
  ghost predicate NoEarlyFills(orders: map<string, BrokerOrder>) {
    forall k | k in orders :: IsSubmissionOnly(orders[k].status) ==> orders[k].filledShares == 0
  }

  /** A broker order is stored under its own id, and a cancel state comes with its request. */
  ghost predicate Keyed(orders: map<string, BrokerOrder>) {
    forall k | k in orders ::
      k != "" && orders[k].brokerOrderId == k && (orders[k].cancelState.Some? <==> orders[k].cancelRequestedAt.Some?)
  }

  ghost predicate PositiveOnly(prices: map<string, real>) {
    forall s | s in prices :: prices[s] > 0.0
  }

  /** Every snapshot with an equity is on the curve, the last one as the latest. */
  ghost predicate CurveEndsAtLatest(h: History) {
    && (h.latestEquity.None? <==> h.equityCurve == [])
    && (h.equityCurve != [] ==> h.latestEquity == Some(h.equityCurve[|h.equityCurve| - 1]))
    && (h.latestDate.None? ==> h.dates == [])
  }

  ghost predicate Coherent(a: Account) {
    NoEarlyFills(a.brokerOrders) && Keyed(a.brokerOrders) && PositiveOnly(a.lastPrices) && CurveEndsAtLatest(a.history)
  }

  lemma AdvanceKeepsOrders(orders: map<string, BrokerOrder>, key: string, clientOrderId: string, e: Event,
                           o: Observation)
    requires NoEarlyFills(orders) && Keyed(orders)
    ensures var after := AdvanceBroker(orders, key, clientOrderId, e, o); NoEarlyFills(after) && Keyed(after)
  {
  }

  lemma RequestKeepsOrders(orders: map<string, BrokerOrder>, key: string, e: Event)
    requires NoEarlyFills(orders) && Keyed(orders)
    ensures var after := RequestCancel(orders, key, e); NoEarlyFills(after) && Keyed(after)
  {
    AdvanceKeepsOrders(orders, key, e.clientOrderId, e, Observation(PendingStatus(Get(orders, key)), "", 0, 0, 0.0));
  }

  lemma ImpliedPriceIsPositive(equity: real, weight: real, shares: int, worth: real)
    requires equity > 0.0 && weight > 0.0 && shares > 0 && worth == equity * weight
    ensures worth / shares as real > 0.0
  {
    assert worth > 0.0;
  }

  lemma ImpliedArePositive(equity: real, holdings: map<string, int>, weights: map<string, real>)
    requires equity > 0.0
    ensures PositiveOnly(ImpliedPrices(equity, holdings, weights))
  {
    var implied := ImpliedPrices(equity, holdings, weights);
    forall s | s in implied ensures implied[s] > 0.0 {
      ImpliedPriceIsPositive(equity, weights[s], holdings[s], equity * weights[s]);
    }
  }

  lemma CheckpointKeeps(a: Account, c: Checkpoint)
    requires Coherent(a)
    ensures Coherent(ApplyCheckpoint(a, c))
  {
    var h := Remember(a.history, c);
    var holdings := if c.holdings.Some? then c.holdings.value else a.holdings;
    if h.latestEquity.Some? && h.latestEquity.value > 0.0 {
      ImpliedArePositive(h.latestEquity.value, holdings, h.weights);
    }
  }

  lemma ReportKeepsCoherent(a: Account, e: Event)
    requires Coherent(a) && e.body.BrokerExecution?
    ensures Coherent(Apply(a, e))
  {
    var r := e.body.report;
    AdvanceKeepsOrders(a.brokerOrders, BrokerKey(r.brokerOrderId, e.clientOrderId), e.clientOrderId, e,
      Observation(r.status, r.reportId, r.filledShares, r.remainingShares, r.avgPrice));
  }

  lemma RequestKeepsCoherent(a: Account, e: Event)
    requires Coherent(a) && e.body.BrokerCancelRequested?
    ensures Coherent(Apply(a, e))
  {
    RequestKeepsOrders(a.brokerOrders, BrokerKey(e.body.cancel.brokerOrderId, e.clientOrderId), e);
  }

  lemma SnapshotKeepsCoherent(a: Account, e: Event)
    requires Coherent(a) && e.body.SnapshotSaved?
    ensures Coherent(Apply(a, e))
  {
    CheckpointKeeps(a, e.body.checkpoint);
  }

  lemma ApplyKeepsCoherent(a: Account, e: Event)
    requires Coherent(a)
    ensures Coherent(Apply(a, e))
  {
    match e.body
    case BrokerExecution(r) => ReportKeepsCoherent(a, e);
    case BrokerCancelRequested(c) => RequestKeepsCoherent(a, e);
    case SnapshotSaved(c) => SnapshotKeepsCoherent(a, e);
    case _ =>
  }

  lemma {:induction false} RunKeepsCoherent(a: Account, log: seq<Event>)
    requires Coherent(a)
    ensures Coherent(Fold(a, log))
    decreases |log|
  {
    if log != [] {
      ApplyKeepsCoherent(a, log[0]);
      RunKeepsCoherent(Apply(a, log[0]), log[1..]);
    }
  }

  /** Every replay, of any events in any order, ends coherent. */
  lemma ReplayIsCoherent(events: seq<Event>, cash: real, holdings: map<string, int>)
    ensures Coherent(Replay(events, cash, holdings))
  {
    RunKeepsCoherent(Opening(cash, holdings), Dedup(Sorting.Sort(events, KeyLess), {}));
  }

  // ---- what moves money ----------------------------------------------------------------

  predicate SameMoney(a: Account, b: Account) { a.cash == b.cash && a.holdings == b.holdings }

  predicate MovesMoney(e: Event) { e.body.OrderFilled? || e.body.OrderPartiallyFilled? || e.body.SnapshotSaved? }

  /** Reports, requests, rejections and market data never touch cash, holdings or trades. */
  lemma {:induction false} OnlyFillsAndCheckpointsMoveMoney(a: Account, log: seq<Event>)
    requires forall e | e in log :: !MovesMoney(e)
    ensures SameMoney(Fold(a, log), a) && Fold(a, log).trades == a.trades
    decreases |log|
  {
    if log != [] {
      assert log[0] in log;
      CashAfter(a, log[0]);
      HoldingsAfter(a, log[0]);
      OnlyFillsAndCheckpointsMoveMoney(Apply(a, log[0]), log[1..]);
    }
  }

  lemma {:induction false} SameMoneyRuns(a: Account, b: Account, log: seq<Event>)
    requires SameMoney(a, b)
    ensures SameMoney(Fold(a, log), Fold(b, log))
    decreases |log|
  {
    if log != [] {
      SameMoneyStep(a, b, log[0]);
      SameMoneyRuns(Apply(a, log[0]), Apply(b, log[0]), log[1..]);
    }
  }

  lemma SameMoneyStep(a: Account, b: Account, e: Event)
    requires SameMoney(a, b)
    ensures SameMoney(Apply(a, e), Apply(b, e))
  {
    CashAfter(a, e);
    CashAfter(b, e);
    HoldingsAfter(a, e);
    HoldingsAfter(b, e);
  }

  /** Cash after an event depends on the cash before it and the event alone. */
  lemma CashAfter(a: Account, e: Event)
    ensures Apply(a, e).cash ==
      if FillOf(e).Some? then ApplyFillCash(a.cash, FillOf(e).value)
      else if e.body.SnapshotSaved? && e.body.checkpoint.cash.Some? then e.body.checkpoint.cash.value
      else a.cash
  {
  }

  /** So do the holdings. */
  lemma HoldingsAfter(a: Account, e: Event)
    ensures Apply(a, e).holdings ==
      if FillOf(e).Some? then ApplyFillHoldings(a.holdings, FillOf(e).value)
      else if e.body.SnapshotSaved? && e.body.checkpoint.holdings.Some? then e.body.checkpoint.holdings.value
      else a.holdings
  {
  }

  lemma {:induction false} FoldOfBoth(a: Account, x: seq<Event>, y: seq<Event>)
    ensures Fold(a, x + y) == Fold(Fold(a, x), y)
    decreases |x|
  {
    if x == [] {
      assert x + y == y;
    } else {
      assert (x + y)[1..] == x[1..] + y;
      FoldOfBoth(Apply(a, x[0]), x[1..], y);
    }
  }

  /** A checkpoint with cash and holdings decides them: whatever happened before it is forgotten, so a run may
      start at the checkpoint from any account. */
  lemma CheckpointDecides(a: Account, b: Account, before: seq<Event>, e: Event, after: seq<Event>)
    requires e.body.SnapshotSaved? && e.body.checkpoint.cash.Some? && e.body.checkpoint.holdings.Some?
    ensures SameMoney(Fold(a, before + [e] + after), Fold(b, [e] + after))
  {
    FoldOfBoth(a, before + [e], after);
    FoldOfBoth(a, before, [e]);
    FoldOfBoth(b, [e], after);
    OneEvent(Fold(a, before), e);
    OneEvent(b, e);
    CashAfter(Fold(a, before), e);
    CashAfter(b, e);
    HoldingsAfter(Fold(a, before), e);
    HoldingsAfter(b, e);
    SameMoneyRuns(Apply(Fold(a, before), e), Apply(b, e), after);
  }

  lemma OneEvent(a: Account, e: Event)
    ensures Fold(a, [e]) == Apply(a, e)
  {
    assert [e][1..] == [];
    assert Fold(Apply(a, e), []) == Apply(a, e);
  }

  // ---- the trade list ------------------------------------------------------------------

  function FillsIn(log: seq<Event>): seq<FillPayload> {
    if log == [] then []
    else (if FillOf(log[0]).Some? then [FillOf(log[0]).value] else []) + FillsIn(log[1..])
  }

  lemma FirstFill(log: seq<Event>)
    requires log != []
    ensures FillsIn(log) == FillsIn([log[0]]) + FillsIn(log[1..])
  {
    assert [log[0]][1..] == [];
  }

  lemma TradesAfter(a: Account, e: Event)
    ensures Apply(a, e).trades == a.trades + FillsIn([e])
  {
    assert [e][1..] == [];
    assert FillsIn([e]) == (if FillOf(e).Some? then [FillOf(e).value] else []) + [];
  }

  /** The trades of an account are the fills of its log, in the order they were applied; nothing else adds one. */
  lemma {:induction false} TradesAreTheFills(a: Account, log: seq<Event>)
    ensures Fold(a, log).trades == a.trades + FillsIn(log)
    decreases |log|
  {
    if log != [] {
      TradesAfter(a, log[0]);
      TradesAreTheFills(Apply(a, log[0]), log[1..]);
      FirstFill(log);
    }
  }
}
