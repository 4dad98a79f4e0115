/** Replay of the event log into account state (ez/live/ledger.py). */
module Ledger {
  import opened BrokerStatus
  import opened Events
  import opened Options
  import Sorting

  datatype BrokerOrder = BrokerOrder(
    brokerOrderId: string, clientOrderId: string, status: Status, eventId: string, eventTs: int,
    reportId: string, filledShares: int, remainingShares: int, avgPrice: real,
    cancelRequestEventId: string, cancelRequestedAt: Option<int>, cancelState: Option<Status>)

  /** The value of a ledger state. */
  datatype Account = Account(
    cash: real,
    holdings: map<string, int>,
    orderStatuses: map<string, OrderStatus>,
    brokerOrders: map<string, BrokerOrder>,
    trades: seq<FillPayload>,
    riskEvents: seq<string>,
    lastPrices: map<string, real>,
    history: History,
    seenEventCount: nat)

  /** What the snapshot checkpoints leave behind. */
  datatype History = History(
    equityCurve: seq<real>,
    dates: seq<int>,
    latestDate: Option<int>,
    latestEquity: Option<real>,
    weights: map<string, real>,
    prevReturns: map<string, real>)

  function Opening(cash: real, holdings: map<string, int>): Account {
    Account(cash, holdings, map[], map[], [], [], map[], History([], [], None, None, map[], map[]), 0)
  }

  // ---- local order statuses ------------------------------------------------------------

  function LocalRank(s: OrderStatus): nat {
    match s
    case New => 0
    case Submitted => 10
    case PartFilled => 20
    case _ => 30
  }

  /** Forward only; a completed order never changes again. */
  predicate LocalCanTransition(previous: Option<OrderStatus>, incoming: OrderStatus) {
    previous.None? ||
    (LocalRank(previous.value) < TERMINAL_RANK && LocalRank(incoming) > LocalRank(previous.value))
  }

  function Get<T>(m: map<string, T>, key: string): Option<T> {
    if key in m then Some(m[key]) else None
  }

  function AdvanceLocal(statuses: map<string, OrderStatus>, key: string,
                        incoming: OrderStatus): map<string, OrderStatus>
  {
    if key != "" && LocalCanTransition(Get(statuses, key), incoming) then statuses[key := incoming] else statuses
  }

  // ---- broker order projection ---------------------------------------------------------

  function BrokerKey(brokerOrderId: string, clientOrderId: string): string {
    Or(brokerOrderId, clientOrderId)
  }

  /** Same non-terminal rank refreshes on a newer or equal timestamp; terminal only follows the rule. */
  predicate BrokerAdvances(current: Option<BrokerOrder>, incoming: Status, ts: int) {
    current.None? ||
    CanTransition(current.value.status, incoming) ||
    (Rank(incoming) == Rank(current.value.status) && Rank(incoming) < TERMINAL_RANK && ts >= current.value.eventTs)
  }

  /** What a report or a cancel request carries for the projection. */
  datatype Observation = Observation(
    status: Status, reportId: string, filledShares: int, remainingShares: int, avgPrice: real)

  function Project(current: Option<BrokerOrder>, key: string, clientOrderId: string, e: Event,
                   o: Observation): BrokerOrder
  {
    var clamp := IsSubmissionOnly(o.status);
    BrokerOrder(
      key, clientOrderId, o.status, e.id, e.ts, o.reportId,
      if clamp then 0 else o.filledShares,
      if clamp && o.filledShares != 0 && current.Some? then current.value.remainingShares else o.remainingShares,
      o.avgPrice,
      if current.Some? then current.value.cancelRequestEventId else "",
      if current.Some? then current.value.cancelRequestedAt else None,
      if current.Some? then current.value.cancelState else None)
  }

  function AdvanceBroker(orders: map<string, BrokerOrder>, key: string, clientOrderId: string, e: Event, o: Observation)
    : map<string, BrokerOrder>
  {
    var current := Get(orders, key);
    if key != "" && BrokerAdvances(current, o.status, e.ts)
    then orders[key := Project(current, key, clientOrderId, e, o)]
    else orders
  }

  /** The cancel-pending status a cancel request asks for. */
  function PendingStatus(current: Option<BrokerOrder>): Status {
    if current.Some? && (current.value.status.PartiallyFilled? || current.value.status.PartiallyFilledCancelPending?)
    then PartiallyFilledCancelPending
    else ReportedCancelPending
  }

  function RequestCancel(orders: map<string, BrokerOrder>, key: string, e: Event): map<string, BrokerOrder> {
    var current := Get(orders, key);
    if current.Some? && IsTerminal(current.value.status) then orders
    else
      var pending := PendingStatus(current);
      var advanced := AdvanceBroker(orders, key, e.clientOrderId, e, Observation(pending, "", 0, 0, 0.0));
      if key in advanced
      then advanced[key := advanced[key].(cancelRequestEventId := e.id, cancelRequestedAt := Some(e.ts),
                                          cancelState := Some(pending))]
      else advanced
  }

  // ---- holdings, prices, snapshots -----------------------------------------------------

  function Held(holdings: map<string, int>, symbol: string): int {
    if symbol in holdings then holdings[symbol] else 0
  }

  function ApplyFillHoldings(holdings: map<string, int>, f: FillPayload): map<string, int> {
    if f.side.Buy? then holdings[f.symbol := Held(holdings, f.symbol) + f.shares]
    else
      var remaining := Held(holdings, f.symbol) - f.shares;
      if remaining > 0 then holdings[f.symbol := remaining] else holdings - {f.symbol}
  }

  function ApplyFillCash(cash: real, f: FillPayload): real {
    if f.side.Buy? then cash - (f.amount + f.cost) else cash + (f.amount - f.cost)
  }

  function ApplyFill(a: Account, key: string, f: FillPayload, status: OrderStatus): Account {
    a.(cash := ApplyFillCash(a.cash, f),
       holdings := ApplyFillHoldings(a.holdings, f),
       lastPrices := if f.price > 0.0 then a.lastPrices[f.symbol := f.price] else a.lastPrices,
       orderStatuses := AdvanceLocal(a.orderStatuses, key, status),
       trades := a.trades + [f])
  }

  function PositivePrices(prices: map<string, real>): map<string, real> {
    map s | s in prices && prices[s] > 0.0 :: prices[s]
  }

  function ImpliedPrices(equity: real, holdings: map<string, int>, weights: map<string, real>): map<string, real> {
    map s | s in holdings && holdings[s] > 0 && s in weights && weights[s] > 0.0 ::
      (equity * weights[s]) / holdings[s] as real
  }

  function Remember(h: History, c: Checkpoint): History {
    var latestDate := if c.date.Some? then c.date else h.latestDate;
    History(
      if c.equity.Some? then h.equityCurve + [c.equity.value] else h.equityCurve,
      if latestDate.Some? then h.dates + [latestDate.value] else h.dates,
      latestDate,
      if c.equity.Some? then c.equity else h.latestEquity,
      if c.weights.Some? then c.weights.value else h.weights,
      if c.prevReturns.Some? then c.prevReturns.value else h.prevReturns)
  }

  function ApplyCheckpoint(a: Account, c: Checkpoint): Account {
    var history := Remember(a.history, c);
    var holdings := if c.holdings.Some? then c.holdings.value else a.holdings;
    a.(history := history,
       cash := if c.cash.Some? then c.cash.value else a.cash,
       holdings := holdings,
       lastPrices := if history.latestEquity.Some? && history.latestEquity.value > 0.0
                     then a.lastPrices + ImpliedPrices(history.latestEquity.value, holdings, history.weights)
                     else a.lastPrices)
  }

  // ---- one event -----------------------------------------------------------------------

  function Apply(a: Account, e: Event): Account {
    match e.body
    case OrderSubmitted => a.(orderStatuses := AdvanceLocal(a.orderStatuses, e.clientOrderId, Submitted))
    case OrderRejected => a.(orderStatuses := AdvanceLocal(a.orderStatuses, e.clientOrderId, Rejected))
    case OrderFilled(f) => ApplyFill(a, e.clientOrderId, f, FullyFilled)
    case OrderPartiallyFilled(f) => ApplyFill(a, e.clientOrderId, f, PartFilled)
    case BrokerExecution(r) =>
      var key := BrokerKey(r.brokerOrderId, e.clientOrderId);
      a.(brokerOrders := AdvanceBroker(a.brokerOrders, key, e.clientOrderId, e,
           Observation(r.status, r.reportId, r.filledShares, r.remainingShares, r.avgPrice)),
         orderStatuses := AdvanceLocal(a.orderStatuses, Or(e.clientOrderId, key), ToOrderStatus(r.status)))
    case BrokerCancelRequested(c) =>
      var key := BrokerKey(c.brokerOrderId, e.clientOrderId);
      a.(brokerOrders := RequestCancel(a.brokerOrders, key, e),
         orderStatuses := AdvanceLocal(a.orderStatuses, Or(e.clientOrderId, key), Submitted))
    case RiskRecorded(r) => if r.Some? then a.(riskEvents := a.riskEvents + [r.value]) else a
    case MarketSnapshot(prices) => a.(lastPrices := a.lastPrices + PositivePrices(prices))
    case MarketBar(symbol, adjClose, close) =>
      var price := if adjClose > 0.0 then adjClose else close;
      if symbol != "" && price > 0.0 then a.(lastPrices := a.lastPrices[symbol := price]) else a
    case SnapshotSaved(c) => ApplyCheckpoint(a, c)
    case BrokerRuntime(_) => a
    case BrokerAccount => a
    case TickCompleted => a
  }

  // ---- the whole log -------------------------------------------------------------------

  function Fold(a: Account, events: seq<Event>): Account
    decreases |events|
  {
    if events == [] then a else Fold(Apply(a, events[0]), events[1..])
  }

  /** Drops every event whose non-empty id was seen before. */
  function Dedup(events: seq<Event>, seen: set<string>): seq<Event> {
    if events == [] then []
    else if events[0].id != "" && events[0].id in seen then Dedup(events[1..], seen)
    else [events[0]] + Dedup(events[1..], if events[0].id != "" then seen + {events[0].id} else seen)
  }

  function Ids(events: seq<Event>): set<string> {
    set e | e in events && e.id != "" :: e.id
  }

  function Replay(events: seq<Event>, cash: real, holdings: map<string, int>): Account {
    Fold(Opening(cash, holdings), Dedup(Sorting.Sort(events, KeyLess), {})).(seenEventCount := |Ids(events)|)
  }

  // ---- the ledger as the code has it: one state object updated in place -----------------

  class LedgerState {
    var cash: real
    var holdings: map<string, int>
    var orderStatuses: map<string, OrderStatus>
    var brokerOrders: map<string, BrokerOrder>
    var trades: seq<FillPayload>
    var riskEvents: seq<string>
    var lastPrices: map<string, real>
    var history: History
    var seenEventCount: nat

    ghost function Value(): Account
      reads this
    {
      Account(cash, holdings, orderStatuses, brokerOrders, trades, riskEvents, lastPrices, history, seenEventCount)
    }

    constructor (initialCash: real, initialHoldings: map<string, int>)
      ensures Value() == Opening(initialCash, initialHoldings)
    {
      cash, holdings := initialCash, initialHoldings;
      orderStatuses, brokerOrders, trades, riskEvents := map[], map[], [], [];
      lastPrices, history, seenEventCount := map[], History([], [], None, None, map[], map[]), 0;
    }

    method AdvanceLocalOrderStatus(key: string, incoming: OrderStatus)
      modifies this`orderStatuses
      ensures orderStatuses == AdvanceLocal(old(orderStatuses), key, incoming)
    {
      if key == "" { return; }
      var previous := Get(orderStatuses, key);
      if LocalCanTransition(previous, incoming) {
        orderStatuses := orderStatuses[key := incoming];
      }
    }

    method AdvanceBrokerOrderState(key: string, clientOrderId: string, e: Event, o: Observation)
      modifies this`brokerOrders
      ensures brokerOrders == AdvanceBroker(old(brokerOrders), key, clientOrderId, e, o)
    {
      if key == "" { return; }
      var current := Get(brokerOrders, key);
      var shouldAdvance;
      if current.None? {
        shouldAdvance := true;
      } else if CanTransition(current.value.status, o.status) {
        shouldAdvance := true;
      } else if Rank(o.status) == Rank(current.value.status) && Rank(o.status) < TERMINAL_RANK {
        shouldAdvance := e.ts >= current.value.eventTs;
      } else {
        shouldAdvance := false;
      }
      if !shouldAdvance { return; }
      brokerOrders := brokerOrders[key := Project(current, key, clientOrderId, e, o)];
    }

    method ApplyFillEvent(key: string, f: FillPayload, status: OrderStatus)
      modifies this`cash, this`holdings, this`lastPrices, this`orderStatuses, this`trades
      ensures cash == ApplyFillCash(old(cash), f)
      ensures holdings == ApplyFillHoldings(old(holdings), f)
      ensures lastPrices == if f.price > 0.0 then old(lastPrices)[f.symbol := f.price] else old(lastPrices)
      ensures orderStatuses == AdvanceLocal(old(orderStatuses), key, status)
      ensures trades == old(trades) + [f]
    {
      if f.side.Buy? {
        cash := cash - (f.amount + f.cost);
        holdings := holdings[f.symbol := Held(holdings, f.symbol) + f.shares];
      } else {
        cash := cash + (f.amount - f.cost);
        var remaining := Held(holdings, f.symbol) - f.shares;
        if remaining > 0 {
          holdings := holdings[f.symbol := remaining];
        } else {
          holdings := holdings - {f.symbol};
        }
      }
      if f.price > 0.0 {
        lastPrices := lastPrices[f.symbol := f.price];
      }
      AdvanceLocalOrderStatus(key, status);
      trades := trades + [f];
    }

    method ApplyCancelRequest(key: string, e: Event)
      modifies this`brokerOrders
      ensures brokerOrders == RequestCancel(old(brokerOrders), key, e)
    {
      var current := Get(brokerOrders, key);
      if current.None? || !IsTerminal(current.value.status) {
        var pending := PendingStatus(current);
        AdvanceBrokerOrderState(key, e.clientOrderId, e, Observation(pending, "", 0, 0, 0.0));
        current := Get(brokerOrders, key);
        if current.Some? {
          brokerOrders := brokerOrders[key := current.value.(
            cancelRequestEventId := e.id, cancelRequestedAt := Some(e.ts), cancelState := Some(pending))];
        }
      }
    }

    method ApplySnapshotCheckpoint(c: Checkpoint)
      modifies this
      ensures Value() == ApplyCheckpoint(old(Value()), c)
    {
      history := Remember(history, c);
      if c.cash.Some? { cash := c.cash.value; }
      if c.holdings.Some? { holdings := c.holdings.value; }
      if history.latestEquity.Some? && history.latestEquity.value > 0.0 {
        lastPrices := lastPrices + ImpliedPrices(history.latestEquity.value, holdings, history.weights);
      }
    }

    method SetSeenEventCount(count: nat)
      modifies this`seenEventCount
      ensures Value() == old(Value()).(seenEventCount := count)
    {
      seenEventCount := count;
    }

    method ApplyEvent(e: Event)
      modifies this
      ensures Value() == Apply(old(Value()), e)
    {
      match e.body {
        case OrderSubmitted => AdvanceLocalOrderStatus(e.clientOrderId, Submitted);
        case OrderRejected => AdvanceLocalOrderStatus(e.clientOrderId, Rejected);
        case OrderFilled(f) => ApplyFillEvent(e.clientOrderId, f, FullyFilled);
        case OrderPartiallyFilled(f) => ApplyFillEvent(e.clientOrderId, f, PartFilled);
        case BrokerExecution(r) =>
          var key := BrokerKey(r.brokerOrderId, e.clientOrderId);
          AdvanceBrokerOrderState(key, e.clientOrderId, e,
            Observation(r.status, r.reportId, r.filledShares, r.remainingShares, r.avgPrice));
          AdvanceLocalOrderStatus(Or(e.clientOrderId, key), ToOrderStatus(r.status));
        case BrokerCancelRequested(c) =>
          var key := BrokerKey(c.brokerOrderId, e.clientOrderId);
          ApplyCancelRequest(key, e);
          AdvanceLocalOrderStatus(Or(e.clientOrderId, key), Submitted);
        case RiskRecorded(r) =>
          if r.Some? { riskEvents := riskEvents + [r.value]; }
        case MarketSnapshot(prices) => lastPrices := lastPrices + PositivePrices(prices);
        case MarketBar(symbol, adjClose, close) =>
          var price := if adjClose > 0.0 then adjClose else close;
          if symbol != "" && price > 0.0 { lastPrices := lastPrices[symbol := price]; }
        case SnapshotSaved(c) => ApplySnapshotCheckpoint(c);
        case BrokerRuntime(_) =>
        case BrokerAccount =>
        case TickCompleted =>
      }
    }
  }

  lemma FoldStep(a: Account, e: Event, rest: seq<Event>)
    ensures Fold(a, [e] + rest) == Fold(Apply(a, e), rest)
  {
    assert ([e] + rest)[1..] == rest;
  }

  /** One step of the duplicate filter. */
  lemma DedupStep(sorted: seq<Event>, i: nat, seen: set<string>)
    requires i < |sorted| && seen == Ids(sorted[..i])
    ensures var e := sorted[i];
      var seen' := if e.id != "" then seen + {e.id} else seen;
      && seen' == Ids(sorted[..i + 1])
      && Dedup(sorted[i..], seen) == if e.id != "" && e.id in seen
                                     then Dedup(sorted[i + 1..], seen)
                                     else [e] + Dedup(sorted[i + 1..], seen')
  {
    assert sorted[..i + 1] == sorted[..i] + [sorted[i]];
    assert sorted[i..][1..] == sorted[i + 1..];
  }

  /** What the events from number `i` on still do to the account. */
  function Remaining(a: Account, sorted: seq<Event>, i: nat, seen: set<string>): Account
    requires i <= |sorted|
  {
    Fold(a, Dedup(sorted[i..], seen))
  }

  lemma RemainingStep(a: Account, sorted: seq<Event>, i: nat, seen: set<string>)
    requires i < |sorted| && seen == Ids(sorted[..i])
    ensures var e := sorted[i];
      var seen' := if e.id != "" then seen + {e.id} else seen;
      && seen' == Ids(sorted[..i + 1])
      && Remaining(a, sorted, i, seen)
           == if e.id != "" && e.id in seen then Remaining(a, sorted, i + 1, seen)
             else Remaining(Apply(a, e), sorted, i + 1, seen')
  {
    var e := sorted[i];
    DedupStep(sorted, i, seen);
    FoldStep(a, e, Dedup(sorted[i + 1..], if e.id != "" then seen + {e.id} else seen));
  }

  /** One turn of that loop: an id that was seen before is passed over. */
  method ReplayNext(state: LedgerState, sorted: seq<Event>, i: nat, seen: set<string>) returns (seen': set<string>)
    requires i < |sorted| && seen == Ids(sorted[..i])
    modifies state
    ensures seen' == Ids(sorted[..i + 1])
    ensures Remaining(state.Value(), sorted, i + 1, seen') == Remaining(old(state.Value()), sorted, i, seen)
  {
    var e := sorted[i];
    RemainingStep(state.Value(), sorted, i, seen);
    if e.id != "" && e.id in seen {
      return seen;
    }
    seen' := if e.id != "" then seen + {e.id} else seen;
    state.ApplyEvent(e);
  }

  lemma NothingRemains(a: Account, sorted: seq<Event>)
    ensures Remaining(a, sorted, |sorted|, Ids(sorted)) == a
  {
  }

  /** The loop of `LiveLedger.replay`: sorted events, an id is applied once, blank ids always. */
  method ReplayLog(events: seq<Event>, initialCash: real, initialHoldings: map<string, int>)
    returns (state: LedgerState)
    ensures fresh(state)
    ensures state.Value() == Replay(events, initialCash, initialHoldings)
  {
    state := new LedgerState(initialCash, initialHoldings);
    var sorted := Sorting.Sort(events, KeyLess);
    var seen: set<string> := {};
    ghost var final := Remaining(state.Value(), sorted, 0, {});
    assert sorted[0..] == sorted;
    for i := 0 to |sorted|
      invariant fresh(state)
      invariant seen == Ids(sorted[..i])
      invariant Remaining(state.Value(), sorted, i, seen) == final
    {
      seen := ReplayNext(state, sorted, i, seen);
    }
    assert sorted[..|sorted|] == sorted;
    NothingRemains(state.Value(), sorted);
    SortedIds(events);
    state.SetSeenEventCount(|seen|);
  }

  lemma SortedIds(events: seq<Event>)
    ensures Ids(Sorting.Sort(events, KeyLess)) == Ids(events)
  {
    Sorting.SameElements(events, KeyLess);
  }
}
