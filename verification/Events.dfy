/** Orders, deployment events and their order of replay (ez/live/events.py, ez/live/ledger.py). */
module Events {
  import opened BrokerStatus
  import opened Options
  import TextOrder
  import Sorting

  datatype Side = Buy | Sell

  /** The part of a fill event's payload that replay reads. */
  datatype FillPayload = FillPayload(symbol: string, side: Side, shares: int, price: real, amount: real, cost: real)

  /** A broker report; the status is the reported word after normalisation. */
  datatype ReportPayload = ReportPayload(
    reportId: string, brokerType: string, brokerOrderId: string, symbol: string, accountId: string,
    status: Status, filledShares: int, remainingShares: int, avgPrice: real)

  datatype CancelPayload = CancelPayload(brokerType: string, brokerOrderId: string, symbol: string, accountId: string)

  datatype RuntimeKind = OrderAsyncResponse | CancelAsyncResponse | CancelErrorKind | OtherKind(name: string)

  /** The fields of a QMT callback that the store looks at; "" stands for an absent field. */
  datatype RuntimePayload = RuntimePayload(
    brokerType: string, kind: RuntimeKind, clientOrderId: string, orderRemark: string,
    orderSysid: string, brokerOrderId: string, orderId: string, accountId: string, stockCode: string,
    cancelResultOk: bool, errorMsg: string, statusMsg: string)

  /** A snapshot event; each absent key is `None`. */
  datatype Checkpoint = Checkpoint(
    date: Option<int>, equity: Option<real>, cash: Option<real>, holdings: Option<map<string, int>>,
    weights: Option<map<string, real>>, prevReturns: Option<map<string, real>>)

  datatype Body =
    | OrderSubmitted
    | OrderRejected
    | OrderFilled(fill: FillPayload)
    | OrderPartiallyFilled(fill: FillPayload)
    | BrokerExecution(report: ReportPayload)
    | BrokerCancelRequested(cancel: CancelPayload)
    | BrokerRuntime(runtime: RuntimePayload)
    | BrokerAccount
    | RiskRecorded(riskEvent: Option<string>)
    | MarketSnapshot(prices: map<string, real>)
    | MarketBar(symbol: string, adjClose: real, close: real)
    | SnapshotSaved(checkpoint: Checkpoint)
    | TickCompleted

  datatype Event = Event(id: string, deploymentId: string, ts: int, clientOrderId: string, body: Body)

  /** At one timestamp events replay in this order. */
  function Priority(b: Body): nat {
    match b
    case MarketSnapshot(_) => 5
    case MarketBar(_, _, _) => 6
    case OrderSubmitted => 10
    case OrderPartiallyFilled(_) => 20
    case OrderFilled(_) => 30
    case OrderRejected => 40
    case BrokerAccount => 43
    case BrokerRuntime(_) => 44
    case BrokerExecution(_) => 45
    case BrokerCancelRequested(_) => 46
    case RiskRecorded(_) => 50
    case SnapshotSaved(_) => 60
    case TickCompleted => 70
  }

  /** The tuple comparison of (timestamp, priority, event id). */
  predicate KeyLess(a: Event, b: Event) {
    || a.ts < b.ts
    || (a.ts == b.ts && Priority(a.body) < Priority(b.body))
    || (a.ts == b.ts && Priority(a.body) == Priority(b.body) && TextOrder.Less(a.id, b.id))
  }

  lemma KeyLessIsWeakOrder()
    ensures Sorting.StrictWeakOrder(KeyLess)
  {
    forall x: Event ensures !KeyLess(x, x) { TextOrder.Irreflexive(x.id); }
    forall x: Event, y: Event, z: Event | KeyLess(x, y) && KeyLess(y, z) ensures KeyLess(x, z) {
      if TextOrder.Less(x.id, y.id) && TextOrder.Less(y.id, z.id) { TextOrder.Transitive(x.id, y.id, z.id); }
    }
    forall x: Event, y: Event, z: Event | KeyLess(x, z) ensures KeyLess(x, y) || KeyLess(y, z) {
      TextOrder.Total(x.id, y.id);
      if TextOrder.Less(y.id, x.id) && TextOrder.Less(x.id, z.id) { TextOrder.Transitive(y.id, x.id, z.id); }
    }
  }

  /** Different ids never tie, so the replay order of events with different ids is fixed. */
  lemma DistinctIdsCompare(a: Event, b: Event)
    requires a.id != b.id
    ensures KeyLess(a, b) || KeyLess(b, a)
  {
    TextOrder.Total(a.id, b.id);
  }

  function Or(a: string, b: string): string { if a != "" then a else b }
}
