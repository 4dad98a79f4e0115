/** The ledger's broker order state and the link row are two projections of one log: what each shows of an order, and
    when they agree, in whatever order and however often events reach the store. */
module Projections {
  import opened BrokerStatus
  import opened Events
  import opened Options
  import opened Ledger
  import opened OrderLinks
  import LedgerReplay
  import LinkRuns
  import Sorting

  /** 0 before the broker reported the order, 1 reported, 2 partially filled, 3 finished. */
  function Band(s: Status): nat {
    if Rank(s) < Rank(Reported) then 0
    else if Rank(s) < Rank(PartiallyFilled) then 1
    else if Rank(s) < TERMINAL_RANK then 2
    else 3
  }

  function Max(a: nat, b: nat): nat { if a < b then b else a }

  function EventBand(e: Event): nat {
    match e.body
    case BrokerExecution(r) => Band(r.status)
    case BrokerCancelRequested(_) => 1
    case _ => 0
  }

  /** The greatest band among the events with this property. */
  function MaxBand(events: seq<Event>, p: Event -> bool): nat {
    if events == [] then 0
    else Max(if p(events[0]) then EventBand(events[0]) else 0, MaxBand(events[1..], p))
  }

  function LedgerBand(orders: map<string, BrokerOrder>, k: string): nat {
    if k in orders then Band(orders[k].status) else 0
  }

  function LinkBand(row: Option<Link>): nat { Band(StatusOf(row)) }

  /** The key under which the ledger files an event's order: the broker's id if the event names it, else the
      client's. */
  function LedgerKey(e: Event): string {
    match e.body
    case BrokerExecution(r) => BrokerKey(r.brokerOrderId, e.clientOrderId)
    case BrokerCancelRequested(c) => BrokerKey(c.brokerOrderId, e.clientOrderId)
    case _ => ""
  }

  function FiledUnder(k: string): Event -> bool { (e: Event) => LedgerKey(e) == k }

  /** The event is a report or a cancel request that the store takes to the row at `key`. */
  predicate Touches(e: Event, key: LinkKey) {
    match e.body
    case BrokerExecution(r) => LinkKey(e.deploymentId, r.brokerType, e.clientOrderId) == key && r.reportId != ""
    case BrokerCancelRequested(c) => LinkKey(e.deploymentId, c.brokerType, e.clientOrderId) == key
    case _ => false
  }

  function Touching(key: LinkKey): Event -> bool { (e: Event) => Touches(e, key) }

  predicate Complete(key: LinkKey) { key.brokerType != "" && key.clientOrderId != "" }

  /** No callbacks of the broker's runtime. */
  ghost predicate NoCallbacks(events: seq<Event>) { forall e | e in events :: !e.body.BrokerRuntime? }

  lemma {:induction false} MaxBandIsMax(events: seq<Event>, p: Event -> bool)
    ensures forall e | e in events && p(e) :: EventBand(e) <= MaxBand(events, p)
    ensures MaxBand(events, p) == 0 || exists e | e in events && p(e) :: EventBand(e) == MaxBand(events, p)
  {
    if events != [] {
      MaxBandIsMax(events[1..], p);
      if p(events[0]) && MaxBand(events, p) == EventBand(events[0]) {
        assert events[0] in events;
      } else if MaxBand(events, p) > 0 {
        var e :| e in events[1..] && p(e) && EventBand(e) == MaxBand(events[1..], p);
        assert e in events;
      }
    }
  }

  lemma MaxBandOfSameEvents(a: seq<Event>, b: seq<Event>, p: Event -> bool)
    requires forall e :: e in a <==> e in b
    ensures MaxBand(a, p) == MaxBand(b, p)
  {
    MaxBandIsMax(a, p);
    MaxBandIsMax(b, p);
  }

  // ---- ledger side ---------------------------------------------------------------------

  lemma LedgerStep(a: Account, e: Event, k: string)
    requires k != ""
    ensures LedgerBand(Apply(a, e).brokerOrders, k)
      == if LedgerKey(e) == k then Max(LedgerBand(a.brokerOrders, k), EventBand(e)) else LedgerBand(a.brokerOrders, k)
  {
    match e.body
    case BrokerExecution(r) =>
      AdvanceBand(a.brokerOrders, LedgerKey(e), e.clientOrderId, e,
        Observation(r.status, r.reportId, r.filledShares, r.remainingShares, r.avgPrice), k);
    case BrokerCancelRequested(c) => RequestBand(a.brokerOrders, LedgerKey(e), e, k);
    case _ =>
  }

  lemma RequestBand(orders: map<string, BrokerOrder>, at: string, e: Event, k: string)
    requires k != ""
    ensures LedgerBand(RequestCancel(orders, at, e), k) == if at == k then Max(LedgerBand(orders, k), 1)
      else LedgerBand(orders, k)
  {
    AdvanceBand(orders, at, e.clientOrderId, e, Observation(PendingStatus(Ledger.Get(orders, at)), "", 0, 0, 0.0), k);
  }

  lemma AdvanceBand(orders: map<string, BrokerOrder>, at: string, clientOrderId: string, e: Event, o: Observation,
                    k: string)
    requires k != ""
    ensures LedgerBand(AdvanceBroker(orders, at, clientOrderId, e, o), k)
      == if at == k then Max(LedgerBand(orders, k), Band(o.status)) else LedgerBand(orders, k)
  {
  }

  lemma {:induction false} LedgerRun(a: Account, events: seq<Event>, k: string)
    requires k != ""
    ensures LedgerBand(Fold(a, events).brokerOrders, k)
      == Max(LedgerBand(a.brokerOrders, k), MaxBand(events, FiledUnder(k)))
    decreases |events|
  {
    if events != [] {
      LedgerStep(a, events[0], k);
      LedgerRun(Apply(a, events[0]), events[1..], k);
    }
  }

  /** For any log and any key, the ledger's order is as far as the furthest event filed under the key. */
  lemma LedgerShowsFurthest(log: seq<Event>, k: string, cash: real, holdings: map<string, int>)
    requires LedgerReplay.IdsIdentify(log) && k != ""
    ensures LedgerBand(Replay(log, cash, holdings).brokerOrders, k) == MaxBand(log, FiledUnder(k))
  {
    var normal := Dedup(Sorting.Sort(log, KeyLess), {});
    LedgerReplay.NormalLog(log);
    LedgerRun(Opening(cash, holdings), normal, k);
    MaxBandOfSameEvents(normal, log, FiledUnder(k));
  }

  // ---- store side ----------------------------------------------------------------------

  /** How far an operation brings a row. */
  function OpBand(op: Op): nat {
    match op
    case GotReport(r) => Band(r.status)
    case GotPending(_, _, _) => 1
    case GotCancelFailure => 0
  }

  lemma StepBand(row: Option<Link>, op: Op)
    requires !op.GotCancelFailure?
    ensures LinkBand(Step(row, op)) == Max(LinkBand(row), OpBand(op))
  {
  }

  lemma TouchEffect(table: seq<Event>, links: map<LinkKey, Link>, e: Event, key: LinkKey)
    requires NoCallbacks(table) && !e.body.BrokerRuntime? && Complete(key)
    ensures var effect := Effect(table, links, e);
      && (Touches(e, key) <==> effect.Some? && effect.value.0 == key)
      && (Touches(e, key) ==> !effect.value.1.GotCancelFailure? && OpBand(effect.value.1) == EventBand(e))
  {
  }

  lemma StoreStep(s: Store, e: Event, key: LinkKey)
    requires NoCallbacks(s.table) && !e.body.BrokerRuntime? && Complete(key)
    ensures NoCallbacks(Append(s, e).table)
    ensures var row := OrderLinks.Get(s.links, key);
      LinkBand(OrderLinks.Get(Append(s, e).links, key)) == if Touches(e, key) then Max(LinkBand(row), EventBand(e))
        else LinkBand(row)
  {
    var table := Stored(s.table, e);
    assert forall f | f in table :: f in s.table || f == e;
    TouchEffect(table, s.links, e, key);
    LinkRuns.AppendAt(s, e, key);
    if Touches(e, key) { StepBand(OrderLinks.Get(s.links, key), Effect(table, s.links, e).value.1); }
  }

  lemma {:induction false} StoreRun(s: Store, events: seq<Event>, key: LinkKey)
    requires NoCallbacks(s.table) && NoCallbacks(events) && Complete(key)
    ensures LinkBand(OrderLinks.Get(AppendAll(s, events).links, key))
      == Max(LinkBand(OrderLinks.Get(s.links, key)), MaxBand(events, Touching(key)))
    decreases |events|
  {
    if events != [] {
      assert events[0] in events;
      StoreStep(s, events[0], key);
      StoreRun(Append(s, events[0]), events[1..], key);
    }
  }

  /** For any delivery without callbacks and any order, the row is as far as the furthest event that touches it. */
  lemma RowShowsFurthest(delivered: seq<Event>, key: LinkKey)
    requires NoCallbacks(delivered) && Complete(key)
    ensures LinkBand(OrderLinks.Get(AppendAll(Store([], map[]), delivered).links, key))
      == MaxBand(delivered, Touching(key))
  {
    StoreRun(Store([], map[]), delivered, key);
  }

  // ---- agreement -----------------------------------------------------------------------

  /** The ledger files what touches the row under one of two names: before and after the broker's id is known. */
  ghost predicate KnownAs(events: seq<Event>, key: LinkKey, a: string, b: string) {
    a != "" && b != "" && forall e | e in events && Touches(e, key) :: LedgerKey(e) == a || LedgerKey(e) == b
  }

  /** And nothing else under these names, such as a report without an id or of another deployment. */
  ghost predicate OnlyKnownAs(events: seq<Event>, key: LinkKey, a: string, b: string) {
    KnownAs(events, key, a, b) && forall e | e in events && (LedgerKey(e) == a || LedgerKey(e) == b) :: Touches(e, key)
  }

  lemma {:induction false} MaxBandOfNames(events: seq<Event>, key: LinkKey, a: string, b: string)
    requires KnownAs(events, key, a, b)
    ensures var whole := Max(MaxBand(events, FiledUnder(a)), MaxBand(events, FiledUnder(b)));
      MaxBand(events, Touching(key)) <= whole
        && (OnlyKnownAs(events, key, a, b) ==> MaxBand(events, Touching(key)) == whole)
  {
    if events != [] {
      assert events[0] in events;
      MaxBandOfNames(events[1..], key, a, b);
    }
  }

  /** `log` is what replay reads, `delivered` the same events as they reached the store. The ledger files the reports
      before and after the broker's id is known apart; the one row is as far as the further of the two, unless the
      ledger took in reports that the store refuses. */
  lemma ProjectionsAgree(log: seq<Event>, delivered: seq<Event>, key: LinkKey, a: string, b: string, cash: real,
                         holdings: map<string, int>)
    requires LedgerReplay.IdsIdentify(log) && NoCallbacks(log) && Complete(key) && KnownAs(log, key, a, b)
    requires forall e :: e in log <==> e in delivered
    ensures var orders, row := Replay(log, cash, holdings).brokerOrders,
        OrderLinks.Get(AppendAll(Store([], map[]), delivered).links, key);
      var ledger := Max(LedgerBand(orders, a), LedgerBand(orders, b));
      LinkBand(row) <= ledger && (OnlyKnownAs(log, key, a, b) ==> LinkBand(row) == ledger)
  {
    LedgerShowsFurthest(log, a, cash, holdings);
    LedgerShowsFurthest(log, b, cash, holdings);
    RowShowsFurthest(delivered, key);
    MaxBandOfSameEvents(log, delivered, Touching(key));
    MaxBandOfNames(log, key, a, b);
  }
}
