/** The broker order link table and the event store that feeds it
    (ez/live/_broker_order_links.py, dispatch in ez/live/deployment_store.py). */
module OrderLinks {
  import opened BrokerStatus
  import opened Events
  import opened Options
  import Sorting

  datatype LinkKey = LinkKey(deploymentId: string, brokerType: string, clientOrderId: string)

  datatype ReportId = NoReport | ReportId(id: string) | SubmitAckId(brokerOrderId: string, ts: int)

  datatype Link = Link(
    brokerOrderId: string, symbol: string, accountId: string,
    reportId: ReportId, status: Status, reportTs: Option<int>)

  datatype Report = Report(
    reportId: ReportId, brokerType: string, ts: int, clientOrderId: string,
    brokerOrderId: string, symbol: string, accountId: string, status: Status)

  /** A report without an id is stored as no report. */
  function Stated(id: ReportId): ReportId { if id == ReportId("") then NoReport else id }

  // ---- one row, one transition ---------------------------------------------------------

  function StatusOf(before: Option<Link>): Status {
    if before.Some? then before.value.status else Unknown
  }

  /** A partial fill seen while a cancel is pending stays cancel-pending. */
  function Incoming(previous: Status, reported: Status): Status {
    if IsCancelPending(previous) && reported.PartiallyFilled? then PartiallyFilledCancelPending else reported
  }

  /** A late "reported" must not erase a pending cancel; it only refreshes the report fields. */
  predicate KeepsPending(previous: Status, incoming: Status) {
    previous.ReportedCancelPending? && incoming.Reported?
  }

  predicate Advances(before: Option<Link>, incoming: Status, ts: int) {
    before.None? ||
    KeepsPending(before.value.status, incoming) ||
    Rank(incoming) > Rank(before.value.status) ||
    (Rank(incoming) == Rank(before.value.status) && (before.value.reportTs.None? || ts >= before.value.reportTs.value))
  }

  function TakeReport(before: Option<Link>, r: Report): Link {
    var previous := if before.Some? then before.value else Link("", "", "", NoReport, Unknown, None);
    var incoming := Incoming(previous.status, r.status);
    var advances := Advances(before, incoming, r.ts);
    Link(
      Or(r.brokerOrderId, previous.brokerOrderId), Or(r.symbol, previous.symbol), Or(r.accountId, previous.accountId),
      Stated(if advances then r.reportId else previous.reportId),
      if advances && !KeepsPending(previous.status, incoming) then incoming else previous.status,
      if advances then Some(r.ts) else previous.reportTs)
  }

  function PendingTarget(previous: Status): Status {
    if previous.PartiallyFilled? || previous.PartiallyFilledCancelPending? then PartiallyFilledCancelPending
    else ReportedCancelPending
  }

  /** A cancel was requested, or the broker accepted the request. */
  function MarkPending(before: Option<Link>, brokerOrderId: string, symbol: string, accountId: string): Link {
    var previous := if before.Some? then before.value else Link("", "", "", NoReport, Unknown, None);
    var target := PendingTarget(previous.status);
    if IsTerminal(previous.status) || (before.Some? && Rank(previous.status) > Rank(target)) then previous
    else Link(
      Or(brokerOrderId, previous.brokerOrderId), Or(symbol, previous.symbol), Or(accountId, previous.accountId),
      previous.reportId, target, previous.reportTs)
  }

  /** The status with a pending cancel taken back. */
  function Settled(s: Status): Status {
    match s
    case ReportedCancelPending => Reported
    case PartiallyFilledCancelPending => PartiallyFilled
    case _ => s
  }

  datatype Op =
    | GotReport(report: Report)
    | GotPending(brokerOrderId: string, symbol: string, accountId: string)
    | GotCancelFailure

  function Step(before: Option<Link>, op: Op): Option<Link> {
    match op
    case GotReport(r) => Some(TakeReport(before, r))
    case GotPending(brokerOrderId, symbol, accountId) => Some(MarkPending(before, brokerOrderId, symbol, accountId))
    case GotCancelFailure => if before.Some? then Some(before.value.(status := Settled(before.value.status))) else None
  }

  // ---- classifying runtime callbacks ---------------------------------------------------

  predicate IsOrderSubmitAck(r: RuntimePayload) {
    r.kind.OrderAsyncResponse? && Or(r.orderId, r.orderSysid) != ""
  }

  predicate IsCancelFailed(r: RuntimePayload) {
    r.kind.CancelErrorKind? || (r.kind.CancelAsyncResponse? && (!r.cancelResultOk || Or(r.errorMsg, r.statusMsg) != ""))
  }

  predicate IsCancelSubmitAck(r: RuntimePayload) {
    r.kind.CancelAsyncResponse? && r.cancelResultOk && Or(r.errorMsg, r.statusMsg) == "" && CancelOrderId(r) != ""
  }

  function CallbackClientId(r: RuntimePayload): string { Or(r.clientOrderId, r.orderRemark) }

  function CancelOrderId(r: RuntimePayload): string { Or(r.orderSysid, Or(r.brokerOrderId, r.orderId)) }

  // ---- the store -----------------------------------------------------------------------

  datatype Store = Store(table: seq<Event>, links: map<LinkKey, Link>)

  function Get(links: map<LinkKey, Link>, key: LinkKey): Option<Link> {
    if key in links then Some(links[key]) else None
  }

  /** A stored cancel failure of this order, no older than `notBefore`. */
  predicate IsLaterFailure(e: Event, key: LinkKey, brokerOrderId: string, notBefore: int) {
    && e.deploymentId == key.deploymentId && e.body.BrokerRuntime? && e.ts >= notBefore
    && e.body.runtime.brokerType == key.brokerType && IsCancelFailed(e.body.runtime)
    && (|| (key.clientOrderId != "" && Or(CallbackClientId(e.body.runtime), e.clientOrderId) == key.clientOrderId)
        || (brokerOrderId != "" && CancelOrderId(e.body.runtime) == brokerOrderId))
  }

  predicate HasLaterFailure(table: seq<Event>, key: LinkKey, brokerOrderId: string, notBefore: int) {
    exists e | e in table :: IsLaterFailure(e, key, brokerOrderId, notBefore)
  }

  function KeysOfBrokerOrder(links: map<LinkKey, Link>, deploymentId: string, brokerType: string,
                             brokerOrderId: string, accountId: string): set<LinkKey> {
    set k | k in links && k.deploymentId == deploymentId && k.brokerType == brokerType
      && links[k].brokerOrderId == brokerOrderId
      && (accountId == "" || links[k].accountId == accountId || links[k].accountId == "")
  }

  /** The order a cancel callback is about: by client id, else by an unambiguous broker order id. */
  ghost function Resolve(links: map<LinkKey, Link>, deploymentId: string, r: RuntimePayload): Option<LinkKey> {
    if r.brokerType == "" then None
    else if CallbackClientId(r) != "" then Some(LinkKey(deploymentId, r.brokerType, CallbackClientId(r)))
    else if CancelOrderId(r) == "" then None
    else
      var keys := KeysOfBrokerOrder(links, deploymentId, r.brokerType, CancelOrderId(r), r.accountId);
      if |keys| == 1 then (var k :| k in keys; Some(k)) else None
  }

  function ExecutionReport(e: Event): Report
    requires e.body.BrokerExecution?
  {
    var p := e.body.report;
    Report(ReportId(p.reportId), p.brokerType, e.ts, e.clientOrderId, p.brokerOrderId, p.symbol, p.accountId, p.status)
  }

  function SubmitAckOrderId(r: RuntimePayload): string { Or(r.orderSysid, r.orderId) }

  function SubmitAckReport(e: Event): Report
    requires e.body.BrokerRuntime?
  {
    var r := e.body.runtime;
    Report(SubmitAckId(SubmitAckOrderId(r), e.ts), r.brokerType, e.ts, CallbackClientId(r),
           SubmitAckOrderId(r), r.stockCode, r.accountId, Reported)
  }

  /** Which row an appended event touches, and how; `None` when it touches no row. */
  ghost function Effect(table: seq<Event>, links: map<LinkKey, Link>, e: Event): Option<(LinkKey, Op)> {
    match e.body
    case BrokerExecution(p) =>
      if p.brokerType == "" || e.clientOrderId == "" || p.reportId == "" then None
      else Some((LinkKey(e.deploymentId, p.brokerType, e.clientOrderId), GotReport(ExecutionReport(e))))
    case BrokerCancelRequested(c) =>
      var key := LinkKey(e.deploymentId, c.brokerType, e.clientOrderId);
      var known := if key in links then links[key].brokerOrderId else "";
      if c.brokerType == "" || e.clientOrderId == "" || HasLaterFailure(table, key, Or(c.brokerOrderId, known), e.ts)
        then None
      else Some((key, GotPending(c.brokerOrderId, c.symbol, c.accountId)))
    case BrokerRuntime(r) =>
      if IsOrderSubmitAck(r) then
        if r.brokerType == "" || CallbackClientId(r) == "" then None
        else Some((LinkKey(e.deploymentId, r.brokerType, CallbackClientId(r)), GotReport(SubmitAckReport(e))))
      else if IsCancelSubmitAck(r) || IsCancelFailed(r) then
        var key := Resolve(links, e.deploymentId, r);
        if key.None? then None
        else if IsCancelFailed(r) then Some((key.value, GotCancelFailure))
        else Some((key.value, GotPending(CancelOrderId(r), r.stockCode, r.accountId)))
      else None
    case _ => None
  }

  function Stored(table: seq<Event>, e: Event): seq<Event> {
    if exists f | f in table :: f.id == e.id then table else table + [e]
  }

  function Write(links: map<LinkKey, Link>, key: LinkKey, row: Option<Link>): map<LinkKey, Link> {
    if row.Some? then links[key := row.value] else links
  }

  ghost function Applied(s: Store, effect: Option<(LinkKey, Op)>): Store {
    if effect.None? then s
    else
      var (key, op) := effect.value;
      s.(links := Write(s.links, key, Step(Get(s.links, key), op)))
  }

  /** One event: stored unless its id is known, then applied to the row it is about. */
  ghost function Append(s: Store, e: Event): Store {
    var table := Stored(s.table, e);
    Applied(Store(table, s.links), Effect(table, s.links, e))
  }

  ghost function AppendAll(s: Store, events: seq<Event>): Store
    decreases |events|
  {
    if events == [] then s else AppendAll(Append(s, events[0]), events[1..])
  }

  /** Reports taken one after another; a report without a client order id is skipped. */
  function TakeReports(links: map<LinkKey, Link>, deploymentId: string, reports: seq<Report>): map<LinkKey, Link>
    decreases |reports|
  {
    if reports == [] then links
    else
      var r := reports[0];
      var key := LinkKey(deploymentId, r.brokerType, r.clientOrderId);
      TakeReports(
        if r.clientOrderId == "" then links else links[key := TakeReport(Get(links, key), r)],
        deploymentId, reports[1..])
  }

  /** How many of these reports create a row or replace the report a row shows. */
  function Updates(links: map<LinkKey, Link>, deploymentId: string, reports: seq<Report>): nat
    decreases |reports|
  {
    if reports == [] then 0
    else
      var r := reports[0];
      var key := LinkKey(deploymentId, r.brokerType, r.clientOrderId);
      var row := TakeReport(Get(links, key), r);
      if r.clientOrderId == "" then Updates(links, deploymentId, reports[1..])
      else (if key !in links || Stated(links[key].reportId) != row.reportId then 1 else 0)
           + Updates(links[key := row], deploymentId, reports[1..])
  }

  // ---- the repository as the code has it: rows read and replaced in place -----------------

  /** The database order of runtime events: newest first. */
  predicate NewerFirst(a: Event, b: Event) { a.ts > b.ts }

  lemma NewerFirstIsWeakOrder()
    ensures Sorting.StrictWeakOrder(NewerFirst)
  {
  }

  function Runtimes(table: seq<Event>, deploymentId: string): seq<Event> {
    if table == [] then []
    else (if table[0].deploymentId == deploymentId && table[0].body.BrokerRuntime? then [table[0]] else [])
         + Runtimes(table[1..], deploymentId)
  }

  lemma RuntimesAreTheRuntimeEvents(table: seq<Event>, deploymentId: string)
    ensures forall e ::
      e in Runtimes(table, deploymentId) <==> e in table && e.deploymentId == deploymentId && e.body.BrokerRuntime?
  {
  }

  function NewestRuntimes(table: seq<Event>, deploymentId: string): seq<Event> {
    Sorting.Sort(Runtimes(table, deploymentId), NewerFirst)
  }

  lemma NewestRuntimesScan(table: seq<Event>, deploymentId: string)
    ensures var rows := NewestRuntimes(table, deploymentId);
      && (forall e :: e in rows <==> e in table && e.deploymentId == deploymentId && e.body.BrokerRuntime?)
      && (forall i, j | 0 <= i < j < |rows| :: rows[j].ts <= rows[i].ts)
  {
    RuntimesAreTheRuntimeEvents(table, deploymentId);
    Sorting.SameElements(Runtimes(table, deploymentId), NewerFirst);
    NewerFirstIsWeakOrder();
    Sorting.SortSorted(Runtimes(table, deploymentId), NewerFirst);
    var rows := NewestRuntimes(table, deploymentId);
    forall i, j | 0 <= i < j < |rows| ensures rows[j].ts <= rows[i].ts {
      assert !NewerFirst(rows[j], rows[i]);
    }
  }

  class EventStore {
    var table: seq<Event>
    var links: map<LinkKey, Link>

    ghost function Value(): Store
      reads this
    {
      Store(table, links)
    }

    constructor ()
      ensures Value() == Store([], map[])
    {
      table, links := [], map[];
    }

    method UpsertReports(deploymentId: string, reports: seq<Report>) returns (updated: nat)
      modifies this`links
      ensures links == TakeReports(old(links), deploymentId, reports)
      ensures updated == Updates(old(links), deploymentId, reports)
    {
      updated := 0;
      for i := 0 to |reports|
        invariant TakeReports(links, deploymentId, reports[i..]) == TakeReports(old(links), deploymentId, reports)
        invariant updated + Updates(links, deploymentId, reports[i..]) == Updates(old(links), deploymentId, reports)
      {
        var r := reports[i];
        assert reports[i..][1..] == reports[i + 1..];
        if r.clientOrderId == "" { continue; }
        var key := LinkKey(deploymentId, r.brokerType, r.clientOrderId);
        var before := Get(links, key);
        var after := TakeReport(before, r);
        links := links[key := after];
        if before.None? || Stated(before.value.reportId) != after.reportId { updated := updated + 1; }
      }
    }

    /** Scans the runtime events from the newest back and stops at the first one that is too old. */
    method HasLaterCancelFailed(key: LinkKey, brokerOrderId: string, notBefore: int) returns (found: bool)
      ensures found == HasLaterFailure(table, key, brokerOrderId, notBefore)
    {
      var rows := NewestRuntimes(table, key.deploymentId);
      NewestRuntimesScan(table, key.deploymentId);
      for i := 0 to |rows|
        invariant forall j | 0 <= j < i :: !IsLaterFailure(rows[j], key, brokerOrderId, notBefore)
      {
        var e := rows[i];
        assert e in rows;
        if e.ts < notBefore { return false; }
        if e.body.runtime.brokerType != key.brokerType || !IsCancelFailed(e.body.runtime) { continue; }
        if key.clientOrderId != "" && Or(CallbackClientId(e.body.runtime), e.clientOrderId) == key.clientOrderId {
          return true;
        }
        if brokerOrderId != "" && CancelOrderId(e.body.runtime) == brokerOrderId { return true; }
      }
      return false;
    }

    method UpsertExecution(e: Event)
      requires e.body.BrokerExecution?
      modifies this`links
      ensures Value() == Applied(old(Value()), Effect(table, old(links), e))
    {
      var p := e.body.report;
      if p.brokerType == "" || e.clientOrderId == "" || p.reportId == "" { return; }
      OneReport(links, e.deploymentId, ExecutionReport(e));
      var _ := UpsertReports(e.deploymentId, [ExecutionReport(e)]);
    }

    method UpsertSubmitAck(e: Event)
      requires e.body.BrokerRuntime? && IsOrderSubmitAck(e.body.runtime)
      modifies this`links
      ensures Value() == Applied(old(Value()), Effect(table, old(links), e))
    {
      var r := e.body.runtime;
      if r.brokerType == "" || CallbackClientId(r) == "" || SubmitAckOrderId(r) == "" { return; }
      OneReport(links, e.deploymentId, SubmitAckReport(e));
      var _ := UpsertReports(e.deploymentId, [SubmitAckReport(e)]);
    }

    method WritePending(key: LinkKey, brokerOrderId: string, symbol: string, accountId: string)
      modifies this`links
      ensures links == old(links)[key := MarkPending(Get(old(links), key), brokerOrderId, symbol, accountId)]
    {
      var before := Get(links, key);
      if before.Some? && IsTerminal(before.value.status) {
        assert links == links[key := links[key]];
        return;
      }
      var target := PendingTarget(StatusOf(before));
      if before.Some? && Rank(before.value.status) > Rank(target) {
        assert links == links[key := links[key]];
        return;
      }
      if before.None? {
        links := links[key := Link(brokerOrderId, symbol, accountId, NoReport, target, None)];
      } else {
        var row := before.value;
        links := links[key := Link(Or(brokerOrderId, row.brokerOrderId), Or(symbol, row.symbol),
                                   Or(accountId, row.accountId),
                                   row.reportId, target, row.reportTs)];
      }
    }

    method UpsertCancelRequested(e: Event)
      requires e.body.BrokerCancelRequested?
      modifies this`links
      ensures Value() == Applied(old(Value()), Effect(table, old(links), e))
    {
      var c := e.body.cancel;
      if c.brokerType == "" || e.clientOrderId == "" { return; }
      var key := LinkKey(e.deploymentId, c.brokerType, e.clientOrderId);
      var known := if key in links then links[key].brokerOrderId else "";
      var superseded := HasLaterCancelFailed(key, Or(c.brokerOrderId, known), e.ts);
      if superseded { return; }
      WritePending(key, c.brokerOrderId, c.symbol, c.accountId);
    }

    method FindOrder(deploymentId: string, r: RuntimePayload) returns (key: Option<LinkKey>)
      ensures key == Resolve(links, deploymentId, r)
    {
      if r.brokerType == "" { return None; }
      if CallbackClientId(r) != "" { return Some(LinkKey(deploymentId, r.brokerType, CallbackClientId(r))); }
      if CancelOrderId(r) == "" { return None; }
      var keys := KeysOfBrokerOrder(links, deploymentId, r.brokerType, CancelOrderId(r), r.accountId);
      if |keys| != 1 { return None; }
      var k :| k in keys;
      OnlyElement(keys, k);
      return Some(k);
    }

    method UpsertCancelAck(e: Event)
      requires e.body.BrokerRuntime? && !IsOrderSubmitAck(e.body.runtime) && IsCancelSubmitAck(e.body.runtime)
      modifies this`links
      ensures Value() == Applied(old(Value()), Effect(table, old(links), e))
    {
      var r := e.body.runtime;
      var key := FindOrder(e.deploymentId, r);
      if key.None? { return; }
      WritePending(key.value, CancelOrderId(r), r.stockCode, r.accountId);
    }

    method UpsertCancelFailed(e: Event)
      requires e.body.BrokerRuntime? && !IsOrderSubmitAck(e.body.runtime) && IsCancelFailed(e.body.runtime)
      modifies this`links
      ensures Value() == Applied(old(Value()), Effect(table, old(links), e))
    {
      var key := FindOrder(e.deploymentId, e.body.runtime);
      if key.None? || key.value !in links { return; }
      var row := links[key.value];
      if row.status.ReportedCancelPending? {
        links := links[key.value := row.(status := Reported)];
      } else if row.status.PartiallyFilledCancelPending? {
        links := links[key.value := row.(status := PartiallyFilled)];
      } else {
        assert links == links[key.value := links[key.value]];
      }
    }

    /** Inserts every new event and dispatches each event, new or not, to its row. */
    method AppendEvents(events: seq<Event>) returns (inserted: nat)
      modifies this
      ensures Value() == AppendAll(old(Value()), events)
      ensures |table| == |old(table)| + inserted
    {
      inserted := 0;
      for i := 0 to |events|
        invariant AppendAll(Value(), events[i..]) == AppendAll(old(Value()), events)
        invariant |table| == |old(table)| + inserted
      {
        var e := events[i];
        assert events[i..][1..] == events[i + 1..];
        if !exists f | f in table :: f.id == e.id {
          table := table + [e];
          inserted := inserted + 1;
        }
        match e.body {
          case BrokerExecution(_) => UpsertExecution(e);
          case BrokerCancelRequested(_) => UpsertCancelRequested(e);
          case BrokerRuntime(r) =>
            if IsOrderSubmitAck(r) {
              UpsertSubmitAck(e);
            } else if IsCancelSubmitAck(r) {
              UpsertCancelAck(e);
            } else if IsCancelFailed(r) {
              UpsertCancelFailed(e);
            }
          case _ =>
        }
      }
    }
  }

  lemma OneReport(links: map<LinkKey, Link>, deploymentId: string, r: Report)
    requires r.clientOrderId != ""
    ensures var key := LinkKey(deploymentId, r.brokerType, r.clientOrderId);
      TakeReports(links, deploymentId, [r]) == links[key := TakeReport(Get(links, key), r)]
  {
    var key := LinkKey(deploymentId, r.brokerType, r.clientOrderId);
    assert [r][1..] == [];
    assert TakeReports(links[key := TakeReport(Get(links, key), r)], deploymentId, [])
      == links[key := TakeReport(Get(links, key), r)];
  }

  lemma OnlyElement<T>(s: set<T>, x: T)
    requires |s| == 1 && x in s
    ensures s == {x}
  {
    assert |s - {x}| == 0;
  }
}
