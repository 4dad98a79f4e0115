/** What the link table guarantees over whole runs and under out-of-order delivery. */
module LinkRuns {
  import opened BrokerStatus
  import opened Events
  import opened Options
  import opened OrderLinks

  // ---- progress ------------------------------------------------------------------------

  /** How far an order has come, pending cancels aside. */
  function Progress(row: Option<Link>): nat { Rank(Settled(StatusOf(row))) }

  /** What any single transition keeps. */
  ghost predicate Forward(before: Option<Link>, after: Option<Link>) {
    && (before.Some? ==> after.Some?)
    && Progress(before) <= Progress(after)
    && (IsTerminal(StatusOf(before)) ==> IsTerminal(StatusOf(after)))
  }

  lemma StepGoesForward(before: Option<Link>, op: Op)
    ensures Forward(before, Step(before, op))
  {
  }

  /** A finished row takes a report exactly when the report is final too and no older. */
  lemma TerminalRowTakes(row: Link, op: Op)
    requires IsTerminal(row.status)
    ensures Step(Some(row), op).value.status ==
      if op.GotReport? && IsTerminal(op.report.status) && (row.reportTs.None? || op.report.ts >= row.reportTs.value)
      then op.report.status else row.status
  {
  }

  /** The row at `key` after one event: its own transition, or nothing. */
  lemma AppendAt(s: Store, e: Event, key: LinkKey)
    ensures var effect := Effect(Stored(s.table, e), s.links, e);
      Get(Append(s, e).links, key) ==
        if effect.Some? && effect.value.0 == key then Step(Get(s.links, key), effect.value.1) else Get(s.links, key)
  {
  }

  /** Over any interleaving of reports, acks, cancel requests and cancel failures, for every order. */
  lemma {:induction false} RunsGoForward(s: Store, events: seq<Event>, key: LinkKey)
    ensures Forward(Get(s.links, key), Get(AppendAll(s, events).links, key))
    decreases |events|
  {
    if events != [] {
      AppendAt(s, events[0], key);
      var effect := Effect(Stored(s.table, events[0]), s.links, events[0]);
      if effect.Some? { StepGoesForward(Get(s.links, key), effect.value.1); }
      RunsGoForward(Append(s, events[0]), events[1..], key);
    }
  }

  predicate IsFinalReport(e: Event, key: LinkKey) {
    && e.body.BrokerExecution? && IsTerminal(e.body.report.status)
    && LinkKey(e.deploymentId, e.body.report.brokerType, e.clientOrderId) == key
  }

  lemma FinalReportsComeFromEvents(table: seq<Event>, links: map<LinkKey, Link>, e: Event, key: LinkKey)
    ensures var effect := Effect(table, links, e);
      effect.Some? && effect.value.0 == key && effect.value.1.GotReport? && IsTerminal(effect.value.1.report.status)
      ==> IsFinalReport(e, key)
  {
  }

  /** Only another final report of the same order can change the status of a finished row. */
  lemma {:induction false} FinishedRowsChangeOnlyByFinalReports(s: Store, events: seq<Event>, key: LinkKey)
    requires IsTerminal(StatusOf(Get(s.links, key)))
    requires forall e | e in events :: !IsFinalReport(e, key)
    ensures StatusOf(Get(AppendAll(s, events).links, key)) == StatusOf(Get(s.links, key))
    decreases |events|
  {
    if events != [] {
      AppendAt(s, events[0], key);
      var effect := Effect(Stored(s.table, events[0]), s.links, events[0]);
      assert events[0] in events;
      FinalReportsComeFromEvents(Stored(s.table, events[0]), s.links, events[0], key);
      if effect.Some? && effect.value.0 == key { TerminalRowTakes(s.links[key], effect.value.1); }
      FinishedRowsChangeOnlyByFinalReports(Append(s, events[0]), events[1..], key);
    }
  }

  // ---- out-of-order delivery of reports ------------------------------------------------

  /** (rank, timestamp) in lexicographic order. */
  predicate Precedes(a: Report, b: Report) {
    Rank(a.status) < Rank(b.status) || (Rank(a.status) == Rank(b.status) && a.ts < b.ts)
  }

  ghost predicate NoPending(reports: seq<Report>) {
    forall r | r in reports :: !IsCancelPending(r.status)
  }

  /** The row after these reports arrived in this order. */
  function Delivered(before: Option<Link>, reports: seq<Report>): Option<Link> {
    if reports == [] then before
    else Some(TakeReport(Delivered(before, reports[..|reports| - 1]), reports[|reports| - 1]))
  }

  /** `row` shows report `r`. */
  predicate Shows(row: Option<Link>, r: Report) {
    row.Some? && row.value.status == r.status && row.value.reportTs == Some(r.ts)
      && row.value.reportId == if r.reportId == ReportId("") then NoReport else r.reportId
  }

  /** The row shows the greatest report, and among ties the one that arrived last. */
  lemma {:induction false} RowShowsGreatest(reports: seq<Report>) returns (i: nat)
    requires reports != [] && NoPending(reports)
    ensures i < |reports| && Shows(Delivered(None, reports), reports[i])
    ensures forall j | 0 <= j < |reports| :: !Precedes(reports[i], reports[j])
    ensures forall j | i < j < |reports| :: Precedes(reports[j], reports[i])
  {
    var last := |reports| - 1;
    var earlier := reports[..last];
    if last == 0 {
      i := 0;
      assert Delivered(None, earlier) == None;
    } else {
      assert forall r | r in earlier :: r in reports;
      i := RowShowsGreatest(earlier);
      assert reports[i] in reports && reports[last] in reports;
      if !Precedes(reports[last], reports[i]) { i := last; }
    }
  }

  /** Any delivery order of the same reports, repeats included, leaves the row at the same report
      when no two reports tie. */
  lemma DeliveryOrderDoesNotMatter(a: seq<Report>, b: seq<Report>)
    requires a != [] && NoPending(a)
    requires forall r :: r in a <==> r in b
    requires forall r, t | r in a && t in a :: r != t ==> Precedes(r, t) || Precedes(t, r)
    ensures exists r | r in a ::
      (Shows(Delivered(None, a), r) && Shows(Delivered(None, b), r) && forall t | t in a :: t == r || Precedes(t, r))
  {
    var i := RowShowsGreatest(a);
    assert a[0] in b;
    var j := RowShowsGreatest(b);
    assert a[i] in b && b[j] in a;
    assert a[i] == b[j];
  }

  /** A stored report of the order at `key`. */
  predicate Reports(e: Event, key: LinkKey) {
    && e.body.BrokerExecution? && e.body.report.reportId != "" && key.brokerType != "" && key.clientOrderId != ""
    && LinkKey(e.deploymentId, e.body.report.brokerType, e.clientOrderId) == key
  }

  ghost predicate AllReport(events: seq<Event>, key: LinkKey) {
    forall i | 0 <= i < |events| :: Reports(events[i], key)
  }

  function ReportsOf(events: seq<Event>, key: LinkKey): seq<Report>
    requires AllReport(events, key)
  {
    seq(|events|, i requires 0 <= i < |events| => ExecutionReport(events[i]))
  }

  lemma {:induction false} AppendLast(s: Store, events: seq<Event>, e: Event)
    ensures AppendAll(s, events + [e]) == Append(AppendAll(s, events), e)
    decreases |events|
  {
    if events == [] {
      assert [] + [e] == [e];
      assert [e][1..] == [];
      assert AppendAll(s, [e]) == AppendAll(Append(s, e), []);
    } else {
      assert (events + [e])[1..] == events[1..] + [e];
      AppendLast(Append(s, events[0]), events[1..], e);
    }
  }

  /** Storing report events takes the reports one after another at their row. */
  lemma {:induction false} StoreDelivers(s: Store, events: seq<Event>, key: LinkKey)
    requires AllReport(events, key)
    ensures Get(AppendAll(s, events).links, key) == Delivered(Get(s.links, key), ReportsOf(events, key))
    decreases |events|
  {
    if events != [] {
      var n := |events| - 1;
      StoreDelivers(s, events[..n], key);
      LastIsTaken(s, events, key, n);
      LastReport(events, key, n);
    }
  }

  lemma LastReport(events: seq<Event>, key: LinkKey, n: nat)
    requires AllReport(events, key) && |events| == n + 1
    ensures ReportsOf(events, key) == ReportsOf(events[..n], key) + [ExecutionReport(events[n])]
  {
  }

  lemma LastIsTaken(s: Store, events: seq<Event>, key: LinkKey, n: nat)
    requires AllReport(events, key) && |events| == n + 1
    ensures Get(AppendAll(s, events).links, key)
      == Some(TakeReport(Get(AppendAll(s, events[..n]).links, key), ExecutionReport(events[n])))
  {
    assert events == events[..n] + [events[n]];
    AppendLast(s, events[..n], events[n]);
    TakesLast(AppendAll(s, events[..n]), events[n], key);
  }

  lemma TakesLast(s: Store, e: Event, key: LinkKey)
    requires Reports(e, key)
    ensures Get(Append(s, e).links, key) == Some(TakeReport(Get(s.links, key), ExecutionReport(e)))
  {
    AppendAt(s, e, key);
  }

  // ---- the cancel handshake ------------------------------------------------------------

  /** A cancel request for the order at `key`. */
  predicate Requests(q: Event, key: LinkKey) {
    && q.body.BrokerCancelRequested? && q.deploymentId == key.deploymentId
    && q.body.cancel.brokerType == key.brokerType && q.clientOrderId == key.clientOrderId
    && key.brokerType != "" && key.clientOrderId != ""
  }

  /** A broker's refusal to cancel some order of the deployment. */
  predicate IsRefusal(f: Event, key: LinkKey) {
    f.body.BrokerRuntime? && f.deploymentId == key.deploymentId && IsCancelFailed(f.body.runtime)
  }

  /** The store takes the refusal to this order: by the client's id, or by the broker's when only one row has it. */
  ghost predicate Finds(s: Store, f: Event, key: LinkKey)
    requires IsRefusal(f, key)
  {
    Resolve(s.links, f.deploymentId, f.body.runtime) == Some(key)
  }

  function StatusAt(s: Store, key: LinkKey): Option<Status> {
    if key in s.links then Some(s.links[key].status) else None
  }

  /** No refusal stored so far answers request `q`. */
  ghost predicate Unanswered(s: Store, q: Event, key: LinkKey)
    requires Requests(q, key)
  {
    !HasLaterFailure(Stored(s.table, q), key, OrderIdFor(s, q, key), q.ts)
  }

  function OrderIdFor(s: Store, q: Event, key: LinkKey): string
    requires Requests(q, key)
  {
    Or(q.body.cancel.brokerOrderId, if key in s.links then s.links[key].brokerOrderId else "")
  }

  /** A refusal stored after the request settles the row exactly if the store can then tell whose it is. */
  lemma RequestThenRefusal(s: Store, q: Event, f: Event, key: LinkKey)
    requires Requests(q, key) && IsRefusal(f, key) && Unanswered(s, q, key)
    ensures var pending := PendingStatusOf(Get(s.links, key));
      StatusAt(Append(Append(s, q), f), key) == Some(if Finds(Append(s, q), f, key) then Settled(pending) else pending)
  {
    AppendAt(s, q, key);
    AppendAt(Append(s, q), f, key);
  }

  /** The status a cancel request leaves. */
  function PendingStatusOf(row: Option<Link>): Status { MarkPending(row, "", "", "").status }

  /** The refusal answers the request: it is no older and about the same order. */
  ghost predicate Answers(s: Store, q: Event, f: Event, key: LinkKey)
    requires Requests(q, key)
  {
    IsLaterFailure(f, key, OrderIdFor(s, q, key), q.ts) && forall e | e in s.table :: e.id != f.id
  }

  /** A refusal stored first settles the row if the store can already tell whose it is, and keeps the request from
      marking it. */
  lemma RefusalThenRequest(s: Store, q: Event, f: Event, key: LinkKey)
    requires Requests(q, key) && IsRefusal(f, key) && Answers(s, q, f, key)
    ensures StatusAt(Append(Append(s, f), q), key)
      == if key in s.links then Some(if Finds(s, f, key) then Settled(s.links[key].status) else s.links[key].status)
        else None
  {
    var late := Append(s, f);
    AppendAt(s, f, key);
    AppendAt(late, q, key);
    RefusalIsStored(s, f);
    assert OrderIdFor(late, q, key) == OrderIdFor(s, q, key);
    assert IsLaterFailure(f, key, OrderIdFor(late, q, key), q.ts) && f in Stored(late.table, q);
  }

  lemma RefusalIsStored(s: Store, f: Event)
    requires forall e | e in s.table :: e.id != f.id
    ensures f in Append(s, f).table
  {
  }

  /** Marking and settling brings back the status exactly of an order the broker has reported. */
  lemma SettlingUndoesPending(row: Option<Link>)
    ensures Some(Settled(PendingStatusOf(row))) == (if row.Some? then Some(Settled(row.value.status)) else None)
      <==> Rank(StatusOf(row)) >= Rank(Reported)
    ensures Some(Settled(PendingStatusOf(row))) == (if row.Some? then Some(row.value.status) else None)
      <==> Rank(StatusOf(row)) >= Rank(Reported) && !IsCancelPending(StatusOf(row))
  {
  }

  /** Marking alone leaves the status of a finished order, or of one whose cancel is already pending. */
  lemma MarkingKeeps(row: Option<Link>)
    ensures Some(PendingStatusOf(row)) == (if row.Some? then Some(Settled(row.value.status)) else None)
      <==> IsTerminal(StatusOf(row))
    ensures Some(PendingStatusOf(row)) == (if row.Some? then Some(row.value.status) else None)
      <==> IsTerminal(StatusOf(row)) || IsCancelPending(StatusOf(row))
  {
  }

  /** When a refused cancel leaves an order of this status as it was before, whichever of the two is stored first.
      `after` says whether the store can tell whose the refusal is once the request is stored, `before` whether it could
      without. */
  predicate OrderOfArrivalIsMoot(status: Status, before: bool, after: bool) {
    if after then Rank(status) >= Rank(Reported) && (before || !IsCancelPending(status))
    else IsTerminal(status) || (!before && IsCancelPending(status))
  }

  /** A refused cancel leaves the same status whether the refusal is stored after the request or before it, exactly for
      orders the broker has already reported; if the store can tell whose the refusal is only once the request named the
      broker's id, exactly for those of them without a pending cancel; and if it cannot tell even then, exactly for
      finished orders and for those with a pending cancel that it could not settle before either. */
  lemma RefusedCancelEitherOrder(s: Store, q: Event, f: Event, key: LinkKey)
    requires Requests(q, key) && IsRefusal(f, key) && Unanswered(s, q, key) && Answers(s, q, f, key)
    ensures StatusAt(Append(Append(s, q), f), key) == StatusAt(Append(Append(s, f), q), key)
      <==> OrderOfArrivalIsMoot(StatusOf(Get(s.links, key)), Finds(s, f, key), Finds(Append(s, q), f, key))
  {
    RequestThenRefusal(s, q, f, key);
    RefusalThenRequest(s, q, f, key);
    SettlingUndoesPending(Get(s.links, key));
    MarkingKeeps(Get(s.links, key));
  }

  /** A refusal with the client's order id is found in any store, so that only the rank matters. */
  lemma NamedRefusalEitherOrder(s: Store, q: Event, f: Event, key: LinkKey)
    requires Requests(q, key) && IsRefusal(f, key) && Unanswered(s, q, key) && q.ts <= f.ts
    requires f.body.runtime.brokerType == key.brokerType && CallbackClientId(f.body.runtime) == key.clientOrderId
    requires forall e | e in s.table :: e.id != f.id
    ensures StatusAt(Append(Append(s, q), f), key) == StatusAt(Append(Append(s, f), q), key)
      <==> Rank(StatusOf(Get(s.links, key))) >= Rank(Reported)
  {
    assert Finds(s, f, key) && Finds(Append(s, q), f, key) && Answers(s, q, f, key);
    RefusedCancelEitherOrder(s, q, f, key);
  }

  // ---- orders on which the order of arrival shows ----------------------------------------

  const ONE_ORDER := LinkKey("d", "qmt", "c")

  const ONE_REQUEST := Event("q", "d", 1, "c", BrokerCancelRequested(CancelPayload("qmt", "b", "s", "")))

  function OneRefusal(clientOrderId: string, brokerOrderId: string): Event {
    Event("f", "d", 2, "", BrokerRuntime(
      RuntimePayload("qmt", CancelErrorKind, clientOrderId, "", brokerOrderId, "", "", "", "", false, "", "")))
  }

  /** An order the broker has not reported: the request and then its refusal leave it reported, the other way around
      unknown. */
  lemma UnreportedOrderDiffers()
    ensures var s, f := Store([], map[]), OneRefusal("c", "");
      && StatusAt(Append(Append(s, ONE_REQUEST), f), ONE_ORDER) == Some(Reported)
      && StatusAt(Append(Append(s, f), ONE_REQUEST), ONE_ORDER) == None
  {
    RequestFirst(ONE_REQUEST, OneRefusal("c", ""), ONE_ORDER);
    RefusalFirst(ONE_REQUEST, OneRefusal("c", ""), ONE_ORDER);
  }

  lemma RequestFirst(q: Event, f: Event, key: LinkKey)
    requires Requests(q, key) && IsRefusal(f, key)
    requires f.body.runtime.brokerType == key.brokerType && CallbackClientId(f.body.runtime) == key.clientOrderId
    ensures StatusAt(Append(Append(Store([], map[]), q), f), key) == Some(Reported)
  {
    var s := Store([], map[]);
    assert Finds(Append(s, q), f, key);
    RequestThenRefusal(s, q, f, key);
  }

  lemma RefusalFirst(q: Event, f: Event, key: LinkKey)
    requires Requests(q, key) && IsRefusal(f, key) && q.ts <= f.ts
    requires f.body.runtime.brokerType == key.brokerType && CallbackClientId(f.body.runtime) == key.clientOrderId
    ensures StatusAt(Append(Append(Store([], map[]), f), q), key) == None
  {
    RefusalThenRequest(Store([], map[]), q, f, key);
  }

  /** A pending cancel of an order whose broker id the store does not know yet: a refusal by that id alone settles it
      when the request that names the id came first, and is lost when it did not. */
  lemma LateNamedOrderDiffers()
    ensures var s := Store([], map[ONE_ORDER := Link("", "s", "", NoReport, ReportedCancelPending, None)]);
      var f := OneRefusal("", "b");
      && StatusAt(Append(Append(s, ONE_REQUEST), f), ONE_ORDER) == Some(Reported)
      && StatusAt(Append(Append(s, f), ONE_REQUEST), ONE_ORDER) == Some(ReportedCancelPending)
  {
    var s := Store([], map[ONE_ORDER := Link("", "s", "", NoReport, ReportedCancelPending, None)]);
    var f, after := OneRefusal("", "b"), Append(s, ONE_REQUEST);
    AppendAt(s, ONE_REQUEST, ONE_ORDER);
    assert after.links == map[ONE_ORDER := Link("b", "s", "", NoReport, ReportedCancelPending, None)];
    OnlyRowIsFound(after.links, ONE_ORDER, f.body.runtime);
    assert KeysOfBrokerOrder(s.links, "d", "qmt", "b", "") == {};
    RequestThenRefusal(s, ONE_REQUEST, f, ONE_ORDER);
    RefusalThenRequest(s, ONE_REQUEST, f, ONE_ORDER);
  }

  lemma OnlyRowIsFound(links: map<LinkKey, Link>, key: LinkKey, r: RuntimePayload)
    requires links.Keys == {key} && r.brokerType == key.brokerType != "" && CallbackClientId(r) == ""
    requires CancelOrderId(r) == links[key].brokerOrderId != "" && r.accountId == ""
    ensures Resolve(links, key.deploymentId, r) == Some(key)
  {
    assert KeysOfBrokerOrder(links, key.deploymentId, r.brokerType, CancelOrderId(r), r.accountId) == {key};
  }

  const TWIN_ORDER := LinkKey("d", "qmt", "twin")

  /** Two reported orders that share a broker id: a refusal by that id alone is ambiguous in either order of arrival.
      After the request it settles nothing, and the cancel stays pending; before it, it still keeps the request from
      marking the order. */
  lemma SharedIdDiffers()
    ensures var row := Link("b", "s", "", NoReport, Reported, None);
      var s, f := Store([], map[ONE_ORDER := row, TWIN_ORDER := row]), OneRefusal("", "b");
      && StatusAt(Append(Append(s, ONE_REQUEST), f), ONE_ORDER) == Some(ReportedCancelPending)
      && StatusAt(Append(Append(s, f), ONE_REQUEST), ONE_ORDER) == Some(Reported)
  {
    var row := Link("b", "s", "", NoReport, Reported, None);
    var s, f := Store([], map[ONE_ORDER := row, TWIN_ORDER := row]), OneRefusal("", "b");
    AmbiguousTwice(s, f);
    UntoldEitherOrder(s, ONE_REQUEST, f, ONE_ORDER);
  }

  /** The two ends at a reported order when the store cannot tell whose the refusal is. */
  lemma UntoldEitherOrder(s: Store, q: Event, f: Event, key: LinkKey)
    requires Requests(q, key) && IsRefusal(f, key) && Unanswered(s, q, key) && Answers(s, q, f, key)
    requires StatusAt(s, key) == Some(Reported) && !Finds(s, f, key) && !Finds(Append(s, q), f, key)
    ensures StatusAt(Append(Append(s, q), f), key) == Some(ReportedCancelPending)
    ensures StatusAt(Append(Append(s, f), q), key) == Some(Reported)
  {
    RequestThenRefusal(s, q, f, key);
    RefusalThenRequest(s, q, f, key);
  }

  lemma AmbiguousTwice(s: Store, f: Event)
    requires s.table == [] && f == OneRefusal("", "b") && ONE_ORDER in s.links && TWIN_ORDER in s.links
    requires s.links[ONE_ORDER].brokerOrderId == s.links[TWIN_ORDER].brokerOrderId == "b"
    ensures Resolve(s.links, "d", f.body.runtime) == Resolve(Append(s, ONE_REQUEST).links, "d", f.body.runtime) == None
  {
    AppendAt(s, ONE_REQUEST, ONE_ORDER);
    AppendAt(s, ONE_REQUEST, TWIN_ORDER);
    TwoRowsAreAmbiguous(s.links, f.body.runtime);
    TwoRowsAreAmbiguous(Append(s, ONE_REQUEST).links, f.body.runtime);
  }

  lemma TwoRowsAreAmbiguous(links: map<LinkKey, Link>, r: RuntimePayload)
    requires ONE_ORDER in links && TWIN_ORDER in links && r.brokerType == "qmt"
    requires CallbackClientId(r) == "" && r.accountId == "" && CancelOrderId(r) == "b"
    requires links[ONE_ORDER].brokerOrderId == links[TWIN_ORDER].brokerOrderId == "b"
    ensures Resolve(links, "d", r) == None
  {
    var keys := KeysOfBrokerOrder(links, "d", "qmt", "b", "");
    assert ONE_ORDER in keys && TWIN_ORDER in keys;
    assert TWIN_ORDER in keys - {ONE_ORDER};
    assert |keys| == 1 + |keys - {ONE_ORDER}|;
  }
}
