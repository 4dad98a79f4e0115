/** What a row of the link table knows of its order: the broker's id, the symbol and the account, and whom that lets a
    callback find (ez/live/_broker_order_links.py). */
module LinkNames {
  import opened BrokerStatus
  import opened Events
  import opened Options
  import opened OrderLinks
  import opened LinkRuns

  /** What an event or a row says of an order; blank where it says nothing. */
  datatype Names = Names(brokerOrderId: string, symbol: string, accountId: string)

  const NOTHING := Names("", "", "")

  function NamesIn(row: Option<Link>): Names {
    match row
    case None => NOTHING
    case Some(link) => Names(link.brokerOrderId, link.symbol, link.accountId)
  }

  // ---- what an event tells ---------------------------------------------------------------

  /** The client's id as a callback gives it. */
  function ClientIdIn(r: RuntimePayload): string { if r.clientOrderId != "" then r.clientOrderId else r.orderRemark }

  /** The broker's order id as a callback gives it. */
  function OrderIdIn(r: RuntimePayload): string {
    if r.orderSysid != "" then r.orderSysid else if r.brokerOrderId != "" then r.brokerOrderId else r.orderId
  }

  predicate SaysAccepted(r: RuntimePayload) {
    r.kind.CancelAsyncResponse? && r.cancelResultOk && r.errorMsg == "" && r.statusMsg == ""
  }

  predicate SaysRefused(r: RuntimePayload) {
    r.kind.CancelErrorKind? || (r.kind.CancelAsyncResponse? && !SaysAccepted(r))
  }

  /** The acknowledgement, with the client's id, of the order at `key`. */
  predicate Acknowledges(e: Event, key: LinkKey) {
    && e.body.BrokerRuntime? && e.body.runtime.kind.OrderAsyncResponse?
    && (e.body.runtime.orderId != "" || e.body.runtime.orderSysid != "")
    && key.brokerType != "" && key.clientOrderId != ""
    && key == LinkKey(e.deploymentId, e.body.runtime.brokerType, ClientIdIn(e.body.runtime))
  }

  /** The broker's acceptance of a cancel that the store takes to this order. */
  ghost predicate Accepts(s: Store, e: Event, key: LinkKey) {
    && e.body.BrokerRuntime? && SaysAccepted(e.body.runtime) && OrderIdIn(e.body.runtime) != ""
    && Resolve(s.links, e.deploymentId, e.body.runtime) == Some(key)
  }

  /** The broker refused to cancel, no earlier than it was asked, the order that the request is about: as the client's
      id says, or the broker's. */
  predicate Refuses(f: Event, q: Event, key: LinkKey, id: string) {
    && f.deploymentId == key.deploymentId && f.body.BrokerRuntime? && f.body.runtime.brokerType == key.brokerType
    && SaysRefused(f.body.runtime) && f.ts >= q.ts
    && (|| (if ClientIdIn(f.body.runtime) != "" then ClientIdIn(f.body.runtime) else f.clientOrderId)
             == key.clientOrderId
        || (id != "" && OrderIdIn(f.body.runtime) == id))
  }

  /** No refusal of the request is stored. */
  ghost predicate NotRefused(s: Store, q: Event, key: LinkKey)
    requires Requests(q, key)
  {
    forall f | f in s.table :: !Refuses(f, q, key, OrderIdFor(s, q, key))
  }

  lemma UnansweredExactly(s: Store, q: Event, key: LinkKey)
    requires Requests(q, key)
    ensures Unanswered(s, q, key) <==> NotRefused(s, q, key)
  {
    var id := OrderIdFor(s, q, key);
    forall f ensures IsLaterFailure(f, key, id, q.ts) <==> Refuses(f, q, key, id) { }
    forall f | f in Stored(s.table, q) && f !in s.table ensures !Refuses(f, q, key, id) { assert f == q; }
    forall f | f in s.table ensures f in Stored(s.table, q) { }
  }

  /** A cancel can still be marked: the order is not finished. */
  predicate Open(row: Option<Link>) { !IsTerminal(StatusOf(row)) }

  /** What the event tells of the order at `key`, as the store takes it. */
  ghost function Told(s: Store, e: Event, key: LinkKey): Names {
    if Reports(e, key) then Names(e.body.report.brokerOrderId, e.body.report.symbol, e.body.report.accountId)
    else if Acknowledges(e, key) then
      Names(Or(e.body.runtime.orderSysid, e.body.runtime.orderId), e.body.runtime.stockCode, e.body.runtime.accountId)
    else if Requests(e, key) && NotRefused(s, e, key) && Open(Get(s.links, key)) then
      Names(e.body.cancel.brokerOrderId, e.body.cancel.symbol, e.body.cancel.accountId)
    else if Accepts(s, e, key) && Open(Get(s.links, key)) then
      Names(OrderIdIn(e.body.runtime), e.body.runtime.stockCode, e.body.runtime.accountId)
    else NOTHING
  }

  /** The later of two sayings where it says something. */
  function Corrected(before: Names, told: Names): Names {
    Names(if told.brokerOrderId != "" then told.brokerOrderId else before.brokerOrderId,
          if told.symbol != "" then told.symbol else before.symbol,
          if told.accountId != "" then told.accountId else before.accountId)
  }

  lemma ReportCorrects(before: Option<Link>, r: Report)
    ensures NamesIn(Some(TakeReport(before, r)))
      == Corrected(NamesIn(before), Names(r.brokerOrderId, r.symbol, r.accountId))
  {
  }

  lemma MarkCorrects(before: Option<Link>, told: Names)
    ensures NamesIn(Some(MarkPending(before, told.brokerOrderId, told.symbol, told.accountId)))
      == Corrected(NamesIn(before), if Open(before) then told else NOTHING)
  {
  }

  /** What the event does to the row and what it tells go together. */
  lemma EffectTells(s: Store, e: Event, key: LinkKey)
    ensures var effect := Effect(Stored(s.table, e), s.links, e);
      if effect.None? || effect.value.0 != key || effect.value.1.GotCancelFailure? then Told(s, e, key) == NOTHING
      else match effect.value.1
        case GotReport(r) => Told(s, e, key) == Names(r.brokerOrderId, r.symbol, r.accountId)
        case GotPending(id, symbol, account) =>
          Told(s, e, key) == if Open(Get(s.links, key)) then Names(id, symbol, account) else NOTHING
        case GotCancelFailure => true
  {
    if Requests(e, key) { UnansweredExactly(s, e, key); }
  }

  /** An event corrects what the row knows by what it tells, late or not. */
  lemma RowIsCorrected(s: Store, e: Event, key: LinkKey)
    ensures NamesIn(Get(Append(s, e).links, key)) == Corrected(NamesIn(Get(s.links, key)), Told(s, e, key))
  {
    var before, effect := Get(s.links, key), Effect(Stored(s.table, e), s.links, e);
    AppendAt(s, e, key);
    EffectTells(s, e, key);
    if effect.Some? && effect.value.0 == key {
      match effect.value.1
      case GotReport(r) => ReportCorrects(before, r);
      case GotPending(id, symbol, account) => MarkCorrects(before, Names(id, symbol, account));
      case GotCancelFailure =>
    }
  }

  /** The last that the events say of the order, beside what was known before. */
  ghost function LastTold(s: Store, events: seq<Event>, key: LinkKey, known: Names): Names
    decreases |events|
  {
    if events == [] then known
    else LastTold(Append(s, events[0]), events[1..], key, Corrected(known, Told(s, events[0], key)))
  }

  /** Over any run a row knows the last broker id, the last symbol and the last account that were told of its order. */
  lemma {:induction false} RowKnowsLastTold(s: Store, events: seq<Event>, key: LinkKey)
    ensures NamesIn(Get(AppendAll(s, events).links, key)) == LastTold(s, events, key, NamesIn(Get(s.links, key)))
    decreases |events|
  {
    if events != [] {
      RowIsCorrected(s, events[0], key);
      RowKnowsLastTold(Append(s, events[0]), events[1..], key);
    }
  }

  // ---- what a report does to the report that is shown ----------------------------------------

  /** The report is further than the status, or as far and not older than the one that is shown; or it says again that
      an order is reported whose cancel is pending. */
  predicate IsTaken(before: Option<Link>, status: Status, ts: int) {
    match before
    case None => true
    case Some(row) =>
      || Rank(row.status) < Rank(status)
      || (Rank(row.status) == Rank(status) && (row.reportTs.None? || row.reportTs.value <= ts))
      || (row.status == ReportedCancelPending && status == Reported)
  }

  /** What a stored report makes of status, report and time: nothing when it is late; a pending cancel survives a
      partial fill and a repeated acknowledgement. */
  lemma ReportIsShown(s: Store, e: Event, key: LinkKey)
    requires Reports(e, key)
    ensures var before, after, r := Get(s.links, key), Get(Append(s, e).links, key), e.body.report;
      var pending := before.Some? && before.value.status in {ReportedCancelPending, PartiallyFilledCancelPending};
      var status := if pending && r.status == PartiallyFilled then PartiallyFilledCancelPending else r.status;
      && after.Some?
      && (if IsTaken(before, status, e.ts) then
            && after.value.reportId == ReportId(r.reportId) && after.value.reportTs == Some(e.ts)
            && after.value.status
                 == (if before.Some? && before.value.status == ReportedCancelPending && status == Reported
                     then ReportedCancelPending else status)
          else
            && after.value.status == before.value.status && after.value.reportTs == before.value.reportTs
            && (before.value.reportId != ReportId("") ==> after.value.reportId == before.value.reportId))
  {
    AppendAt(s, e, key);
  }

  // ---- what an event does to the status ----------------------------------------------------

  /** The status a cancel leaves that is still open. */
  function Marked(status: Status): Status {
    if IsTerminal(status) then status
    else if status == PartiallyFilled || status == PartiallyFilledCancelPending then PartiallyFilledCancelPending
    else ReportedCancelPending
  }

  /** An acknowledgement makes an order of a lower rank reported, known or not, and leaves any other. */
  lemma AcknowledgedIsReported(s: Store, e: Event, key: LinkKey)
    requires Acknowledges(e, key)
    ensures var status := StatusOf(Get(s.links, key));
      StatusAt(Append(s, e), key) == Some(if Rank(status) < Rank(Reported) then Reported else status)
  {
    AppendAt(s, e, key);
  }

  /** A cancel request that no stored refusal answers, and the broker's acceptance of one, mark the order pending. */
  lemma CancelIsMarked(s: Store, e: Event, key: LinkKey)
    requires (Requests(e, key) && NotRefused(s, e, key)) || Accepts(s, e, key)
    ensures StatusAt(Append(s, e), key) == Some(Marked(StatusOf(Get(s.links, key))))
  {
    AppendAt(s, e, key);
    if Requests(e, key) { UnansweredExactly(s, e, key); }
  }

  // ---- what the table holds ------------------------------------------------------------------

  /** No id twice. */
  ghost predicate OnceEach(table: seq<Event>) { forall i, j | 0 <= i < j < |table| :: table[i].id != table[j].id }

  /** This event is the first of the list with its id. */
  predicate IsFirst(events: seq<Event>, e: Event, i: nat) {
    i < |events| && events[i] == e && forall j | 0 <= j < i :: events[j].id != e.id
  }

  ghost predicate Holds(table: seq<Event>, id: string) { exists f :: f in table && f.id == id }

  ghost predicate IsSomeFirst(events: seq<Event>, e: Event) { exists i: nat :: IsFirst(events, e, i) }

  /** The table keeps what it had, and of each new id the first event, once. */
  ghost predicate KeepsFirsts(before: seq<Event>, events: seq<Event>, table: seq<Event>) {
    && OnceEach(table) && before <= table && (forall e | e in events :: Holds(table, e.id))
    && (forall k | |before| <= k < |table| :: IsSomeFirst(events, table[k]))
  }

  /** Whatever is delivered and however often, the table holds every id once, by the first event with it. */
  lemma {:induction false} TableKeepsFirsts(s: Store, events: seq<Event>)
    requires OnceEach(s.table)
    ensures KeepsFirsts(s.table, events, AppendAll(s, events).table)
    decreases |events|
  {
    if events != [] {
      var next := Append(s, events[0]);
      EventIsStored(s, events[0]);
      TableKeepsFirsts(next, events[1..]);
      KeepsOneMore(s.table, events, next.table, AppendAll(s, events).table);
    }
  }

  lemma EventIsStored(s: Store, e: Event)
    requires OnceEach(s.table)
    ensures var table := Append(s, e).table;
      OnceEach(table) && (table == s.table || table == s.table + [e]) && Holds(table, e.id)
  {
    var table := Append(s, e).table;
    assert table == Stored(s.table, e);
    if table == s.table + [e] { assert e in table; }
  }

  lemma KeepsOneMore(before: seq<Event>, events: seq<Event>, next: seq<Event>, table: seq<Event>)
    requires events != [] && (next == before || next == before + [events[0]]) && Holds(next, events[0].id)
    requires KeepsFirsts(next, events[1..], table)
    ensures KeepsFirsts(before, events, table)
  {
    forall e | e in events ensures Holds(table, e.id) {
      if e == events[0] { StaysHeld(next, table, e.id); }
    }
    forall k | |before| <= k < |table| ensures IsSomeFirst(events, table[k]) {
      if k < |next| {
        assert table[k] == next[k] == events[0];
        assert IsFirst(events, table[k], 0);
      } else {
        FirstOfLater(events, next, table, k);
      }
    }
  }

  lemma StaysHeld(next: seq<Event>, table: seq<Event>, id: string)
    requires next <= table && Holds(next, id)
    ensures Holds(table, id)
  {
    var f :| f in next && f.id == id;
    assert f in table;
  }

  lemma FirstOfLater(events: seq<Event>, next: seq<Event>, table: seq<Event>, k: nat)
    requires events != [] && next <= table && |next| <= k < |table| && OnceEach(table) && Holds(next, events[0].id)
    requires IsSomeFirst(events[1..], table[k])
    ensures IsSomeFirst(events, table[k])
  {
    var i: nat :| IsFirst(events[1..], table[k], i);
    var f :| f in next && f.id == events[0].id;
    var j: nat :| j < |next| && next[j] == f;
    assert table[j] == next[j];
    assert IsFirst(events, table[k], i + 1);
  }

  // ---- the count of updates ------------------------------------------------------------------

  function KeyOf(deploymentId: string, r: Report): LinkKey { LinkKey(deploymentId, r.brokerType, r.clientOrderId) }

  /** The row of the order after the reports. */
  function RowAfter(links: map<LinkKey, Link>, deploymentId: string, reports: seq<Report>, r: Report): Option<Link> {
    Get(TakeReports(links, deploymentId, reports), KeyOf(deploymentId, r))
  }

  /** The last of the reports created a row or changed the report that one shows. */
  predicate IsUpdate(links: map<LinkKey, Link>, deploymentId: string, reports: seq<Report>)
    requires reports != []
  {
    var before, r := reports[..|reports| - 1], reports[|reports| - 1];
    var last, row := RowAfter(links, deploymentId, before, r), RowAfter(links, deploymentId, reports, r);
    r.clientOrderId != "" && (last.None? || (row.Some? && Stated(last.value.reportId) != Stated(row.value.reportId)))
  }

  lemma StatedOnce(before: Option<Link>, r: Report)
    ensures Stated(TakeReport(before, r).reportId) == TakeReport(before, r).reportId
  {
  }

  lemma {:induction false} ReportsOfBoth(links: map<LinkKey, Link>, deploymentId: string, a: seq<Report>,
                                         b: seq<Report>)
    ensures TakeReports(links, deploymentId, a + b)
      == TakeReports(TakeReports(links, deploymentId, a), deploymentId, b)
    ensures Updates(links, deploymentId, a + b)
      == Updates(links, deploymentId, a) + Updates(TakeReports(links, deploymentId, a), deploymentId, b)
    decreases |a|
  {
    if a == [] {
      assert a + b == b;
    } else {
      var r := a[0];
      assert (a + b)[0] == r && (a + b)[1..] == a[1..] + b;
      var next := if r.clientOrderId == "" then links
        else links[KeyOf(deploymentId, r) := TakeReport(Get(links, KeyOf(deploymentId, r)), r)];
      ReportsOfBoth(next, deploymentId, a[1..], b);
    }
  }

  lemma OneReport(links: map<LinkKey, Link>, deploymentId: string, r: Report)
    ensures var key := KeyOf(deploymentId, r);
      && TakeReports(links, deploymentId, [r])
           == (if r.clientOrderId == "" then links else links[key := TakeReport(Get(links, key), r)])
      && Updates(links, deploymentId, [r])
           == if r.clientOrderId != ""
                && (key !in links || Stated(links[key].reportId) != TakeReport(Get(links, key), r).reportId) then 1
              else 0
  {
    assert [r][1..] == [];
  }

  /** Storing reports counts each that creates a row or changes the report that a row shows, and no other. */
  lemma UpdatesAreCounted(links: map<LinkKey, Link>, deploymentId: string, reports: seq<Report>)
    ensures Updates(links, deploymentId, []) == 0
    ensures reports != [] ==>
      Updates(links, deploymentId, reports)
        == Updates(links, deploymentId, reports[..|reports| - 1])
           + if IsUpdate(links, deploymentId, reports) then 1 else 0
  {
    if reports != [] {
      var before, r := reports[..|reports| - 1], reports[|reports| - 1];
      var now := TakeReports(links, deploymentId, before);
      assert reports == before + [r];
      ReportsOfBoth(links, deploymentId, before, [r]);
      OneReport(now, deploymentId, r);
      StatedOnce(Get(now, KeyOf(deploymentId, r)), r);
    }
  }

  /** The status when a pending cancel is off. */
  function TakenBack(status: Status): Status {
    if status == ReportedCancelPending then Reported
    else if status == PartiallyFilledCancelPending then PartiallyFilled
    else status
  }

  lemma FoundRefusalSettles(s: Store, f: Event, key: LinkKey)
    requires f.body.BrokerRuntime? && SaysRefused(f.body.runtime)
    requires Resolve(s.links, f.deploymentId, f.body.runtime) == Some(key)
    ensures StatusAt(Append(s, f), key)
      == if key in s.links then Some(TakenBack(s.links[key].status)) else None
  {
    AppendAt(s, f, key);
  }

  /** A refusal with the client's id takes the pending cancel of that order back, and leaves an unknown order
      unknown. */
  lemma NamedRefusalSettles(s: Store, f: Event, key: LinkKey)
    requires f.body.BrokerRuntime? && SaysRefused(f.body.runtime) && key.brokerType != "" && key.clientOrderId != ""
    requires key == LinkKey(f.deploymentId, f.body.runtime.brokerType, ClientIdIn(f.body.runtime))
    ensures StatusAt(Append(s, f), key)
      == if key in s.links then Some(TakenBack(s.links[key].status)) else None
  {
    FoundRefusalSettles(s, f, key);
  }

  // ---- whom a callback finds -----------------------------------------------------------------

  /** A callback about this broker order id alone. */
  predicate NamesOnly(f: Event, key: LinkKey, id: string) {
    && f.body.BrokerRuntime? && f.deploymentId == key.deploymentId && f.body.runtime.brokerType == key.brokerType != ""
    && ClientIdIn(f.body.runtime) == "" && OrderIdIn(f.body.runtime) == id != ""
  }

  /** Another row of the broker carries this id, for this account or for none. */
  ghost predicate Shared(s: Store, key: LinkKey, id: string, account: string) {
    exists k ::
      && k in s.links && k != key && k.deploymentId == key.deploymentId && k.brokerType == key.brokerType
      && s.links[k].brokerOrderId == id
      && (account == "" || s.links[k].accountId == account || s.links[k].accountId == "")
  }

  /** The row carries this id, for this account or for none. */
  predicate Carries(row: Option<Link>, id: string, account: string) {
    row.Some? && row.value.brokerOrderId == id && (account == "" || row.value.accountId in {account, ""})
  }

  /** The row of an id that no other carries is found by it. */
  lemma UnsharedIsFound(s: Store, f: Event, key: LinkKey, id: string)
    requires NamesOnly(f, key, id) && Carries(Get(s.links, key), id, f.body.runtime.accountId)
    requires !Shared(s, key, id, f.body.runtime.accountId)
    ensures Resolve(s.links, f.deploymentId, f.body.runtime) == Some(key)
  {
    var r := f.body.runtime;
    var keys := KeysOfBrokerOrder(s.links, f.deploymentId, r.brokerType, id, r.accountId);
    forall k ensures k in keys <==> k == key { }
    assert keys == {key};
  }

  /** Once the events have last told an order's broker id, a refusal by that id alone settles its pending cancel, unless
      another order of the broker and account carries the id too. */
  lemma ToldIdIsFound(s: Store, events: seq<Event>, f: Event, key: LinkKey, told: Names)
    requires told == LastTold(s, events, key, NamesIn(Get(s.links, key)))
    requires f.body.BrokerRuntime? && SaysRefused(f.body.runtime)
    requires NamesOnly(f, key, told.brokerOrderId)
    requires f.body.runtime.accountId == "" || told.accountId in {f.body.runtime.accountId, ""}
    requires !Shared(AppendAll(s, events), key, told.brokerOrderId, f.body.runtime.accountId)
    ensures var now := AppendAll(s, events);
      key in now.links && StatusAt(Append(now, f), key) == Some(TakenBack(now.links[key].status))
  {
    var now := AppendAll(s, events);
    RowKnowsLastTold(s, events, key);
    UnsharedIsFound(now, f, key, told.brokerOrderId);
    FoundRefusalSettles(now, f, key);
  }
}
