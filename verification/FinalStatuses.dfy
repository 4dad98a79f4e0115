/** Where the two projections of a log end when the broker sends more than one final report of an order: the ledger
    (ez/live/events.py) holds on to the first in replay order, the link row (ez/live/_broker_order_links.py) to the
    latest by timestamp. */
module FinalStatuses {
  import opened BrokerStatus
  import opened Events
  import opened Options
  import opened Ledger
  import opened OrderLinks
  import opened Projections
  import LedgerReplay
  import LinkRuns
  import Sorting

  function StatusIn(e: Event): Status { if e.body.BrokerExecution? then e.body.report.status else Unknown }

  // ---- ledger side ---------------------------------------------------------------------

  /** A final report that the ledger files under `k`. */
  predicate Final(e: Event, k: string)
  {
    e.body.BrokerExecution? && IsTerminal(e.body.report.status) && LedgerKey(e) == k
  }

  function LedgerStatus(a: Account, k: string): Option<Status> {
    if k in a.brokerOrders then Some(a.brokerOrders[k].status) else None
  }

  predicate Ended(s: Option<Status>) { s.Some? && IsTerminal(s.value) }

  /** Where the ledger ends from here, if it ends at all. */
  function EndFrom(s: Option<Status>, events: seq<Event>, k: string): Option<Status>
    decreases |events|
  {
    if events == [] then s
    else EndFrom(if Final(events[0], k) then AfterFinal(s, StatusIn(events[0])) else s, events[1..], k)
  }

  /** The first final status stays, but for a partial cancel that a cancel completes. */
  function AfterFinal(s: Option<Status>, incoming: Status): Option<Status> {
    if s.None? || (s.value.PartiallyCanceled? && incoming.Canceled?) then Some(incoming) else s
  }

  function OnlyEnded(s: Option<Status>): Option<Status> { if Ended(s) then s else None }

  lemma LedgerTakes(a: Account, e: Event, k: string)
    requires k != ""
    ensures var before := OnlyEnded(LedgerStatus(a, k));
      OnlyEnded(LedgerStatus(Apply(a, e), k)) == if Final(e, k) then AfterFinal(before, StatusIn(e)) else before
  {
    match e.body
    case BrokerExecution(r) =>
      AdvanceEnds(a.brokerOrders, LedgerKey(e), e.clientOrderId, e,
        Observation(r.status, r.reportId, r.filledShares, r.remainingShares, r.avgPrice), k);
    case BrokerCancelRequested(c) => RequestEnds(a.brokerOrders, LedgerKey(e), e, k);
    case _ =>
  }

  function StatusUnder(orders: map<string, BrokerOrder>, k: string): Option<Status> {
    if k in orders then Some(orders[k].status) else None
  }

  lemma AdvanceEnds(orders: map<string, BrokerOrder>, at: string, clientOrderId: string, e: Event, o: Observation,
                    k: string)
    requires k != ""
    ensures var before := OnlyEnded(StatusUnder(orders, k));
      OnlyEnded(StatusUnder(AdvanceBroker(orders, at, clientOrderId, e, o), k))
        == if at == k && IsTerminal(o.status) then AfterFinal(before, o.status) else before
  {
  }

  lemma RequestEnds(orders: map<string, BrokerOrder>, at: string, e: Event, k: string)
    requires k != ""
    ensures OnlyEnded(StatusUnder(RequestCancel(orders, at, e), k)) == OnlyEnded(StatusUnder(orders, k))
  {
    AdvanceEnds(orders, at, e.clientOrderId, e, Observation(PendingStatus(Ledger.Get(orders, at)), "", 0, 0, 0.0), k);
  }

  lemma {:induction false} LedgerEnds(a: Account, events: seq<Event>, k: string)
    requires k != ""
    ensures OnlyEnded(LedgerStatus(Fold(a, events), k)) == EndFrom(OnlyEnded(LedgerStatus(a, k)), events, k)
    decreases |events|
  {
    if events != [] {
      LedgerTakes(a, events[0], k);
      LedgerEnds(Apply(a, events[0]), events[1..], k);
    }
  }

  /** The first final report in replay order. */
  ghost predicate IsFirstFinal(e: Event, events: seq<Event>, k: string) {
    e in events && Final(e, k) && forall f | f in events && Final(f, k) :: f == e || KeyLess(e, f)
  }

  /** What the ledger makes of its first final status. */
  ghost function Completed(first: Status, events: seq<Event>, k: string): Status {
    if first.PartiallyCanceled? && exists f :: f in events && Final(f, k) && StatusIn(f).Canceled? then Canceled
      else first
  }

  lemma {:induction false} EndedStays(s: Status, events: seq<Event>, k: string)
    requires IsTerminal(s)
    ensures EndFrom(Some(s), events, k) == Some(Completed(s, events, k))
    decreases |events|
  {
    if events != [] {
      var e, rest := events[0], events[1..];
      assert events == [e] + rest;
      var next := if Final(e, k) then AfterFinal(Some(s), StatusIn(e)) else Some(s);
      EndedStays(next.value, rest, k);
    }
  }

  lemma {:induction false} FirstDecides(events: seq<Event>, k: string, e: Event)
    requires Sorting.StrictlySorted(events, KeyLess) && IsFirstFinal(e, events, k)
    ensures EndFrom(None, events, k) == Some(Completed(StatusIn(e), events, k))
  {
    var head, rest := events[0], events[1..];
    assert events == [head] + rest;
    if head == e {
      EndedStays(StatusIn(e), rest, k);
    } else {
      assert !Final(head, k) by { EarlierIsNotFinal(events, k, e); }
      FirstDecides(rest, k, e);
    }
  }

  lemma EarlierIsNotFinal(events: seq<Event>, k: string, e: Event)
    requires Sorting.StrictlySorted(events, KeyLess) && IsFirstFinal(e, events, k) && events[0] != e
    ensures !Final(events[0], k)
  {
    KeyLessIsWeakOrder();
    var i :| 0 <= i < |events| && events[i] == e;
    assert KeyLess(events[0], e);
  }

  lemma {:induction false} NothingEnds(s: Option<Status>, events: seq<Event>, k: string)
    requires forall e | e in events :: !Final(e, k)
    ensures EndFrom(s, events, k) == s
  {
    if events != [] {
      assert events[0] in events;
      NothingEnds(s, events[1..], k);
    }
  }

  /** Whatever else is in the log, in any order and with any repetition: without a final report the order is not
      finished, and otherwise it ends at the first one in replay order, a partial cancel completed by a cancel. */
  lemma LedgerKeepsFirstFinal(log: seq<Event>, k: string, cash: real, holdings: map<string, int>)
    requires LedgerReplay.IdsIdentify(log) && k != ""
    ensures (forall e | e in log :: !Final(e, k)) ==> !Ended(LedgerStatus(Replay(log, cash, holdings), k))
    ensures forall e | IsFirstFinal(e, log, k) ::
      LedgerStatus(Replay(log, cash, holdings), k) == Some(Completed(StatusIn(e), log, k))
  {
    var normal := Dedup(Sorting.Sort(log, KeyLess), {});
    LedgerReplay.NormalLog(log);
    LedgerEnds(Opening(cash, holdings), normal, k);
    NormalEnds(log, normal, k);
  }

  lemma NormalEnds(log: seq<Event>, normal: seq<Event>, k: string)
    requires Sorting.StrictlySorted(normal, KeyLess) && forall e :: e in normal <==> e in log
    ensures (forall e | e in log :: !Final(e, k)) ==> EndFrom(None, normal, k) == None
    ensures forall e | IsFirstFinal(e, log, k) :: EndFrom(None, normal, k) == Some(Completed(StatusIn(e), log, k))
  {
    if forall e | e in log :: !Final(e, k) { NothingEnds(None, normal, k); }
    forall e | IsFirstFinal(e, log, k) ensures EndFrom(None, normal, k) == Some(Completed(StatusIn(e), log, k)) {
      FirstDecides(normal, k, e);
      assert Completed(StatusIn(e), normal, k) == Completed(StatusIn(e), log, k);
    }
  }

  // ---- store side ----------------------------------------------------------------------

  /** A final report that the store takes to the row at `key`. */
  predicate FinalAt(e: Event, key: LinkKey) { Touches(e, key) && IsTerminal(StatusIn(e)) }

  /** The final report with the greatest timestamp, the last to arrive among ties. */
  function LatestFinal(delivered: seq<Event>, key: LinkKey): Option<Event> {
    if delivered == [] then None
    else
      var n := |delivered| - 1;
      var before := LatestFinal(delivered[..n], key);
      if FinalAt(delivered[n], key) && (before.None? || delivered[n].ts >= before.value.ts) then Some(delivered[n])
        else before
  }

  /** The row shows this final report, or is not finished. */
  predicate ShowsFinal(row: Option<Link>, latest: Option<Event>) {
    if latest.None? then !IsTerminal(StatusOf(row))
    else
      && row.Some? && row.value.status == StatusIn(latest.value) && IsTerminal(row.value.status)
      && row.value.reportTs == Some(latest.value.ts)
  }

  lemma StepShowsFinal(row: Option<Link>, op: Op, latest: Option<Event>)
    requires ShowsFinal(row, latest)
    ensures !(op.GotReport? && IsTerminal(op.report.status)) ==> ShowsFinal(Step(row, op), latest)
    ensures op.GotReport? && IsTerminal(op.report.status) ==>
      Step(row, op).value.status == (if latest.None? || op.report.ts >= latest.value.ts then op.report.status
                                     else row.value.status)
      && Step(row, op).value.reportTs == (if latest.None? || op.report.ts >= latest.value.ts then Some(op.report.ts)
                                          else row.value.reportTs)
  {
  }

  lemma FinalEffect(table: seq<Event>, links: map<LinkKey, Link>, e: Event, key: LinkKey)
    requires Complete(key)
    ensures var effect := Effect(table, links, e);
      FinalAt(e, key) <==>
        && effect.Some? && effect.value.0 == key && effect.value.1.GotReport?
        && IsTerminal(effect.value.1.report.status)
    ensures FinalAt(e, key) ==> Effect(table, links, e).value.1.report == ExecutionReport(e)
  {
  }

  lemma {:induction false} RowRuns(delivered: seq<Event>, key: LinkKey)
    requires Complete(key)
    ensures ShowsFinal(OrderLinks.Get(AppendAll(Store([], map[]), delivered).links, key), LatestFinal(delivered, key))
  {
    if delivered != [] {
      var n := |delivered| - 1;
      var e, s := delivered[n], AppendAll(Store([], map[]), delivered[..n]);
      RowRuns(delivered[..n], key);
      assert delivered == delivered[..n] + [e];
      LinkRuns.AppendLast(Store([], map[]), delivered[..n], e);
      LinkRuns.AppendAt(s, e, key);
      RowStep(s, e, key, LatestFinal(delivered[..n], key));
    }
  }

  lemma RowStep(s: Store, e: Event, key: LinkKey, latest: Option<Event>)
    requires Complete(key) && ShowsFinal(OrderLinks.Get(s.links, key), latest)
    ensures ShowsFinal(OrderLinks.Get(Append(s, e).links, key),
      if FinalAt(e, key) && (latest.None? || e.ts >= latest.value.ts) then Some(e) else latest)
  {
    var effect := Effect(Stored(s.table, e), s.links, e);
    FinalEffect(Stored(s.table, e), s.links, e, key);
    LinkRuns.AppendAt(s, e, key);
    if effect.Some? && effect.value.0 == key { StepShowsFinal(OrderLinks.Get(s.links, key), effect.value.1, latest); }
  }

  /** `delivered[i]` is the final report with the greatest timestamp, the last to arrive among ties. */
  ghost predicate IsLatestFinal(i: nat, delivered: seq<Event>, key: LinkKey) {
    && i < |delivered| && FinalAt(delivered[i], key)
    && (forall j | 0 <= j < |delivered| && FinalAt(delivered[j], key) :: delivered[j].ts <= delivered[i].ts)
    && forall j | i < j < |delivered| && FinalAt(delivered[j], key) :: delivered[j].ts < delivered[i].ts
  }

  lemma {:induction false} LatestFinalIs(delivered: seq<Event>, key: LinkKey, i: nat)
    requires IsLatestFinal(i, delivered, key)
    ensures LatestFinal(delivered, key) == Some(delivered[i])
  {
    var n := |delivered| - 1;
    if i < n {
      LatestFinalIs(delivered[..n], key, i);
    } else {
      LatestIsAmong(delivered[..n], key);
    }
  }

  lemma {:induction false} LatestIsAmong(delivered: seq<Event>, key: LinkKey)
    ensures var latest := LatestFinal(delivered, key);
      if latest.None? then forall e | e in delivered :: !FinalAt(e, key)
      else latest.value in delivered && FinalAt(latest.value, key)
  {
    if delivered != [] {
      var n := |delivered| - 1;
      LatestIsAmong(delivered[..n], key);
      assert delivered == delivered[..n] + [delivered[n]];
    }
  }

  /** Whatever else reaches the store and in whatever order, callbacks and cancels included: without a final report the
      row is not finished, and otherwise it ends at the latest one. */
  lemma RowKeepsLatestFinal(delivered: seq<Event>, key: LinkKey)
    requires Complete(key)
    ensures var row := OrderLinks.Get(AppendAll(Store([], map[]), delivered).links, key);
      && ((forall e | e in delivered :: !FinalAt(e, key)) ==> !IsTerminal(StatusOf(row)))
      && forall i: nat | IsLatestFinal(i, delivered, key) :: StatusOf(row) == StatusIn(delivered[i])
  {
    RowRuns(delivered, key);
    LatestIsAmong(delivered, key);
    forall i: nat | IsLatestFinal(i, delivered, key)
      ensures StatusOf(OrderLinks.Get(AppendAll(Store([], map[]), delivered).links, key)) == StatusIn(delivered[i])
    {
      LatestIsShown(delivered, key, i);
    }
  }

  // ---- agreement -----------------------------------------------------------------------

  /** `log` is what replay reads, `delivered` the same events as they reached the store. When the ledger files a final
      report under `k` and the store takes one to the row, the two end at the same status exactly when the first under
      `k` in replay order, a partial cancel completed by a cancel, says what the row's latest by timestamp says. */
  lemma FinalStatusesAgreeExactly(log: seq<Event>, delivered: seq<Event>, key: LinkKey, k: string, first: Event, i: nat,
                                  cash: real, holdings: map<string, int>)
    requires LedgerReplay.IdsIdentify(log) && Complete(key) && k != ""
    requires IsFirstFinal(first, log, k) && IsLatestFinal(i, delivered, key)
    ensures LedgerStatus(Replay(log, cash, holdings), k)
        == LinkRuns.StatusAt(AppendAll(Store([], map[]), delivered), key)
      <==> Completed(StatusIn(first), log, k) == StatusIn(delivered[i])
  {
    LedgerKeepsFirstFinal(log, k, cash, holdings);
    LatestIsShown(delivered, key, i);
  }

  lemma LatestIsShown(delivered: seq<Event>, key: LinkKey, i: nat)
    requires Complete(key) && IsLatestFinal(i, delivered, key)
    ensures LinkRuns.StatusAt(AppendAll(Store([], map[]), delivered), key) == Some(StatusIn(delivered[i]))
  {
    RowRuns(delivered, key);
    LatestFinalIs(delivered, key, i);
  }

  /** The final reports of the row are those the ledger files under one of two names: before and after the broker's id
      of the order is known. */
  ghost predicate FinalsKnownAs(events: seq<Event>, key: LinkKey, a: string, b: string) {
    a != "" && b != "" && forall e | e in events :: FinalAt(e, key) <==> Final(e, a) || Final(e, b)
  }

  /** The row is finished exactly when the ledger is, under one of the names; and when all final reports say the same,
      so do the row and the ledger under every name it is finished under. */
  lemma OneFinalStatusAgrees(log: seq<Event>, delivered: seq<Event>, key: LinkKey, a: string, b: string,
                             cash: real, holdings: map<string, int>)
    requires LedgerReplay.IdsIdentify(log) && Complete(key) && FinalsKnownAs(log, key, a, b)
    requires forall e :: e in log <==> e in delivered
    ensures var ledger, row := Replay(log, cash, holdings),
        LinkRuns.StatusAt(AppendAll(Store([], map[]), delivered), key);
      && (Ended(row) <==> Ended(LedgerStatus(ledger, a)) || Ended(LedgerStatus(ledger, b)))
      && forall k | k == a || k == b :: Ended(LedgerStatus(ledger, k)) && OneFinalStatus(log, key)
           ==> LedgerStatus(ledger, k) == row
  {
    LedgerEnded(log, a, cash, holdings);
    LedgerEnded(log, b, cash, holdings);
    RowEnds(delivered, key);
  }

  /** All final reports of the row say the same. */
  ghost predicate OneFinalStatus(events: seq<Event>, key: LinkKey) {
    forall e, f | e in events && f in events && FinalAt(e, key) && FinalAt(f, key) :: StatusIn(e) == StatusIn(f)
  }

  /** The ledger is finished exactly when a final report is filed, and then shows one. */
  lemma LedgerEnded(log: seq<Event>, k: string, cash: real, holdings: map<string, int>)
    requires LedgerReplay.IdsIdentify(log) && k != ""
    ensures var ledger := LedgerStatus(Replay(log, cash, holdings), k);
      && (Ended(ledger) <==> exists e :: e in log && Final(e, k))
      && (Ended(ledger) ==> exists e :: e in log && Final(e, k) && ledger == Some(StatusIn(e)))
  {
    LedgerKeepsFirstFinal(log, k, cash, holdings);
    if e :| e in log && Final(e, k) {
      var first := FirstFinal(log, k, e);
      CompletedIsReported(StatusIn(first), first, log, k);
    }
  }

  lemma CompletedIsReported(s: Status, first: Event, log: seq<Event>, k: string)
    requires first in log && Final(first, k) && s == StatusIn(first)
    ensures exists e :: e in log && Final(e, k) && Completed(s, log, k) == StatusIn(e)
  {
    if s.PartiallyCanceled? && exists f :: f in log && Final(f, k) && StatusIn(f).Canceled? {
      var f :| f in log && Final(f, k) && StatusIn(f).Canceled?;
    }
  }

  /** The row is finished exactly when a final report was delivered, and then shows one. */
  lemma RowEnds(delivered: seq<Event>, key: LinkKey)
    requires Complete(key)
    ensures var row := LinkRuns.StatusAt(AppendAll(Store([], map[]), delivered), key);
      && (Ended(row) <==> exists e :: e in delivered && FinalAt(e, key))
      && (Ended(row) ==> exists e :: e in delivered && FinalAt(e, key) && row == Some(StatusIn(e)))
  {
    RowRuns(delivered, key);
    LatestIsAmong(delivered, key);
  }

  /** A log with a final report has a first one. */
  lemma {:induction false} FirstFinal(log: seq<Event>, k: string, some: Event) returns (first: Event)
    requires LedgerReplay.IdsIdentify(log) && some in log && Final(some, k)
    ensures IsFirstFinal(first, log, k)
  {
    first := FirstOf(log, k, some);
    forall f | f in log && Final(f, k) ensures f == first || KeyLess(first, f) {
      if f != first { DistinctIdsCompare(first, f); }
    }
  }

  lemma {:induction false} FirstOf(log: seq<Event>, k: string, some: Event) returns (first: Event)
    requires some in log && Final(some, k)
    ensures first in log && Final(first, k) && forall f | f in log && Final(f, k) :: !KeyLess(f, first)
  {
    KeyLessIsWeakOrder();
    var head, rest := log[0], log[1..];
    assert log == [head] + rest;
    if exists e :: e in rest && Final(e, k) {
      var e :| e in rest && Final(e, k);
      first := FirstOf(rest, k, e);
      if Final(head, k) && KeyLess(head, first) { first := head; }
    } else {
      first := head;
    }
  }

  function FinalReport(id: string, ts: int, key: LinkKey, status: Status): Event {
    Event(id, key.deploymentId, ts, key.clientOrderId,
      BrokerExecution(ReportPayload(id, key.brokerType, "b", "s", "", status, 100, 0, 1.0)))
  }

  /** A fill reported before a cancel: the ledger stays filled, the row turns canceled. */
  lemma FinalStatusesMayDiffer(key: LinkKey, cash: real, holdings: map<string, int>)
    requires Complete(key)
    ensures var log := [FinalReport("1", 1, key, Filled), FinalReport("2", 2, key, Canceled)];
      && LedgerStatus(Replay(log, cash, holdings), "b") == Some(Filled)
      && LinkRuns.StatusAt(AppendAll(Store([], map[]), log), key) == Some(Canceled)
  {
    var filled, canceled := FinalReport("1", 1, key, Filled), FinalReport("2", 2, key, Canceled);
    var log := [filled, canceled];
    assert filled in log && canceled in log && forall e | e in log :: e == filled || e == canceled;
    FilledIsFirst(log, filled, canceled, cash, holdings);
    CanceledIsLatest(log, key);
  }

  lemma CanceledIsLatest(log: seq<Event>, key: LinkKey)
    requires Complete(key) && |log| == 2 && FinalAt(log[0], key) && FinalAt(log[1], key) && log[0].ts < log[1].ts
      && StatusIn(log[1]).Canceled?
    ensures LinkRuns.StatusAt(AppendAll(Store([], map[]), log), key) == Some(Canceled)
  {
    assert IsLatestFinal(1, log, key);
    LatestIsShown(log, key, 1);
  }

  lemma FilledIsFirst(log: seq<Event>, filled: Event, canceled: Event, cash: real, holdings: map<string, int>)
    requires filled in log && canceled in log && forall e | e in log :: e == filled || e == canceled
    requires filled.id != canceled.id && filled.id != "" && canceled.id != "" && filled.ts < canceled.ts
    requires Final(filled, "b") && StatusIn(filled).Filled?
    ensures LedgerStatus(Replay(log, cash, holdings), "b") == Some(Filled)
  {
    assert IsFirstFinal(filled, log, "b");
    LedgerKeepsFirstFinal(log, "b", cash, holdings);
  }
}
