/** What the OMS writes about its orders: ids that tell the events apart, and for every order events that
    lead to the status reported (ez/live/oms.py). */
module OmsJournal {
  import opened BrokerStatus
  import opened Options
  import opened Events
  import opened Ledger
  import opened Orders
  import opened Flows
  import opened Execution
  import opened ShareSlices
  import opened PaperBroker
  import opened Oms
  import opened OmsFills
  import opened LedgerReplay

  // ---- events of one order ---------------------------------------------------------------------

  /** The kinds of order events. */
  predicate IsKind(kind: string) {
    kind == "order_submitted" || kind == "order_rejected" || kind == "order_filled" || kind == "order_partially_filled"
  }

  predicate IsOrderEvent(b: Body) { b.OrderSubmitted? || b.OrderRejected? || b.OrderFilled? || b.OrderPartiallyFilled? }

  ghost predicate Named(e: Event, kind: string, slice: nat, slices: nat) {
    IsKind(kind) && e.id == FillEventId(e.clientOrderId, kind, slice, slices)
  }

  /** An order event with an id made from its order's. */
  ghost predicate OfOrder(e: Event, o: Order) {
    && e.clientOrderId == o.clientOrderId && IsOrderEvent(e.body)
    && exists kind, slice, slices :: Named(e, kind, slice, slices)
  }

  lemma KindFacts(kind: string)
    requires IsKind(kind)
    ensures ':' !in kind && kind != "" && kind[0] > '9'
  {
  }

  lemma NamesTell(e: Event, kind1: string, slice1: nat, slices1: nat, f: Event, kind2: string, slice2: nat,
                  slices2: nat)
    requires Named(e, kind1, slice1, slices1) && Named(f, kind2, slice2, slices2)
    ensures e.id == f.id ==>
      e.clientOrderId == f.clientOrderId && kind1 == kind2 && (slices1 == 1 <==> slices2 == 1)
        && (slices1 != 1 ==> slice1 == slice2)
  {
    KindFacts(kind1);
    KindFacts(kind2);
    if e.id == f.id {
      EventIdIdentifies(e.clientOrderId, kind1, slice1, slices1, f.clientOrderId, kind2, slice2, slices2);
    }
  }

  lemma DifferentOrdersDifferentIds(e: Event, a: Order, f: Event, b: Order)
    requires OfOrder(e, a) && OfOrder(f, b) && a.clientOrderId != b.clientOrderId
    ensures e.id != f.id && !Asks(e, b.clientOrderId)
  {
    var k1, s1, n1 :| Named(e, k1, s1, n1);
    var k2, s2, n2 :| Named(f, k2, s2, n2);
    NamesTell(e, k1, s1, n1, f, k2, s2, n2);
  }

  ghost predicate DistinctIds(log: seq<Event>) {
    forall i, j | 0 <= i < j < |log| :: log[i].id != log[j].id
  }

  // ---- a journal tells the truth about its orders -------------------------------------------------

  ghost predicate Truthful(j: Journal, orders: seq<Order>) {
    && |j.records| == |orders| && (forall i | 0 <= i < |orders| :: j.records[i].order == orders[i])
    && Belong(j.drafts, orders) && DistinctIds(j.drafts) && AllLead(j.drafts, j.records)
  }

  ghost predicate AllLead(log: seq<Event>, records: seq<Record>) {
    forall r | r in records :: LeadsTo(log, r)
  }

  /** Every event is of one of the orders. */
  ghost predicate Belong(log: seq<Event>, orders: seq<Order>) {
    forall e | e in log :: exists o :: o in orders && OfOrder(e, o)
  }

  /** Whatever order the log is replayed in, the order ends at the recorded status. */
  ghost predicate LeadsTo(log: seq<Event>, r: Record) {
    Leads(log, r.order.clientOrderId, r.status) && AsksFor(log, r.order.clientOrderId, r.status)
  }

  ghost predicate Apart(os: seq<Order>, ps: seq<Order>) {
    forall o, p | o in os && p in ps :: o.clientOrderId != p.clientOrderId
  }

  lemma JoinIsTruthful(a: Journal, os: seq<Order>, b: Journal, ps: seq<Order>)
    requires Truthful(a, os) && Truthful(b, ps) && Apart(os, ps)
    ensures Truthful(Join(a, b), os + ps)
  {
    BothBelong(a.drafts, os, b.drafts, ps);
    BothDistinct(a.drafts, os, b.drafts, ps);
    BothLead(a, os, b, ps);
  }

  lemma BothLead(a: Journal, os: seq<Order>, b: Journal, ps: seq<Order>)
    requires Truthful(a, os) && Truthful(b, ps) && Apart(os, ps)
    ensures AllLead(a.drafts + b.drafts, a.records + b.records)
  {
    forall r | r in a.records + b.records ensures LeadsTo(a.drafts + b.drafts, r) {
      if r in a.records {
        assert r.order in os;
        StillLeads(a.drafts, b.drafts, ps, r);
      } else {
        assert r.order in ps;
        StillLeads(b.drafts, a.drafts, os, r);
        SameMembersLead(b.drafts + a.drafts, a.drafts + b.drafts, r);
      }
    }
  }

  lemma BothBelong(a: seq<Event>, os: seq<Order>, b: seq<Event>, ps: seq<Order>)
    requires Belong(a, os) && Belong(b, ps)
    ensures Belong(a + b, os + ps)
  {
    forall e | e in a + b ensures exists o :: o in os + ps && OfOrder(e, o) {
      if e in a {
        var o :| o in os && OfOrder(e, o);
        assert o in os + ps;
      } else {
        var o :| o in ps && OfOrder(e, o);
        assert o in os + ps;
      }
    }
  }

  lemma BothDistinct(a: seq<Event>, os: seq<Order>, b: seq<Event>, ps: seq<Order>)
    requires Belong(a, os) && Belong(b, ps) && DistinctIds(a) && DistinctIds(b) && Apart(os, ps)
    ensures DistinctIds(a + b)
  {
    forall i, k | 0 <= i < |a| && 0 <= k < |b| ensures a[i].id != b[k].id {
      assert a[i] in a && b[k] in b;
      var o :| o in os && OfOrder(a[i], o);
      var p :| p in ps && OfOrder(b[k], p);
      DifferentOrdersDifferentIds(a[i], o, b[k], p);
    }
  }

  /** Events of other orders change nothing. */
  lemma StillLeads(log: seq<Event>, more: seq<Event>, ps: seq<Order>, r: Record)
    requires LeadsTo(log, r) && Belong(more, ps)
    requires forall p | p in ps :: p.clientOrderId != r.order.clientOrderId
    ensures LeadsTo(log + more, r)
  {
    var key := r.order.clientOrderId;
    forall e | e in more ensures !Asks(e, key) {
      var p :| p in ps && OfOrder(e, p);
    }
    var e :| e in log && Requested(e) == Some((key, r.status));
    assert e in log + more;
  }

  lemma SameMembersLead(a: seq<Event>, b: seq<Event>, r: Record)
    requires LeadsTo(a, r) && forall e :: e in a <==> e in b
    ensures LeadsTo(b, r)
  {
    var e :| e in a && Requested(e) == Some((r.order.clientOrderId, r.status));
    assert e in b;
  }

  // ---- the journal of one order --------------------------------------------------------------------

  lemma PlainDraftIsNamed(d: Day, o: Order, kind: string, body: Body)
    requires IsKind(kind) && IsOrderEvent(body)
    ensures OfOrder(Draft(d, o, kind, body), o)
  {
    assert Named(Draft(d, o, kind, body), kind, 1, 1);
  }

  lemma RejectIsTruthful(d: Day, o: Order)
    ensures Truthful(RejectOrder(d, o), [o])
  {
    PlainDraftIsNamed(d, o, "order_rejected", OrderRejected);
    var j := RejectOrder(d, o);
    assert o in [o] && OfOrder(j.drafts[0], o);
    assert j.drafts[0] in j.drafts && Requested(j.drafts[0]) == Some((o.clientOrderId, Rejected));
  }

  lemma SubmitRejectIsTruthful(d: Day, o: Order)
    ensures Truthful(Journal([Record(o, Rejected, o.shares)], [SubmittedDraft(d, o), RejectedDraft(d, o)], []), [o])
  {
    var s, r := SubmittedDraft(d, o), RejectedDraft(d, o);
    PlainDraftIsNamed(d, o, "order_submitted", OrderSubmitted);
    PlainDraftIsNamed(d, o, "order_rejected", OrderRejected);
    assert o in [o] && OfOrder(s, o) && OfOrder(r, o);
    NamesTell(s, "order_submitted", 1, 1, r, "order_rejected", 1, 1);
    assert r in [s, r] && Requested(r) == Some((o.clientOrderId, Rejected));
    assert Requested(s) == Some((o.clientOrderId, Submitted));
  }

  lemma {:induction false} FillDraftsAt(d: Day, o: Order, fills: seq<BrokerFill>)
    ensures |FillDrafts(d, o, fills)| == |fills|
    ensures forall i | 0 <= i < |fills| :: FillDrafts(d, o, fills)[i] == FillDraft(d, o, fills[i])
  {
    if fills != [] { FillDraftsAt(d, o, fills[1..]); }
  }

  function FillKind(f: BrokerFill): string
  {
    if f.remainingShares > 0 then "order_partially_filled" else "order_filled"
  }

  lemma FillDraftIsNamed(d: Day, o: Order, f: BrokerFill)
    ensures Named(FillDraft(d, o, f), FillKind(f), f.slice, f.slices) && OfOrder(FillDraft(d, o, f), o)
  {
    var e := FillDraft(d, o, f);
    assert Named(e, FillKind(f), f.slice, f.slices);
  }

  function FillStatus(t: Trade, o: Order): OrderStatus { if t.shares < o.shares then PartFilled else FullyFilled }

  lemma FilledHasDistinctIds(d: Day, o: Order, own: seq<BrokerFill>, t: Trade)
    requires SplitOf(own, t, o.clientOrderId, o.shares)
    ensures DistinctIds([SubmittedDraft(d, o)] + FillDrafts(d, o, own))
  {
    var s, drafts := SubmittedDraft(d, o), FillDrafts(d, o, own);
    FillDraftsAt(d, o, own);
    assert Named(s, "order_submitted", 1, 1);
    forall i | 0 <= i < |drafts| ensures s.id != drafts[i].id {
      FillDraftIsNamed(d, o, own[i]);
      NamesTell(s, "order_submitted", 1, 1, drafts[i], FillKind(own[i]), own[i].slice, own[i].slices);
    }
    forall i, k | 0 <= i < k < |drafts| ensures drafts[i].id != drafts[k].id {
      FillDraftIsNamed(d, o, own[i]);
      FillDraftIsNamed(d, o, own[k]);
      assert SliceOf(own[i], i, t, o.clientOrderId, |own|) && SliceOf(own[k], k, t, o.clientOrderId, |own|);
      NamesTell(drafts[i], FillKind(own[i]), own[i].slice, own[i].slices, drafts[k], FillKind(own[k]), own[k].slice,
                own[k].slices);
    }
  }

  lemma FilledIsTruthful(d: Day, o: Order, own: seq<BrokerFill>, t: Trade, remaining: int)
    requires SplitOf(own, t, o.clientOrderId, o.shares)
    ensures Truthful(Journal([Record(o, FillStatus(t, o), remaining)], [SubmittedDraft(d, o)] + FillDrafts(d, o, own),
                             own), [o])
  {
    var s, drafts := SubmittedDraft(d, o), FillDrafts(d, o, own);
    var all := [s] + drafts;
    FillDraftsAt(d, o, own);
    PlainDraftIsNamed(d, o, "order_submitted", OrderSubmitted);
    forall e | e in all ensures exists x :: x in [o] && OfOrder(e, x) {
      var i :| 0 <= i < |all| && all[i] == e;
      if i > 0 { FillDraftIsNamed(d, o, own[i - 1]); }
      assert o in [o] && OfOrder(e, o);
    }
    FilledHasDistinctIds(d, o, own, t);
    FilledLeads(d, o, own, t);
  }

  lemma FilledLeads(d: Day, o: Order, own: seq<BrokerFill>, t: Trade)
    requires SplitOf(own, t, o.clientOrderId, o.shares)
    ensures var all := [SubmittedDraft(d, o)] + FillDrafts(d, o, own);
      Leads(all, o.clientOrderId, FillStatus(t, o)) && AsksFor(all, o.clientOrderId, FillStatus(t, o))
  {
    var s, drafts := SubmittedDraft(d, o), FillDrafts(d, o, own);
    var all := [s] + drafts;
    FillDraftsAt(d, o, own);
    forall e | e in all && Asks(e, o.clientOrderId)
      ensures Requested(e).value.1 == FillStatus(t, o) || LocalRank(Requested(e).value.1) < LocalRank(FillStatus(t, o))
    {
      var i :| 0 <= i < |all| && all[i] == e;
      if i > 0 { ChildAsks(d, o, own[i - 1], t); }
    }
    LastChildAsks(d, o, own, t);
    assert all[|own|] == FillDraft(d, o, own[|own| - 1]) && all[|own|] in all;
  }

  /** A child fill asks for the status its trade leads to, or for one before it. */
  lemma ChildAsks(d: Day, o: Order, f: BrokerFill, t: Trade)
    requires f.remainingShares >= Most(o.shares - t.shares, 0)
    ensures var asked := Requested(FillDraft(d, o, f)).value.1;
      asked == FillStatus(t, o) || LocalRank(asked) < LocalRank(FillStatus(t, o))
  {
  }

  lemma LastChildAsks(d: Day, o: Order, own: seq<BrokerFill>, t: Trade)
    requires SplitOf(own, t, o.clientOrderId, o.shares)
    ensures Requested(FillDraft(d, o, own[|own| - 1])) == Some((o.clientOrderId, FillStatus(t, o)))
  {
  }

  // ---- what the broker's report makes of it ----------------------------------------------------------

  lemma {:induction false} NotContained(raw: string, part: string)
    requires part != "" && part[0] !in raw
    ensures !Contains(raw, part)
  {
    if raw != "" {
      assert raw[0] in raw;
      NotContained(raw[1..], part);
    }
  }

  /** "rejected" is not in the table: the substring rules make it an order error. */
  lemma RejectedReadsAsError(remaining: int)
    ensures Normalize("rejected", 0, remaining) == OrderError
  {
    RejectedIsUnknown();
    GuessAtRejected("rejected", remaining);
  }

  lemma RejectedIsUnknown()
    ensures Alias("rejected") == "rejected" && Lookup("rejected").Other?
  {
  }

  lemma GuessAtRejected(raw: string, remaining: int)
    requires raw == "rejected"
    ensures Guess(raw, 0, remaining) == OrderError
  {
    NotContained(raw, "pending");
    NotContained(raw, "partial");
    NotContained(raw, "fill");
  }

  lemma {:induction false} ReportsAt(orders: seq<Order>, fills: seq<BrokerFill>)
    ensures |Reports(orders, fills)| == |orders|
    ensures forall i | 0 <= i < |orders| :: Reports(orders, fills)[i] == ReportOf(orders[i], fills)
  {
    if orders != [] { ReportsAt(orders[1..], fills); }
  }

  lemma {:induction false} ReportForFinds(reports: seq<Report>, r: Report)
    requires r in reports && forall x | x in reports :: x.clientOrderId == r.clientOrderId ==> x == r
    ensures ReportFor(reports, r.clientOrderId) == Some(r)
  {
    var n := |reports| - 1;
    assert reports == reports[..n] + [reports[n]];
    if reports[n].clientOrderId != r.clientOrderId { ReportForFinds(reports[..n], r); }
  }

  lemma OrdersReport(orders: seq<Order>, fills: seq<BrokerFill>, o: Order)
    requires IdsTell(orders) && o in orders
    ensures ReportFor(Reports(orders, fills), o.clientOrderId) == Some(ReportOf(o, fills))
  {
    ReportsAt(orders, fills);
    var reports := Reports(orders, fills);
    var i :| 0 <= i < |orders| && orders[i] == o;
    assert reports[i] in reports;
    forall x | x in reports ensures x.clientOrderId == o.clientOrderId ==> x == ReportOf(o, fills) {
      var k :| 0 <= k < |reports| && reports[k] == x;
      assert orders[k] in orders;
    }
    ReportForFinds(reports, ReportOf(o, fills));
  }

  /** The journal of an accepted order, from the order's own fills. */
  function Told(d: Day, o: Order, own: seq<BrokerFill>): Journal {
    if own == [] then Journal([Record(o, Rejected, o.shares)], [SubmittedDraft(d, o), RejectedDraft(d, o)], [])
    else Journal([Record(o, if SharesIn(own) < o.shares then PartFilled else FullyFilled,
                         Most(o.shares - SharesIn(own), 0))],
                 [SubmittedDraft(d, o)] + FillDrafts(d, o, own), own)
  }

  lemma SettledAsTold(d: Day, o: Order, fills: seq<BrokerFill>, own: seq<BrokerFill>)
    requires own == FillsWith(fills, o.clientOrderId) == FillsKeyed(fills, o.clientOrderId)
    requires own != [] ==> SharesIn(own) > 0
    ensures SettleOrder(d, o, Some(ReportOf(o, fills)), own) == Told(d, o, own)
  {
    if own == [] { UntradedAsTold(d, o, fills); } else { TradedAsTold(d, o, fills, own); }
  }

  lemma UntradedAsTold(d: Day, o: Order, fills: seq<BrokerFill>)
    requires FillsKeyed(fills, o.clientOrderId) == []
    ensures SettleOrder(d, o, Some(ReportOf(o, fills)), []) == Told(d, o, [])
  {
    RejectedReadsAsError(Most(o.shares, 0));
  }

  lemma TradedAsTold(d: Day, o: Order, fills: seq<BrokerFill>, own: seq<BrokerFill>)
    requires own == FillsKeyed(fills, o.clientOrderId) && own != [] && SharesIn(own) > 0
    ensures SettleOrder(d, o, Some(ReportOf(o, fills)), own) == Told(d, o, own)
  {
  }
}
