/** Replaying what a paper rebalance wrote to the log gives back what the OMS reported (ez/live/oms.py,
    ez/live/paper_broker.py, ez/live/ledger.py). */
module OmsReplay {
  import opened Options
  import opened Events
  import opened Ledger
  import opened Orders
  import opened Flows
  import opened Execution
  import opened ShareSlices
  import opened PaperBroker
  import opened RiskGate
  import opened RiskLaws
  import opened Oms
  import opened OmsOrders
  import opened OmsTargets
  import opened OmsFills
  import opened OmsJournal

  // ---- the broker ------------------------------------------------------------------------------

  ghost function DeskOf(d: Day): Desk
    requires d.market.lot >= 1
  {
    if Accepted(d) == [] then Desk(d.cash, d.holdings, {}, [], 0.0)
    else Execute(d.market, AcceptedWeights(d, Accepted(d)), d.holdings, d.equity, d.cash)
  }

  lemma BrokerIsDesk(d: Day)
    requires d.market.lot >= 1
    ensures var b, desk := BrokerOf(d), DeskOf(d);
      && b.fills == SplitFills(desk.trades, Accepted(d), d.slices, d.market.lot)
      && b.reports == Reports(Accepted(d), b.fills) && b.holdings == desk.holdings && b.cash == desk.cash
  {
  }

  lemma AcceptedWeightsArePositive(d: Day, accepted: seq<Order>)
    ensures var w := AcceptedWeights(d, accepted); (w == map[] || d.equity > 0.0) && forall s | s in w :: w[s] >= 0.0
  {
    var w := AcceptedWeights(d, accepted);
    forall s | s in w ensures w[s] >= 0.0 {
      WeightIsNotNegative(Projected(d.holdings, accepted)[s], d.market.prices[s], d.equity);
    }
  }

  lemma DeskBalances(d: Day)
    requires d.market.lot >= 1
    ensures Proper(DeskOf(d).trades)
    ensures forall s :: DeskOf(d).cash == d.cash + Total(DeskOf(d).trades, TradeMove(s)).cash
    ensures forall s :: Get(DeskOf(d).holdings, s) == Netted(Get(d.holdings, s), Total(DeskOf(d).trades, TradeMove(s)))
  {
    var w := AcceptedWeights(d, Accepted(d));
    AcceptedWeightsArePositive(d, Accepted(d));
    if Accepted(d) != [] { ExecutionBalances(d.market, w, d.holdings, d.equity, d.cash); }
  }

  /** Every trade the broker makes was asked for by an accepted order. */
  ghost predicate AllOrdered(d: Day)
    requires d.market.lot >= 1
  {
    forall t | t in DeskOf(d).trades :: Ordered(Accepted(d), t.symbol, t.side)
  }

  lemma TradesAreOrdered(d: Day, t: Trade)
    requires d.market.lot >= 1 && AllOrdered(d) && t in DeskOf(d).trades
    ensures RequestedFor(Accepted(d), t.symbol, t.side).Some?
  {
    GatedOrdersAreSound(d);
    assert Ordered(Accepted(d), t.symbol, t.side);
    RequestedForFinds(Accepted(d), t.symbol, t.side);
  }

  /** Of long positions the only trades nobody ordered are stray sales. */
  lemma OrderedUnlessStray(d: Day)
    requires d.market.lot >= 1 && LongOnly(d)
    ensures AllOrdered(d) <==> forall s :: !StraySale(d, s)
  {
    var accepted, desk := Accepted(d), DeskOf(d);
    forall t | t in desk.trades
      ensures Ordered(accepted, t.symbol, t.side) || (t.side.Sell? && StraySale(d, t.symbol))
    {
      assert Traded(desk, t.symbol, t.side);
      ExecutionTrades(d.market, AcceptedWeights(d, accepted), d.holdings, d.equity, d.cash, t.symbol);
      if t.side.Buy? { BuysAreOrdered(d, t.symbol); }
    }
    forall s | StraySale(d, s) ensures !AllOrdered(d) { StraySaleIsTraded(d, s); }
  }

  lemma StraySaleIsTraded(d: Day, s: string)
    requires d.market.lot >= 1 && StraySale(d, s)
    ensures Traded(DeskOf(d), s, Sell)
  {
    ExecutionTrades(d.market, AcceptedWeights(d, Accepted(d)), d.holdings, d.equity, d.cash, s);
  }

  /** A buy nobody ordered closes a short position that no accepted order is about. */
  lemma UnorderedBuyClosesShort(d: Day, t: Trade)
    requires d.market.lot >= 1 && t in DeskOf(d).trades && t.side.Buy? && !Ordered(Accepted(d), t.symbol, Buy)
    ensures Held(d.holdings, t.symbol) < 0
  {
    assert Traded(DeskOf(d), t.symbol, Buy);
    ExecutionTrades(d.market, AcceptedWeights(d, Accepted(d)), d.holdings, d.equity, d.cash, t.symbol);
    if Held(d.holdings, t.symbol) >= 0 { BuysAreOrdered(d, t.symbol); }
  }

  lemma FillsAreOrdered(d: Day)
    requires d.market.lot >= 1 && AllOrdered(d)
    ensures forall f | f in BrokerOf(d).fills :: exists o | o in Accepted(d) :: o.clientOrderId == f.clientOrderId
  {
    var accepted, desk := Accepted(d), DeskOf(d);
    BrokerIsDesk(d);
    DeskBalances(d);
    GatedOrdersAreSound(d);
    FillsComeFromTrades(desk.trades, accepted, d.slices, d.market.lot);
    forall f | f in BrokerOf(d).fills ensures exists o | o in accepted :: o.clientOrderId == f.clientOrderId {
      var t :| t in desk.trades && PieceOf(f, t, accepted);
      TradesAreOrdered(d, t);
      RequestedForFinds(accepted, t.symbol, t.side);
    }
  }

  // ---- the journal, order by order ---------------------------------------------------------------

  function ToldAll(d: Day, orders: seq<Order>, fills: seq<BrokerFill>): Journal {
    if orders == [] then BLANK
    else Join(Told(d, orders[0], FillsWith(fills, orders[0].clientOrderId)), ToldAll(d, orders[1..], fills))
  }

  /** An order's own fills: none, or the slices of one trade. */
  ghost predicate OwnFills(o: Order, own: seq<BrokerFill>) {
    own == [] || exists t :: SplitOf(own, t, o.clientOrderId, o.shares) && t.shares > 0
  }

  /** An accepted order's own fills are the slices of the trade that serves it. */
  lemma OwnFillsOf(d: Day, o: Order)
    requires d.market.lot >= 1 && o in Accepted(d)
    ensures var own := FillsWith(BrokerOf(d).fills, o.clientOrderId);
      && OwnFills(o, own) && ((forall t | t in DeskOf(d).trades :: !Serves(t, o)) ==> own == [])
      && forall t | t in DeskOf(d).trades && Serves(t, o) :: SplitOf(own, t, o.clientOrderId, o.shares)
  {
    var accepted, trades := Accepted(d), DeskOf(d).trades;
    BrokerIsDesk(d);
    DeskBalances(d);
    GatedOrdersAreSound(d);
    SoundOrdersTell(d, accepted);
    FillsOfOrder(trades, accepted, d.slices, d.market.lot, o);
    forall t | t in trades && Serves(t, o)
      ensures SplitOf(FillsWith(BrokerOf(d).fills, o.clientOrderId), t, o.clientOrderId, o.shares)
    {
      SplitTradeFacts(t, accepted, d.slices, d.market.lot);
      RequestedForFinds(accepted, t.symbol, t.side);
    }
  }

  lemma ToldIsTruthful(d: Day, o: Order, own: seq<BrokerFill>)
    requires OwnFills(o, own)
    ensures Truthful(Told(d, o, own), [o])
  {
    if own == [] {
      SubmitRejectIsTruthful(d, o);
    } else {
      var t :| SplitOf(own, t, o.clientOrderId, o.shares);
      FilledIsTruthful(d, o, own, t, Most(o.shares - t.shares, 0));
    }
  }

  lemma {:induction false} ToldAllIsTruthful(d: Day, orders: seq<Order>, fills: seq<BrokerFill>)
    requires OneEach(orders) && IdsTell(orders) && forall o | o in orders ::
      OwnFills(o, FillsWith(fills, o.clientOrderId))
    ensures Truthful(ToldAll(d, orders, fills), orders)
  {
    if orders != [] {
      var o, rest := orders[0], orders[1..];
      FirstIsAlone(orders);
      ToldIsTruthful(d, o, FillsWith(fills, o.clientOrderId));
      ToldAllIsTruthful(d, rest, fills);
      JoinIsTruthful(Told(d, o, FillsWith(fills, o.clientOrderId)), [o], ToldAll(d, rest, fills), rest);
      assert orders == [o] + rest;
    }
  }

  lemma {:induction false} RejectAllIsTruthful(d: Day, refused: seq<Refusal>)
    requires OneEach(OrdersOf(refused)) && IdsTell(OrdersOf(refused))
    ensures Truthful(RejectAll(d, refused), OrdersOf(refused))
  {
    if refused != [] {
      var o, rest := refused[0].order, refused[1..];
      assert OrdersOf(refused) == [o] + OrdersOf(rest);
      assert OrdersOf(refused)[1..] == OrdersOf(rest);
      FirstIsAlone(OrdersOf(refused));
      RejectIsTruthful(d, o);
      RejectAllIsTruthful(d, rest);
      JoinIsTruthful(RejectOrder(d, o), [o], RejectAll(d, rest), OrdersOf(rest));
    }
  }

  lemma {:induction false} SettledAllAsTold(d: Day, orders: seq<Order>, all: seq<Order>, fills: seq<BrokerFill>)
    requires IdsTell(all) && (forall o | o in orders :: o in all && OwnFills(o, FillsWith(fills, o.clientOrderId)))
    requires forall f | f in fills :: f.clientOrderId != ""
    ensures SettleAll(d, orders, Reports(all, fills), fills) == ToldAll(d, orders, fills)
    decreases |orders|
  {
    if orders != [] {
      var o := orders[0];
      var own := FillsWith(fills, o.clientOrderId);
      assert o in orders;
      FillsKeyedIsFillsWith(fills, o.clientOrderId);
      OrdersReport(all, fills, o);
      SettledAsTold(d, o, fills, own);
      SettledAllAsTold(d, orders[1..], all, fills);
    }
  }

  /** When every trade was ordered the journal is that of the orders' own fills. */
  lemma JournalIsTold(d: Day)
    requires d.market.lot >= 1 && AllOrdered(d)
    ensures JournalOf(d) == Join(RejectAll(d, Gated(d).refused), ToldAll(d, Accepted(d), BrokerOf(d).fills))
    ensures Truthful(JournalOf(d), OrdersOf(Gated(d).refused) + Accepted(d))
  {
    var accepted, refused, fills := Accepted(d), Gated(d).refused, BrokerOf(d).fills;
    GatedOrdersAreSound(d);
    SoundOrdersTell(d, OrdersOf(refused) + accepted);
    PartsTell(OrdersOf(refused), accepted);
    BrokerIsDesk(d);
    FillsAreOrdered(d);
    forall o | o in accepted ensures OwnFills(o, FillsWith(fills, o.clientOrderId)) { OwnFillsOf(d, o); }
    SettledAllAsTold(d, accepted, accepted, fills);
    RejectAllIsTruthful(d, refused);
    ToldAllIsTruthful(d, accepted, fills);
    JoinIsTruthful(RejectAll(d, refused), OrdersOf(refused), ToldAll(d, accepted, fills), accepted);
  }

  lemma PartsTell(a: seq<Order>, b: seq<Order>)
    requires OneEach(a + b) && IdsTell(a + b)
    ensures OneEach(a) && IdsTell(a) && OneEach(b) && IdsTell(b) && Apart(a, b)
  {
    var all := a + b;
    forall i, j | 0 <= i < j < |a| ensures a[i].symbol != a[j].symbol { assert all[i] == a[i] && all[j] == a[j]; }
    forall i, j | 0 <= i < j < |b|
      ensures b[i].symbol != b[j].symbol
    {
      assert all[|a| + i] == b[i] && all[|a| + j] == b[j];
    }
    forall o, p | o in a && p in b ensures o.clientOrderId != p.clientOrderId {
      var i :| 0 <= i < |a| && a[i] == o;
      var j :| 0 <= j < |b| && b[j] == p;
      assert all[i] == o && all[|a| + j] == p;
      assert o in all && p in all;
    }
    assert forall o | o in a :: o in all;
    assert forall o | o in b :: o in all;
  }

  // ---- what the journal moves --------------------------------------------------------------------

  lemma {:induction false} FillDraftsMove(d: Day, o: Order, own: seq<BrokerFill>, symbol: string)
    ensures Total(FillDrafts(d, o, own), EventMove(symbol)) == Total(own, ChildMove(symbol))
  {
    if own != [] {
      var f, fills := own[0], own[1..];
      FillDraftsMove(d, o, fills, symbol);
      DraftMoves(d, o, f, symbol);
      OneMoreMoves(FillDraft(d, o, f), FillDrafts(d, o, fills), f, fills, symbol);
      FirstDraft(d, o, own, f, fills);
    }
  }

  lemma FirstDraft(d: Day, o: Order, own: seq<BrokerFill>, f: BrokerFill, fills: seq<BrokerFill>)
    requires own != [] && f == own[0] && fills == own[1..]
    ensures own == [f] + fills && FillDrafts(d, o, own) == [FillDraft(d, o, f)] + FillDrafts(d, o, fills)
  {
  }

  lemma OneMoreMoves(e: Event, events: seq<Event>, f: BrokerFill, fills: seq<BrokerFill>, symbol: string)
    requires EventMove(symbol)(e) == ChildMove(symbol)(f)
    requires Total(events, EventMove(symbol)) == Total(fills, ChildMove(symbol))
    ensures Total([e] + events, EventMove(symbol)) == Total([f] + fills, ChildMove(symbol))
  {
    TotalOfCons(e, events, EventMove(symbol));
    TotalOfCons(f, fills, ChildMove(symbol));
  }

  lemma DraftMoves(d: Day, o: Order, f: BrokerFill, symbol: string)
    ensures EventMove(symbol)(FillDraft(d, o, f)) == ChildMove(symbol)(f)
  {
  }

  lemma ToldMoves(d: Day, o: Order, own: seq<BrokerFill>, symbol: string)
    ensures Total(Told(d, o, own).drafts, EventMove(symbol)) == Total(own, ChildMove(symbol))
  {
    var move := EventMove(symbol);
    if own == [] {
      assert Told(d, o, own).drafts == [SubmittedDraft(d, o)] + ([RejectedDraft(d, o)] + []);
      TotalOfCons(SubmittedDraft(d, o), [RejectedDraft(d, o)] + [], move);
      TotalOfCons(RejectedDraft(d, o), [], move);
    } else {
      TotalOfCons(SubmittedDraft(d, o), FillDrafts(d, o, own), move);
      FillDraftsMove(d, o, own, symbol);
      PlusLaws(Total(own, ChildMove(symbol)), NO_MOVE, NO_MOVE);
    }
  }

  lemma {:induction false} ToldAllMoves(d: Day, orders: seq<Order>, fills: seq<BrokerFill>, symbol: string)
    ensures Total(ToldAll(d, orders, fills).drafts, EventMove(symbol))
      == Total(FillsOfAll(orders, fills), ChildMove(symbol))
  {
    if orders != [] {
      var own := FillsWith(fills, orders[0].clientOrderId);
      ToldMoves(d, orders[0], own, symbol);
      ToldAllMoves(d, orders[1..], fills, symbol);
      TotalOfBoth(Told(d, orders[0], own).drafts, ToldAll(d, orders[1..], fills).drafts, EventMove(symbol));
      TotalOfBoth(own, FillsOfAll(orders[1..], fills), ChildMove(symbol));
    }
  }

  lemma {:induction false} NoFillsNoMove(log: seq<Event>, symbol: string)
    requires forall e | e in log :: FillOf(e).None?
    ensures Total(log, EventMove(symbol)) == NO_MOVE
  {
    if log != [] {
      assert log[0] in log && EventMove(symbol)(log[0]) == NO_MOVE;
      NoFillsNoMove(log[1..], symbol);
    }
  }

  lemma {:induction false} RejectionsFillNothing(d: Day, refused: seq<Refusal>)
    ensures forall e | e in RejectAll(d, refused).drafts :: e.body.OrderRejected?
  {
    if refused != [] { RejectionsFillNothing(d, refused[1..]); }
  }

  /** When every trade was ordered the journal moves what the trades moved. */
  lemma JournalMoves(d: Day, symbol: string)
    requires d.market.lot >= 1 && AllOrdered(d)
    ensures Total(JournalOf(d).drafts, EventMove(symbol)) == Total(DeskOf(d).trades, TradeMove(symbol))
  {
    var accepted, refused, fills, move := Accepted(d), Gated(d).refused, BrokerOf(d).fills, EventMove(symbol);
    JournalIsTold(d);
    TotalOfBoth(RejectAll(d, refused).drafts, ToldAll(d, accepted, fills).drafts, move);
    RejectionsFillNothing(d, refused);
    NoFillsNoMove(RejectAll(d, refused).drafts, symbol);
    ToldAllMoves(d, accepted, fills, symbol);
    PlusLaws(Total(ToldAll(d, accepted, fills).drafts, move), NO_MOVE, NO_MOVE);
    GatedOrdersAreSound(d);
    SoundOrdersTell(d, accepted);
    FillsAreOrdered(d);
    OrdersShareTheFills(accepted, fills, symbol);
    BrokerIsDesk(d);
    DeskBalances(d);
    SplitKeepsTheTrades(DeskOf(d).trades, accepted, d.slices, d.market.lot, symbol);
  }

  // ---- every fill event is backed by the broker ----------------------------------------------------

  ghost predicate BackedBy(p: FillPayload, fills: seq<BrokerFill>) {
    exists f :: f in fills && f.fill == p && f.clientOrderId != ""
  }

  ghost predicate Backed(log: seq<Event>, fills: seq<BrokerFill>) {
    forall e | e in log :: !e.body.SnapshotSaved? && (FillOf(e).Some? ==> BackedBy(FillOf(e).value, fills))
  }

  lemma {:induction false} FillsWithMembers(fills: seq<BrokerFill>, id: string)
    ensures forall f :: f in FillsWith(fills, id) <==> f in fills && f.clientOrderId == id
  {
    if fills != [] { FillsWithMembers(fills[1..], id); }
  }

  lemma {:induction false} FillDraftsAreBacked(d: Day, o: Order, own: seq<BrokerFill>, fills: seq<BrokerFill>)
    requires forall f | f in own :: f in fills && f.clientOrderId != ""
    ensures Backed(FillDrafts(d, o, own), fills)
  {
    if own != [] {
      assert own[0] in own;
      FillDraftsAreBacked(d, o, own[1..], fills);
    }
  }

  lemma SettledIsBacked(d: Day, o: Order, report: Option<Report>, fills: seq<BrokerFill>)
    requires o.clientOrderId != ""
    ensures Backed(SettleOrder(d, o, report, FillsWith(fills, o.clientOrderId)).drafts, fills)
  {
    var own := FillsWith(fills, o.clientOrderId);
    FillsWithMembers(fills, o.clientOrderId);
    FillDraftsAreBacked(d, o, own, fills);
    SettledDrafts(d, o, report, own);
  }

  /** What an order's journal is made of. */
  lemma SettledDrafts(d: Day, o: Order, report: Option<Report>, own: seq<BrokerFill>)
    ensures forall e | e in SettleOrder(d, o, report, own).drafts ::
      e.body.OrderSubmitted? || e.body.OrderRejected? || e.body.BrokerExecution? || e in FillDrafts(d, o, own)
  {
  }

  lemma {:induction false} SettledAllIsBacked(d: Day, orders: seq<Order>, reports: seq<Report>, fills: seq<BrokerFill>)
    requires forall o | o in orders :: o.clientOrderId != ""
    ensures Backed(SettleAll(d, orders, reports, fills).drafts, fills)
  {
    if orders != [] {
      assert orders[0] in orders;
      SettledIsBacked(d, orders[0], ReportFor(reports, orders[0].clientOrderId), fills);
      SettledAllIsBacked(d, orders[1..], reports, fills);
    }
  }

  lemma JournalIsBacked(d: Day)
    requires d.market.lot >= 1
    ensures Backed(JournalOf(d).drafts, BrokerOf(d).fills)
  {
    GatedOrdersAreSound(d);
    SoundOrdersTell(d, Accepted(d));
    RejectionsFillNothing(d, Gated(d).refused);
    SettledAllIsBacked(d, Accepted(d), BrokerOf(d).reports, BrokerOf(d).fills);
  }

  /** A fill in the log is a piece of a trade somebody ordered. */
  lemma BackedFillIsOrdered(d: Day, p: FillPayload) returns (t: Trade)
    requires d.market.lot >= 1 && BackedBy(p, BrokerOf(d).fills)
    ensures t in DeskOf(d).trades && t.symbol == p.symbol && t.side == p.side && p.shares > 0
      && Ordered(Accepted(d), p.symbol, p.side)
  {
    var f :| f in BrokerOf(d).fills && f.fill == p && f.clientOrderId != "";
    BrokerIsDesk(d);
    DeskBalances(d);
    GatedOrdersAreSound(d);
    FillsComeFromTrades(DeskOf(d).trades, Accepted(d), d.slices, d.market.lot);
    t :| t in DeskOf(d).trades && PieceOf(f, t, Accepted(d));
    RequestedForFinds(Accepted(d), t.symbol, t.side);
  }
}
