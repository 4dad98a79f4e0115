/** What becomes of an accepted order in a rebalance (ez/live/oms.py, ez/live/paper_broker.py). */
module OrderOutcomes {
  import opened BrokerStatus
  import opened Options
  import opened Reals
  import opened Events
  import opened Ledger
  import opened LedgerInvariants
  import opened Orders
  import opened Execution
  import opened PaperBroker
  import opened ShareSlices
  import opened RiskGate
  import opened RiskLaws
  import opened Oms
  import opened OmsOrders
  import opened OmsTargets
  import opened OmsFills
  import opened OmsJournal
  import opened OmsReplay
  import LinkNames
  import LinkRuns
  import OrderLinks

  lemma {:induction false} ToldRecordOf(d: Day, orders: seq<Order>, fills: seq<BrokerFill>, o: Order)
    requires o in orders
    ensures Told(d, o, FillsWith(fills, o.clientOrderId)).records[0] in ToldAll(d, orders, fills).records
  {
    if o != orders[0] { ToldRecordOf(d, orders[1..], fills, o); }
  }

  lemma RecordedAsTold(d: Day, clock: nat -> int, o: Order)
    requires d.market.lot >= 1 && AllOrdered(d) && o in Accepted(d)
    ensures Told(d, o, FillsWith(BrokerOf(d).fills, o.clientOrderId)).records[0] in Rebalance(d, clock).records
  {
    JournalIsTold(d);
    ToldRecordOf(d, Accepted(d), BrokerOf(d).fills, o);
  }

  lemma ToldOfTrade(d: Day, o: Order, own: seq<BrokerFill>, t: Trade)
    requires SplitOf(own, t, o.clientOrderId, o.shares)
    ensures Told(d, o, own).records[0] == Record(o, FillStatus(t, o), Most(o.shares - t.shares, 0))
  {
  }

  lemma ToldOfNothing(d: Day, o: Order)
    ensures Told(d, o, []).records[0] == Record(o, Rejected, o.shares)
  {
  }

  /** An accepted order is rejected when no trade was made for it, else partially or completely filled
      according to the trade's shares. */
  lemma AcceptedOrderStatus(d: Day, clock: nat -> int, o: Order)
    requires d.market.lot >= 1 && AllOrdered(d) && o in Accepted(d)
    ensures (forall t | t in DeskOf(d).trades :: !Serves(t, o))
      ==> Record(o, Rejected, o.shares) in Rebalance(d, clock).records
    ensures forall t | t in DeskOf(d).trades && Serves(t, o) ::
      Record(o, FillStatus(t, o), Most(o.shares - t.shares, 0)) in Rebalance(d, clock).records
  {
    ServedIsRecorded(d, o, FillsWith(BrokerOf(d).fills, o.clientOrderId), DeskOf(d).trades,
                     Rebalance(d, clock).records) by {
      RecordedAsTold(d, clock, o);
      OwnFillsOf(d, o);
    }
  }

  lemma ServedIsRecorded(d: Day, o: Order, own: seq<BrokerFill>, trades: seq<Trade>, records: seq<Record>)
    requires Told(d, o, own).records[0] in records
    requires (forall t | t in trades :: !Serves(t, o)) ==> own == []
    requires forall t | t in trades && Serves(t, o) :: SplitOf(own, t, o.clientOrderId, o.shares)
    ensures (forall t | t in trades :: !Serves(t, o)) ==> Record(o, Rejected, o.shares) in records
    ensures forall t | t in trades && Serves(t, o) ::
      Record(o, FillStatus(t, o), Most(o.shares - t.shares, 0)) in records
  {
    ToldOfNothing(d, o);
    forall t | t in trades && Serves(t, o)
      ensures Record(o, FillStatus(t, o), Most(o.shares - t.shares, 0)) in records
    {
      ToldOfTrade(d, o, own, t);
    }
  }

  /** The broker sells no more than a sell order asked for exactly when there is equity or nothing was to be kept:
      without equity it is asked to hold nothing. It never buys more than a buy order asked for, unless the order was
      to leave a short position, which the broker is asked to close. */
  lemma TradeWithinOrder(d: Day, o: Order, t: Trade)
    requires d.market.lot >= 1 && d.market.costs.buyRate >= 0.0
    requires o in Accepted(d) && t in DeskOf(d).trades && Serves(t, o)
    ensures o.side.Sell? ==> (t.shares <= o.shares <==> d.equity > 0.0 || Held(DesiredTarget(d), o.symbol) <= 0)
    ensures o.side.Buy? && Held(DesiredTarget(d), o.symbol) >= 0 ==> t.shares <= o.shares
  {
    var weights, s := AcceptedWeights(d, Accepted(d)), o.symbol;
    var now, want, target := Held(d.holdings, s), Held(DesiredTarget(d), s), Held(TargetAfter(d, Accepted(d)), s);
    ExecutionFits(d.market, weights, d.holdings, d.equity, d.cash);
    ExecutionTrades(d.market, weights, d.holdings, d.equity, d.cash, s);
    assert Traded(DeskOf(d), s, t.side);
    assert o.shares > 0 && now + Delta(o) == want by { OrderFollows(d, o); }
    assert target == if d.equity > 0.0 && want > 0 then want else 0 by { AskedTarget(d, o); }
  }

  /** What the broker is asked to hold of an ordered symbol: what was wanted, if that is long and there is equity. */
  lemma AskedTarget(d: Day, o: Order)
    requires d.market.lot >= 1 && o in Accepted(d)
    ensures var want := Held(DesiredTarget(d), o.symbol);
      Held(TargetAfter(d, Accepted(d)), o.symbol) == if d.equity > 0.0 && want > 0 then want else 0
  {
    var want := Held(DesiredTarget(d), o.symbol);
    DesiredAt(d, o.symbol);
    TargetAt(d, Accepted(d), o.symbol);
    ProjectedIs(d, o);
    if want > 0 { WholeLotsFit(want, d.market.lot); }
  }

  lemma OrderFollows(d: Day, o: Order)
    requires d.market.lot >= 1 && o in Accepted(d)
    ensures Follows(d, DesiredTarget(d), o)
  {
    GatedOrdersAreSound(d);
  }

  lemma ProjectedIs(d: Day, o: Order)
    requires d.market.lot >= 1 && o in Accepted(d)
    ensures Held(Projected(d.holdings, Accepted(d)), o.symbol) == Most(Held(DesiredTarget(d), o.symbol), 0)
  {
    GatedOrdersAreSound(d);
    OrderFollows(d, o);
    ProjectedAt(d.holdings, Accepted(d), o.symbol);
  }

  // ---- the report of an accepted order -----------------------------------------------------------------

  lemma {:induction false} AmountIsMoney(fills: seq<BrokerFill>)
    ensures AmountIn(fills) == MoneyIn(fills).amount
  {
    if fills != [] { AmountIsMoney(fills[1..]); }
  }

  /** The report of an order that a trade served tells that trade's shares and average price, for any number of
      slices. */
  lemma ReportTellsTheTrade(d: Day, o: Order, t: Trade)
    requires d.market.lot >= 1 && AllOrdered(d)
    requires o in Accepted(d) && t in DeskOf(d).trades && Serves(t, o)
    ensures ReportFor(BrokerOf(d).reports, o.clientOrderId) == Some(ReportOf(o, BrokerOf(d).fills))
    ensures var r := ReportOf(o, BrokerOf(d).fills);
      r.filledShares == t.shares > 0 && r.remainingShares == Most(o.shares - t.shares, 0)
        && r.price == t.amount / t.shares as real
  {
    ReportIsFound(d, o);
    OwnMoney(d, o, t);
    FillsHaveIds(d);
    FillsKeyedIsFillsWith(BrokerOf(d).fills, o.clientOrderId);
  }

  lemma ReportIsFound(d: Day, o: Order)
    requires d.market.lot >= 1 && o in Accepted(d)
    ensures ReportFor(BrokerOf(d).reports, o.clientOrderId) == Some(ReportOf(o, BrokerOf(d).fills))
  {
    GatedOrdersAreSound(d);
    SoundOrdersTell(d, Accepted(d));
    BrokerIsDesk(d);
    OrdersReport(Accepted(d), BrokerOf(d).fills, o);
  }

  lemma FillsHaveIds(d: Day)
    requires d.market.lot >= 1 && AllOrdered(d)
    ensures forall f | f in BrokerOf(d).fills :: f.clientOrderId != ""
  {
    FillsAreOrdered(d);
    GatedOrdersAreSound(d);
    SoundOrdersTell(d, Accepted(d));
  }

  lemma OwnMoney(d: Day, o: Order, t: Trade)
    requires d.market.lot >= 1 && o in Accepted(d) && t in DeskOf(d).trades && Serves(t, o)
    ensures var own := FillsWith(BrokerOf(d).fills, o.clientOrderId);
      own != [] && SharesIn(own) == t.shares > 0 && AmountIn(own) == t.amount
  {
    var own := FillsWith(BrokerOf(d).fills, o.clientOrderId);
    assert SplitOf(own, t, o.clientOrderId, o.shares) by { OwnFillsOf(d, o); }
    assert t.shares > 0 by { DeskBalances(d); }
    assert own == SplitTrade(t, Accepted(d), d.slices, d.market.lot) by { OwnIsSplit(d, o, t); }
    SplitKeepsTheMoney(t, Accepted(d), d.slices, d.market.lot);
    AmountIsMoney(own);
  }

  lemma OwnIsSplit(d: Day, o: Order, t: Trade)
    requires d.market.lot >= 1 && o in Accepted(d) && t in DeskOf(d).trades && Serves(t, o)
    ensures FillsWith(BrokerOf(d).fills, o.clientOrderId) == SplitTrade(t, Accepted(d), d.slices, d.market.lot)
  {
    BrokerIsDesk(d);
    DeskBalances(d);
    GatedOrdersAreSound(d);
    SoundOrdersTell(d, Accepted(d));
    FillsOfOrder(DeskOf(d).trades, Accepted(d), d.slices, d.market.lot, o);
  }

  /** The fill is the order's: by the client's id, or by symbol and side when it has none. */
  predicate Concerns(f: BrokerFill, o: Order) {
    var side := if f.fill.side == Buy then "buy" else "sell";
    o.clientOrderId == if f.clientOrderId != "" then f.clientOrderId else f.fill.symbol + ":" + side
  }

  /** The shares of the order's fills. */
  function SharesOf(fills: seq<BrokerFill>, o: Order): int {
    if fills == [] then 0 else (if Concerns(fills[0], o) then fills[0].fill.shares else 0) + SharesOf(fills[1..], o)
  }

  /** And their amount. */
  function AmountOf(fills: seq<BrokerFill>, o: Order): real {
    if fills == [] then 0.0
    else (if Concerns(fills[0], o) then fills[0].fill.amount else 0.0) + AmountOf(fills[1..], o)
  }

  lemma {:induction false} KeyedAreConcerned(fills: seq<BrokerFill>, o: Order)
    ensures SharesIn(FillsKeyed(fills, o.clientOrderId)) == SharesOf(fills, o)
    ensures AmountIn(FillsKeyed(fills, o.clientOrderId)) == AmountOf(fills, o)
    ensures FillsKeyed(fills, o.clientOrderId) == [] <==> forall f | f in fills :: !Concerns(f, o)
  {
    if fills != [] {
      KeyedAreConcerned(fills[1..], o);
      assert ReportKey(fills[0]) == o.clientOrderId <==> Concerns(fills[0], o);
      FirstKeyed(fills, o.clientOrderId);
    }
  }

  lemma FirstKeyed(fills: seq<BrokerFill>, key: string)
    requires fills != []
    ensures SharesIn(FillsKeyed(fills, key))
      == (if ReportKey(fills[0]) == key then fills[0].fill.shares else 0) + SharesIn(FillsKeyed(fills[1..], key))
    ensures AmountIn(FillsKeyed(fills, key))
      == (if ReportKey(fills[0]) == key then fills[0].fill.amount else 0.0) + AmountIn(FillsKeyed(fills[1..], key))
    ensures ReportKey(fills[0]) == key ==> FillsKeyed(fills, key) != []
  {
    var rest := FillsKeyed(fills[1..], key);
    if ReportKey(fills[0]) == key {
      assert ([fills[0]] + rest)[1..] == rest;
    } else {
      assert [] + rest == rest;
    }
  }

  /** The broker's report of an order counts the fills that are the order's, with their average price, and its word says
      what they are of it: none, a part or the whole. */
  lemma ReportWordTells(o: Order, fills: seq<BrokerFill>)
    ensures var r := ReportOf(o, fills);
      && r.clientOrderId == o.clientOrderId && r.filledShares == SharesOf(fills, o)
      && r.remainingShares == Most(o.shares - SharesOf(fills, o), 0)
      && (if r.filledShares > 0 then Weighed(r.price, r.filledShares as real) == AmountOf(fills, o) else r.price == 0.0)
      && r.status == if forall f | f in fills :: !Concerns(f, o) then "rejected"
                     else if SharesOf(fills, o) < o.shares then "partially_filled" else "filled"
  {
    KeyedAreConcerned(fills, o);
    AverageIs(AmountOf(fills, o), SharesOf(fills, o));
  }

  lemma AverageIs(amount: real, shares: int)
    ensures shares > 0 ==> Weighed(amount / shares as real, shares as real) == amount
  {
  }

  // ---- an order that is only submitted -----------------------------------------------------------------

  /** The shares a submission leaves open: those reported, or the whole order. */
  function LeftOpen(o: Order, r: PaperBroker.Report): int {
    if r.remainingShares != 0 then r.remainingShares else o.shares
  }

  /** What replaying an acknowledged submission shows: the order as submitted, or further if the word says so, and under
      the broker's id the reported status with nothing filled and the shares left open. */
  ghost predicate ShowsSubmission(a: Account, o: Order, r: PaperBroker.Report) {
    var status := Normalize(r.status, 0, LeftOpen(o, r));
    && Get(a.orderStatuses, o.clientOrderId)
         == Some(if LocalRank(ToOrderStatus(status)) > LocalRank(Submitted) then ToOrderStatus(status) else Submitted)
    && r.brokerOrderId in a.brokerOrders
    && var row := a.brokerOrders[r.brokerOrderId];
       && row.status == status && row.clientOrderId == o.clientOrderId && row.filledShares == 0
       && row.remainingShares == LeftOpen(o, r) && row.avgPrice == r.price
  }

  /** An order whose report only tells of its submission is recorded as submitted with its shares left open; its log
      moves no money and replays to the broker's acknowledgement. */
  lemma SubmissionIsAcknowledged(d: Day, o: Order, r: PaperBroker.Report, own: seq<BrokerFill>, cash: real,
                                 holdings: map<string, int>)
    requires r.filledShares <= 0 && IsSubmissionOnly(Normalize(r.status, r.filledShares, r.remainingShares))
    requires o.clientOrderId != "" && r.brokerOrderId != ""
    ensures var j := SettleOrder(d, o, Some(r), own);
      var a := Fold(Opening(cash, holdings), j.drafts);
      && j.records == [Record(o, Submitted, LeftOpen(o, r))] && j.fills == []
      && a.cash == cash && a.holdings == holdings && ShowsSubmission(a, o, r)
  {
    var j := SettleOrder(d, o, Some(r), own);
    var first, second := SubmittedDraft(d, o), AckDrafts(d, o, r)[0];
    assert j.drafts == [first] + [second];
    FoldStep(Opening(cash, holdings), first, [second]);
    OneEvent(Apply(Opening(cash, holdings), first), second);
  }

  /** Without a broker's id nothing is acknowledged: the log only says that the order was submitted. */
  lemma SubmissionWithoutId(d: Day, o: Order, r: PaperBroker.Report, own: seq<BrokerFill>, cash: real,
                            holdings: map<string, int>)
    requires r.filledShares <= 0 && IsSubmissionOnly(Normalize(r.status, r.filledShares, r.remainingShares))
    requires o.clientOrderId != "" && r.brokerOrderId == ""
    ensures var j := SettleOrder(d, o, Some(r), own);
      && j.records == [Record(o, Submitted, LeftOpen(o, r))] && j.fills == []
      && Fold(Opening(cash, holdings), j.drafts)
           == Opening(cash, holdings).(orderStatuses := map[o.clientOrderId := Submitted])
  {
    assert SettleOrder(d, o, Some(r), own).drafts == [SubmittedDraft(d, o)];
    OneEvent(Opening(cash, holdings), SubmittedDraft(d, o));
  }

  /** An order with fills is recorded as filled whatever the word of its report says but "partially_filled", and the
      fills of its log are its own, in order. */
  lemma FilledReportIsRecorded(d: Day, o: Order, r: PaperBroker.Report, own: seq<BrokerFill>, symbol: string)
    requires r.filledShares > 0
    ensures var j := SettleOrder(d, o, Some(r), own);
      && j.records == [Record(o, if r.status == "partially_filled" then PartFilled else FullyFilled, r.remainingShares)]
      && j.fills == own && FillsIn(j.drafts) == Payloads(own)
  {
    var j := SettleOrder(d, o, Some(r), own);
    assert j.drafts == [SubmittedDraft(d, o)] + FillDrafts(d, o, own);
    assert j.drafts[1..] == FillDrafts(d, o, own);
    DraftsOfFills(d, o, own);
  }

  function Payloads(fills: seq<BrokerFill>): seq<FillPayload> {
    if fills == [] then [] else [fills[0].fill] + Payloads(fills[1..])
  }

  lemma {:induction false} DraftsOfFills(d: Day, o: Order, fills: seq<BrokerFill>)
    ensures FillsIn(FillDrafts(d, o, fills)) == Payloads(fills)
  {
    if fills != [] {
      DraftsOfFills(d, o, fills[1..]);
      assert FillDrafts(d, o, fills)[1..] == FillDrafts(d, o, fills[1..]);
    }
  }

  /** The volume of a rebalance is the amount of the broker's trades; nothing without an accepted order. */
  lemma RebalanceVolumeIsTraded(d: Day, clock: nat -> int)
    requires d.market.lot >= 1
    ensures Rebalance(d, clock).volume == AmountsOf(DeskOf(d).trades)
    ensures Accepted(d) == [] ==> DeskOf(d).trades == [] && Rebalance(d, clock).volume == 0.0
  {
    if Accepted(d) != [] { VolumeIsTraded(d.market, AcceptedWeights(d, Accepted(d)), d.holdings, d.equity, d.cash); }
  }

  /** The acknowledgement of a submission lets the store know the order: whatever it held, its row of the order then has
      the broker's id and the symbol. */
  lemma SubmissionIsLinked(s: OrderLinks.Store, d: Day, o: Order, r: PaperBroker.Report, ts: int)
    requires o.clientOrderId != "" && r.brokerOrderId != "" && o.symbol != ""
    ensures var row := OrderLinks.Get(OrderLinks.Append(s, AckDrafts(d, o, r)[0].(ts := ts)).links,
                                      OrderLinks.LinkKey(d.deployment, "paper", o.clientOrderId));
      row.Some? && row.value.brokerOrderId == r.brokerOrderId && row.value.symbol == o.symbol
  {
    LinkNames.RowIsCorrected(s, AckDrafts(d, o, r)[0].(ts := ts),
                             OrderLinks.LinkKey(d.deployment, "paper", o.clientOrderId));
    AckIsReport(d, o, r, ts, OrderLinks.LinkKey(d.deployment, "paper", o.clientOrderId));
  }

  lemma AckIsReport(d: Day, o: Order, r: PaperBroker.Report, ts: int, key: OrderLinks.LinkKey)
    requires o.clientOrderId != "" && r.brokerOrderId != ""
    requires key == OrderLinks.LinkKey(d.deployment, "paper", o.clientOrderId)
    ensures LinkRuns.Reports(AckDrafts(d, o, r)[0].(ts := ts), key)
  {
    var id := "submit_ack:" + r.brokerOrderId;
    assert |id| >= 11;
  }
}
