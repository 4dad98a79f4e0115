/** The end-to-end result: a paper rebalance's log replays to the OMS's own cash, holdings and order statuses,
    exactly when the broker sells nothing that no order asked for. */
module RebalanceReplay {
  import opened Options
  import opened Events
  import opened Ledger
  import opened Orders
  import opened Flows
  import opened Execution
  import opened PaperBroker
  import opened RiskGate
  import opened RiskLaws
  import opened Lists
  import opened Oms
  import opened OmsOrders
  import opened OmsTargets
  import opened OmsFills
  import opened OmsJournal
  import opened OmsReplay
  import opened LedgerReplay
  import Sorting

  // ---- from drafts to the replayed log -----------------------------------------------------------

  lemma StampAt(drafts: seq<Event>, from: nat, clock: nat -> int)
    ensures |Stamp(drafts, from, clock)| == |drafts|
    ensures forall i | 0 <= i < |drafts| :: Stamp(drafts, from, clock)[i] == drafts[i].(ts := clock(from + i))
  {
  }

  lemma {:induction false} StampMoves(drafts: seq<Event>, from: nat, clock: nat -> int, symbol: string)
    ensures Total(Stamp(drafts, from, clock), EventMove(symbol)) == Total(drafts, EventMove(symbol))
  {
    if drafts != [] {
      var rest := Stamp(drafts[1..], from + 1, clock);
      StampMoves(drafts[1..], from + 1, clock, symbol);
      FirstStamped(drafts, from, clock);
      TotalOfCons(drafts[0].(ts := clock(from)), rest, EventMove(symbol));
      StampKeepsMove(drafts[0], clock(from), symbol);
    }
  }

  lemma FirstStamped(drafts: seq<Event>, from: nat, clock: nat -> int)
    requires drafts != []
    ensures Stamp(drafts, from, clock) == [drafts[0].(ts := clock(from))] + Stamp(drafts[1..], from + 1, clock)
  {
  }

  lemma StampKeepsMove(e: Event, ts: int, symbol: string)
    ensures EventMove(symbol)(e.(ts := ts)) == EventMove(symbol)(e)
  {
  }

  /** The events in the order replay applies them. */
  function InReplayOrder(events: seq<Event>): seq<Event> { Dedup(Sorting.Sort(events, KeyLess), {}) }

  lemma {:induction false} DedupTakesFrom(events: seq<Event>, seen: set<string>)
    ensures forall e | e in Dedup(events, seen) :: e in events
  {
    if events != [] {
      DedupTakesFrom(events[1..], seen);
      DedupTakesFrom(events[1..], seen + {events[0].id});
    }
  }

  lemma ReplayTakesFrom(events: seq<Event>)
    ensures forall e | e in InReplayOrder(events) :: e in events
  {
    Sorting.SameElements(events, KeyLess);
    DedupTakesFrom(Sorting.Sort(events, KeyLess), {});
  }

  /** A log of distinct ids is replayed whole. */
  lemma ReplayedWhole(events: seq<Event>)
    requires DistinctIds(events) && forall e | e in events :: e.id != ""
    ensures multiset(InReplayOrder(events)) == multiset(events)
    ensures forall e :: e in InReplayOrder(events) <==> e in events
  {
    forall e, f | e in events && f in events ensures e.id == f.id ==> e == f {
      var i, j :| 0 <= i < |events| && 0 <= j < |events| && events[i] == e && events[j] == f;
    }
    NormalLog(events);
    var log := InReplayOrder(events);
    forall i, j | 0 <= i < j < |log| ensures log[i] != log[j] { KeyLessIsWeakOrder(); assert KeyLess(log[i], log[j]); }
    SameElementsSameMultiset(log, events);
  }

  lemma NamedIsNotBlank(e: Event, o: Order)
    requires OfOrder(e, o)
    ensures e.id != ""
  {
    var kind, slice, slices :| Named(e, kind, slice, slices);
    KindFacts(kind);
  }

  /** The log of the rebalance as replay goes through it. */
  ghost function LogOf(d: Day, clock: nat -> int): seq<Event>
    requires d.market.lot >= 1
  {
    InReplayOrder(Rebalance(d, clock).events)
  }

  lemma LogIsWhole(d: Day, clock: nat -> int)
    requires d.market.lot >= 1 && AllOrdered(d)
    ensures multiset(LogOf(d, clock)) == multiset(Rebalance(d, clock).events)
    ensures forall e :: e in LogOf(d, clock) <==> e in Rebalance(d, clock).events
  {
    var drafts, events := JournalOf(d).drafts, Rebalance(d, clock).events;
    StampedAreNamed(d, clock);
    assert DistinctIds(events) by {
      JournalIsTold(d);
      StampAt(drafts, 0, clock);
    }
    ReplayedWhole(events);
  }

  /** The draft that an emitted event is, and the order it belongs to. */
  lemma DraftOf(d: Day, clock: nat -> int, e: Event) returns (i: nat, o: Order)
    requires d.market.lot >= 1 && AllOrdered(d) && e in Rebalance(d, clock).events
    ensures var drafts := JournalOf(d).drafts;
      i < |drafts| && e == drafts[i].(ts := clock(i)) && OfOrder(drafts[i], o)
    ensures o in OrdersOf(Gated(d).refused) + Accepted(d)
  {
    var drafts, events := JournalOf(d).drafts, Rebalance(d, clock).events;
    JournalIsTold(d);
    StampAt(drafts, 0, clock);
    i :| 0 <= i < |events| && events[i] == e;
    assert drafts[i] in drafts;
    o :| o in OrdersOf(Gated(d).refused) + Accepted(d) && OfOrder(drafts[i], o);
  }

  lemma StampedAreNamed(d: Day, clock: nat -> int)
    requires d.market.lot >= 1 && AllOrdered(d)
    ensures forall e | e in Rebalance(d, clock).events :: e.id != ""
  {
    forall e | e in Rebalance(d, clock).events ensures e.id != "" {
      var i, o := DraftOf(d, clock, e);
      NamedIsNotBlank(JournalOf(d).drafts[i], o);
    }
  }

  lemma StampedIsBacked(drafts: seq<Event>, clock: nat -> int, fills: seq<BrokerFill>)
    requires Backed(drafts, fills)
    ensures Backed(Stamp(drafts, 0, clock), fills)
  {
    StampAt(drafts, 0, clock);
    var events := Stamp(drafts, 0, clock);
    forall e | e in events ensures !e.body.SnapshotSaved? && (FillOf(e).Some? ==> BackedBy(FillOf(e).value, fills)) {
      var i :| 0 <= i < |events| && events[i] == e;
      assert drafts[i] in drafts;
    }
  }

  lemma LogIsBacked(d: Day, clock: nat -> int)
    requires d.market.lot >= 1
    ensures Backed(LogOf(d, clock), BrokerOf(d).fills)
  {
    JournalIsBacked(d);
    StampedIsBacked(JournalOf(d).drafts, clock, BrokerOf(d).fills);
    ReplayTakesFrom(Rebalance(d, clock).events);
  }

  // ---- cash and holdings ---------------------------------------------------------------------------

  ghost function SideIn(d: Day, symbol: string): Side
    requires d.market.lot >= 1
  {
    if Traded(DeskOf(d), symbol, Buy) then Buy else Sell
  }

  lemma OneTradeASymbol(d: Day, t: Trade, u: Trade)
    requires d.market.lot >= 1 && t in DeskOf(d).trades && u in DeskOf(d).trades && t.symbol == u.symbol
    ensures t == u
  {
    assert Proper(DeskOf(d).trades) by { DeskBalances(d); }
    ProperIsOnce(DeskOf(d).trades, t, u);
  }

  lemma ProperIsOnce(trades: seq<Trade>, t: Trade, u: Trade)
    requires Proper(trades) && t in trades && u in trades && t.symbol == u.symbol
    ensures t == u
  {
    var i, j :| 0 <= i < |trades| && 0 <= j < |trades| && trades[i] == t && trades[j] == u;
  }

  lemma LogIsOneSided(d: Day, clock: nat -> int, symbol: string)
    requires d.market.lot >= 1
    ensures OrderLog(LogOf(d, clock)) && OneSided(LogOf(d, clock), symbol, SideIn(d, symbol))
  {
    LogIsBacked(d, clock);
    forall e | e in LogOf(d, clock) && FillOf(e).Some?
      ensures FillOf(e).value.shares > 0
        && (FillOf(e).value.symbol == symbol ==> FillOf(e).value.side == SideIn(d, symbol))
    {
      var t := BackedFillIsOrdered(d, FillOf(e).value);
      if t.symbol == symbol && Traded(DeskOf(d), symbol, Buy) {
        var u :| u in DeskOf(d).trades && u.symbol == symbol && u.side == Buy;
        OneTradeASymbol(d, t, u);
      }
    }
  }

  /** What replay makes of the account. */
  ghost function Replayed(d: Day, clock: nat -> int): Account
    requires d.market.lot >= 1
  {
    Replay(Rebalance(d, clock).events, d.cash, d.holdings)
  }

  lemma ReplayedMoves(d: Day, clock: nat -> int, symbol: string)
    requires d.market.lot >= 1
    ensures var m := Total(LogOf(d, clock), EventMove(symbol));
      Replayed(d, clock).cash == d.cash + m.cash
        && Get(Replayed(d, clock).holdings, symbol) == Netted(Get(d.holdings, symbol), m)
  {
    LogIsOneSided(d, clock, symbol);
    LogMoves(Opening(d.cash, d.holdings), LogOf(d, clock), symbol, SideIn(d, symbol));
  }

  /** The log moves what the trades moved. */
  lemma LogMovesTheTrades(d: Day, clock: nat -> int, symbol: string)
    requires d.market.lot >= 1 && AllOrdered(d)
    ensures Total(LogOf(d, clock), EventMove(symbol)) == Total(DeskOf(d).trades, TradeMove(symbol))
  {
    LogIsWhole(d, clock);
    TotalOfRearranged(LogOf(d, clock), Rebalance(d, clock).events, EventMove(symbol));
    StampMoves(JournalOf(d).drafts, 0, clock, symbol);
    JournalMoves(d, symbol);
  }

  lemma AccountReplays(d: Day, clock: nat -> int, symbol: string)
    requires d.market.lot >= 1 && AllOrdered(d)
    ensures Replayed(d, clock).cash == DeskOf(d).cash
    ensures Get(Replayed(d, clock).holdings, symbol) == Get(DeskOf(d).holdings, symbol)
  {
    LogMovesTheTrades(d, clock, symbol);
    ReplayedMoves(d, clock, symbol);
    DeskBalances(d);
  }

  lemma CashAndHoldingsReplay(d: Day, clock: nat -> int)
    requires d.market.lot >= 1 && AllOrdered(d)
    ensures Replayed(d, clock).cash == Rebalance(d, clock).cash
    ensures Replayed(d, clock).holdings == Rebalance(d, clock).holdings
  {
    AccountReplays(d, clock, "");
    forall s ensures Get(Replayed(d, clock).holdings, s) == Get(DeskOf(d).holdings, s) { AccountReplays(d, clock, s); }
    SameEverywhere(Replayed(d, clock).holdings, DeskOf(d).holdings);
    BrokerIsDesk(d);
  }

  lemma SameEverywhere(a: map<string, int>, b: map<string, int>)
    requires forall s :: Get(a, s) == Get(b, s)
    ensures a == b
  {
    forall s ensures s in a <==> s in b { assert Get(a, s) == Get(b, s); }
    forall s | s in a ensures a[s] == b[s] { assert Get(a, s) == Get(b, s); }
  }

  // ---- statuses ------------------------------------------------------------------------------------

  /** Timestamps and order do not matter to where the events lead. */
  lemma StampedLeads(drafts: seq<Event>, clock: nat -> int, log: seq<Event>, r: Record)
    requires LeadsTo(drafts, r) && forall e :: e in log <==> e in Stamp(drafts, 0, clock)
    ensures LeadsTo(log, r)
  {
    var events, key := Stamp(drafts, 0, clock), r.order.clientOrderId;
    StampAt(drafts, 0, clock);
    forall e | e in log && Asks(e, key)
      ensures Requested(e).value.1 == r.status || LocalRank(Requested(e).value.1) < LocalRank(r.status)
    {
      var i :| 0 <= i < |events| && events[i] == e;
      assert drafts[i] in drafts && Requested(drafts[i]) == Requested(e);
    }
    var x :| x in drafts && Requested(x) == Some((key, r.status));
    var i :| 0 <= i < |drafts| && drafts[i] == x;
    assert events[i] in log && Requested(events[i]) == Some((key, r.status));
  }

  lemma StatusReplays(d: Day, clock: nat -> int, r: Record)
    requires d.market.lot >= 1 && AllOrdered(d) && r in Rebalance(d, clock).records
    ensures Get(Replayed(d, clock).orderStatuses, r.order.clientOrderId) == Some(r.status)
  {
    JournalIsTold(d);
    LogIsWhole(d, clock);
    StampedLeads(JournalOf(d).drafts, clock, LogOf(d, clock), r);
    RecordsHaveIds(d, r);
    FurthestStatusWins(Opening(d.cash, d.holdings), LogOf(d, clock), r.order.clientOrderId, r.status);
  }

  lemma RecordsHaveIds(d: Day, r: Record)
    requires d.market.lot >= 1 && AllOrdered(d) && r in JournalOf(d).records
    ensures r.order in OrdersOf(Gated(d).refused) + Accepted(d) && r.order.clientOrderId != ""
  {
    var all := OrdersOf(Gated(d).refused) + Accepted(d);
    RecordIsOfAnOrder(JournalOf(d), all, r) by { JournalIsTold(d); }
    assert IdsTell(all) by {
      GatedOrdersAreSound(d);
      SoundOrdersTell(d, all);
    }
  }

  /** The OMS reported an order with this id. */
  ghost predicate Reported(records: seq<Record>, key: string) {
    exists x :: x in records && x.order.clientOrderId == key
  }

  /** No order gets a status but those the OMS reported. */
  lemma OnlyReportedReplay(d: Day, clock: nat -> int, key: string)
    requires d.market.lot >= 1 && AllOrdered(d) && !Reported(JournalOf(d).records, key)
    ensures key !in Replayed(d, clock).orderStatuses
  {
    forall e | e in LogOf(d, clock) ensures !Asks(e, key) {
      LogIsWhole(d, clock);
      var o := StampedIsOfOrder(d, clock, e);
    }
    UnaskedStatusStays(Opening(d.cash, d.holdings), LogOf(d, clock), key);
  }

  /** Every event of the log asks, if at all, about a reported order. */
  lemma StampedIsOfOrder(d: Day, clock: nat -> int, e: Event) returns (o: Order)
    requires d.market.lot >= 1 && AllOrdered(d) && e in Rebalance(d, clock).events
    ensures e.clientOrderId == o.clientOrderId && IsOrderEvent(e.body)
      && Reported(JournalOf(d).records, o.clientOrderId)
  {
    var i;
    i, o := DraftOf(d, clock, e);
    OrderIsReported(d, o);
  }

  lemma OrderIsReported(d: Day, o: Order)
    requires d.market.lot >= 1 && AllOrdered(d) && o in OrdersOf(Gated(d).refused) + Accepted(d)
    ensures Reported(JournalOf(d).records, o.clientOrderId)
  {
    var records, orders := JournalOf(d).records, OrdersOf(Gated(d).refused) + Accepted(d);
    JournalIsTold(d);
    var k :| 0 <= k < |orders| && orders[k] == o;
    assert records[k] in records && records[k].order == o;
  }

  lemma RecordIsOfAnOrder(j: Journal, orders: seq<Order>, r: Record)
    requires Truthful(j, orders) && r in j.records
    ensures r.order in orders
  {
    var i :| 0 <= i < |j.records| && j.records[i] == r;
    assert orders[i] in orders;
  }

  // ---- the result ------------------------------------------------------------------------------------

  /** Replay gives back what the OMS reported: cash, holdings and the status of every order, and of no other. */
  ghost predicate GivesBack(a: Account, r: Outcome) {
    && a.cash == r.cash && a.holdings == r.holdings
    && (forall x | x in r.records :: Get(a.orderStatuses, x.order.clientOrderId) == Some(x.status))
    && forall key | key in a.orderStatuses :: Reported(r.records, key)
  }

  /** A trade nobody ordered leaves no trace in the log: the replayed position stays where it was. */
  lemma UnorderedTradeIsNotReplayed(d: Day, clock: nat -> int, u: Trade)
    requires d.market.lot >= 1 && u in DeskOf(d).trades && !Ordered(Accepted(d), u.symbol, u.side)
    ensures Get(Replayed(d, clock).holdings, u.symbol) == Get(d.holdings, u.symbol) != Get(Rebalance(d, clock).holdings,
        u.symbol)
  {
    var log := LogOf(d, clock);
    LogIsBacked(d, clock);
    forall e | e in log && FillOf(e).Some? ensures FillOf(e).value.symbol != u.symbol {
      var t := BackedFillIsOrdered(d, FillOf(e).value);
      if t.symbol == u.symbol { OneTradeASymbol(d, t, u); }
    }
    NotAboutSymbol(log, u.symbol);
    ReplayedMoves(d, clock, u.symbol);
    TradeChangesPosition(d, u);
    BrokerIsDesk(d);
  }

  /** A stray sale leaves the replayed position where it was, while the OMS reports it smaller. */
  lemma StraySaleIsNotReplayed(d: Day, clock: nat -> int, s: string)
    requires d.market.lot >= 1 && StraySale(d, s)
    ensures Held(Rebalance(d, clock).holdings, s) < Held(Replayed(d, clock).holdings, s) == Held(d.holdings, s)
  {
    StraySaleIsTraded(d, s);
    var u :| u in DeskOf(d).trades && u.symbol == s && u.side == Sell;
    UnorderedTradeIsNotReplayed(d, clock, u);
    TradeChangesPosition(d, u);
    BrokerIsDesk(d);
    assert Get(Replayed(d, clock).holdings, s) == Get(d.holdings, s);
  }

  lemma {:induction false} NotAboutSymbol(log: seq<Event>, symbol: string)
    requires forall e | e in log && FillOf(e).Some? :: FillOf(e).value.symbol != symbol
    ensures Total(log, EventMove(symbol)).bought == 0 && Total(log, EventMove(symbol)).sold == 0
  {
    if log != [] {
      var e, rest := log[0], log[1..];
      assert log == [e] + rest && e in log;
      NotAboutSymbol(rest, symbol);
      TotalOfCons(e, rest, EventMove(symbol));
      MovesElsewhere(e, symbol);
    }
  }

  lemma MovesElsewhere(e: Event, symbol: string)
    requires FillOf(e).Some? ==> FillOf(e).value.symbol != symbol
    ensures EventMove(symbol)(e).bought == 0 && EventMove(symbol)(e).sold == 0
  {
  }

  /** The only trade in its symbol moves its own shares. */
  lemma {:induction false} OnlyTradeMoves(trades: seq<Trade>, t: Trade)
    requires Proper(trades) && t in trades
    ensures var m := Total(trades, TradeMove(t.symbol));
      m.bought == (if t.side.Buy? then t.shares else 0) && m.sold == if t.side.Sell? then t.shares else 0
  {
    var rest := trades[1..];
    ProperTail(trades);
    if t == trades[0] {
      NothingMovedYet(rest, t.symbol);
    } else {
      assert t in rest;
      OnlyTradeMoves(rest, t);
    }
  }

  /** Every trade changes its position, a sale makes it smaller. */
  lemma TradeChangesPosition(d: Day, t: Trade)
    requires d.market.lot >= 1 && t in DeskOf(d).trades
    ensures Get(DeskOf(d).holdings, t.symbol) != Get(d.holdings, t.symbol)
    ensures t.side.Sell? ==> Held(DeskOf(d).holdings, t.symbol) < Held(d.holdings, t.symbol)
  {
    DeskBalances(d);
    OnlyTradeMoves(DeskOf(d).trades, t);
    assert t.shares > 0;
    if t.side.Sell? { SaleIsOfLong(d, t); }
    NettingChanges(Get(d.holdings, t.symbol), Total(DeskOf(d).trades, TradeMove(t.symbol)),
                   Get(DeskOf(d).holdings, t.symbol));
  }

  lemma SaleIsOfLong(d: Day, t: Trade)
    requires d.market.lot >= 1 && t in DeskOf(d).trades && t.side.Sell?
    ensures Held(d.holdings, t.symbol) > 0
  {
    assert Traded(DeskOf(d), t.symbol, Sell);
    ExecutionTrades(d.market, AcceptedWeights(d, Accepted(d)), d.holdings, d.equity, d.cash, t.symbol);
    TargetIsLong(d, t.symbol);
  }

  lemma NettingChanges(before: Option<int>, m: Move, after: Option<int>)
    requires after == Netted(before, m) && m.bought >= 0 && m.sold >= 0 && m.bought + m.sold > 0
    requires m.sold > 0 ==> before.Some? && before.value > 0
    ensures after != before
    ensures m.bought == 0 ==> (if after.Some? then after.value else 0) < before.value
  {
  }

  /** For every day, any number of slices and any clock: replaying the log from the starting cash and holdings gives
      back the result of the rebalance exactly when every trade the broker made was ordered. */
  lemma LogReplaysExactly(d: Day, clock: nat -> int)
    requires d.market.lot >= 1
    ensures GivesBack(Replayed(d, clock), Rebalance(d, clock)) <==> AllOrdered(d)
  {
    if AllOrdered(d) { OrderedDayReplays(d, clock); } else { UnorderedDayDiffers(d, clock); }
  }

  lemma OrderedDayReplays(d: Day, clock: nat -> int)
    requires d.market.lot >= 1 && AllOrdered(d)
    ensures GivesBack(Replayed(d, clock), Rebalance(d, clock))
  {
    CashAndHoldingsReplay(d, clock);
    forall x | x in Rebalance(d, clock).records
      ensures Get(Replayed(d, clock).orderStatuses, x.order.clientOrderId) == Some(x.status)
    {
      StatusReplays(d, clock, x);
    }
    forall key | key in Replayed(d, clock).orderStatuses ensures Reported(Rebalance(d, clock).records, key) {
      if !Reported(JournalOf(d).records, key) { OnlyReportedReplay(d, clock, key); }
    }
  }

  lemma UnorderedDayDiffers(d: Day, clock: nat -> int)
    requires d.market.lot >= 1 && !AllOrdered(d)
    ensures Replayed(d, clock).holdings != Rebalance(d, clock).holdings
  {
    var u :| u in DeskOf(d).trades && !Ordered(Accepted(d), u.symbol, u.side);
    UnorderedTradeIsNotReplayed(d, clock, u);
  }

  /** Of long positions: exactly when the broker makes no stray sale. */
  lemma LongLogReplaysExactly(d: Day, clock: nat -> int)
    requires d.market.lot >= 1 && LongOnly(d)
    ensures GivesBack(Replayed(d, clock), Rebalance(d, clock)) <==> forall s :: !StraySale(d, s)
  {
    OrderedUnlessStray(d);
    LogReplaysExactly(d, clock);
  }

  /** Positive equity and long positions in whole lots with positive prices are enough. */
  lemma WholeLotsReplay(d: Day, clock: nat -> int)
    requires d.market.lot >= 1 && LongOnly(d) && d.equity > 0.0
    requires forall s | s in d.holdings :: PriceOf(d.market.prices, s) > 0.0 && d.holdings[s] % d.market.lot == 0
    ensures GivesBack(Replayed(d, clock), Rebalance(d, clock))
  {
    forall s ensures !StraySale(d, s) { StraySaleIsOddLot(d, s); }
    LongLogReplaysExactly(d, clock);
  }
}
