/** What a rebalance makes of the requested weights: the positions its orders ask for and, when nothing stops them, the
    positions it ends with (ez/live/oms.py, ez/portfolio/execution.py). */
module OmsWeights {
  import opened Reals
  import opened Events
  import opened Ledger
  import opened Orders
  import opened Execution
  import opened BuyLaws
  import opened RiskGate
  import opened RiskLaws
  import opened Oms
  import opened OmsOrders
  import opened OmsTargets
  import opened OmsReplay
  import SortedKeys

  /** The position that the weights ask for: whole lots, and as many as their share of the equity pays for; none where
      there is no weight or no price. */
  ghost predicate IsWanted(d: Day, s: string, n: int)
    requires d.market.lot >= 1
  {
    if s in d.weights && s in d.market.prices && d.market.prices[s] > 0.0 then
      n % d.market.lot == 0
      && forall k: int ::
           k * d.market.lot <= n
           <==> Weighed((k * d.market.lot) as real, d.market.prices[s]) <= Weighed(d.equity, d.weights[s])
    else n == 0
  }

  lemma TargetIsWanted(d: Day, s: string)
    requires d.market.lot >= 1
    ensures IsWanted(d, s, Held(DesiredTarget(d), s))
  {
    if s in d.weights && s in d.market.prices && d.market.prices[s] > 0.0 {
      forall k: int
        ensures k * d.market.lot <= Held(DesiredTarget(d), s)
          <==> Weighed((k * d.market.lot) as real, d.market.prices[s]) <= Weighed(d.equity, d.weights[s])
      {
        TargetIsGreatest(d.market, d.weights, d.equity, s, k);
      }
      TargetIsGreatest(d.market, d.weights, d.equity, s, 0);
    }
  }

  lemma {:induction false} DesiredCovers(d: Day, target: map<string, int>, symbols: seq<string>, s: string)
    requires s in symbols && Held(target, s) != Held(d.holdings, s)
    ensures exists o :: o in DesiredFrom(d, target, symbols) && o.symbol == s
  {
    var first := DesiredOrder(d, target, symbols[0]);
    if symbols[0] == s {
      assert first[0] in DesiredFrom(d, target, symbols) && first[0].symbol == s;
    } else {
      DesiredCovers(d, target, symbols[1..], s);
      var o :| o in DesiredFrom(d, target, symbols[1..]) && o.symbol == s;
      assert o in DesiredFrom(d, target, symbols);
    }
  }

  /** The orders take the symbol from this position to that one: by one order if they differ and by none if not. */
  ghost predicate AskFor(orders: seq<Order>, s: string, held: int, n: int) {
    && (n != held <==> exists o :: o in orders && o.symbol == s)
    && (forall o | o in orders && o.symbol == s :: o.shares > 0 && held + Delta(o) == n)
  }

  /** The orders of the day take every symbol from its position to the one that the weights ask for. */
  lemma OrdersAskForWeights(d: Day, s: string) returns (n: int)
    requires d.market.lot >= 1
    ensures IsWanted(d, s, n) && OneEach(Desired(d)) && AskFor(Desired(d), s, Held(d.holdings, s), n)
  {
    var target := DesiredTarget(d);
    n := Held(target, s);
    TargetIsWanted(d, s);
    DesiredIsSound(d);
    if n != Held(d.holdings, s) {
      assert s in d.holdings.Keys + target.Keys;
      DesiredCovers(d, target, SortedKeys.Keys(d.holdings.Keys + target.Keys), s);
    }
    SoundAsks(d, Desired(d), s, n);
  }

  lemma SoundAsks(d: Day, orders: seq<Order>, s: string, n: int)
    requires d.market.lot >= 1 && AllFollow(d, DesiredTarget(d), orders) && n == Held(DesiredTarget(d), s)
    requires n != Held(d.holdings, s) ==> exists o :: o in orders && o.symbol == s
    ensures AskFor(orders, s, Held(d.holdings, s), n)
  {
    forall o | o in orders && o.symbol == s
      ensures o.shares > 0 && Held(d.holdings, s) + Delta(o) == n && n != Held(d.holdings, s)
    {
      assert Follows(d, DesiredTarget(d), o);
    }
  }

  // ---- nothing is refused ----------------------------------------------------------------

  /** No weight asks for a short position. */
  ghost predicate LongWeights(d: Day) { forall s | s in d.weights :: d.weights[s] >= 0.0 }

  lemma WantedIsLong(d: Day, s: string, n: int)
    requires d.market.lot >= 1 && d.equity >= 0.0 && LongWeights(d) && IsWanted(d, s, n)
    ensures n >= 0
  {
    if s in d.weights && s in d.market.prices && d.market.prices[s] > 0.0 {
      PositiveFactors(d.equity, d.weights[s]);
      assert 0 * d.market.lot <= n <==> Weighed((0 * d.market.lot) as real, d.market.prices[s])
                                         <= Weighed(d.equity, d.weights[s]);
    }
  }

  lemma NothingRefused(d: Day)
    requires d.market.lot >= 1 && Gated(d).refused == []
    ensures forall o :: o in Accepted(d) <==> o in Desired(d)
  {
    GateSortsOut(SettingOf(d), Desired(d), d.holdings);
    assert OrdersOf(Gated(d).refused) == [];
    forall o ensures o in Accepted(d) <==> o in Desired(d) {
      assert o in Accepted(d) <==> o in multiset(Accepted(d));
      assert o in Desired(d) <==> o in multiset(Desired(d));
    }
  }

  lemma AskedIsReached(holdings: map<string, int>, orders: seq<Order>, s: string, n: int)
    requires OneEach(orders) && AskFor(orders, s, Held(holdings, s), n) && n >= 0
    ensures Held(Projected(holdings, orders), s) == n
  {
    ProjectedAt(holdings, orders, s);
  }

  /** When every order is accepted, they lead each symbol to its wanted position. */
  lemma ProjectedIsWanted(d: Day, s: string)
    requires d.market.lot >= 1 && d.equity > 0.0 && LongWeights(d) && Gated(d).refused == []
    ensures IsWanted(d, s, Held(Projected(d.holdings, Accepted(d)), s))
  {
    var n := OrdersAskForWeights(d, s);
    WantedIsLong(d, s, n);
    NothingRefused(d);
    assert OneEach(Accepted(d)) by { GatedOrdersAreSound(d); }
    SameOrdersAsk(Desired(d), Accepted(d), s, Held(d.holdings, s), n);
    AskedIsReached(d.holdings, Accepted(d), s, n);
  }

  lemma SameOrdersAsk(a: seq<Order>, b: seq<Order>, s: string, held: int, n: int)
    requires AskFor(a, s, held, n) && forall o :: o in b <==> o in a
    ensures AskFor(b, s, held, n)
  {
  }

  /** A wanted position is whole lots of a priced symbol, so that the broker is asked to hold it. */
  lemma WantedIsKept(d: Day, s: string)
    requires d.market.lot >= 1 && d.equity > 0.0 && LongWeights(d)
    requires IsWanted(d, s, Held(Projected(d.holdings, Accepted(d)), s))
    ensures Held(TargetAfter(d, Accepted(d)), s) == Held(Projected(d.holdings, Accepted(d)), s)
  {
    var p := Held(Projected(d.holdings, Accepted(d)), s);
    WantedIsLong(d, s, p);
    TargetAt(d, Accepted(d), s);
    if p > 0 { WholeLotsFit(p, d.market.lot); }
  }

  /** The cash after the sales pays for all the buys that may be made. */
  ghost predicate PaysForAll(d: Day)
    requires d.market.lot >= 1
  {
    var target := TargetAfter(d, Accepted(d));
    FullCost(d.market, target, d.holdings, DueBuys(target, d.holdings))
      <= AfterSales(d.market, AcceptedWeights(d, Accepted(d)), d.holdings, d.equity, d.cash).cash
  }

  /** A day whose orders are all accepted and paid for ends with every symbol that may be traded at the position that
      its weight asks for. */
  lemma RebalanceReachesWeights(d: Day, clock: nat -> int, s: string)
    requires d.market.lot >= 1 && d.equity > 0.0 && LongWeights(d) && d.market.costs.buyRate >= 0.0
    requires Gated(d).refused == [] && PaysForAll(d) && Priced(d.market)
    requires CanTrade(d.market, s, if IsWantedMore(d, s) then Buy else Sell)
    ensures IsWanted(d, s, Held(Rebalance(d, clock).holdings, s))
  {
    ProjectedIsWanted(d, s);
    WantedIsKept(d, s);
    if Accepted(d) == [] {
      assert Projected(d.holdings, []) == d.holdings;
    } else {
      BrokerIsDesk(d);
      TargetsAreReached(d.market, AcceptedWeights(d, Accepted(d)), d.holdings, d.equity, d.cash, s);
    }
  }

  /** The accepted orders make the position grow. */
  ghost predicate IsWantedMore(d: Day, s: string)
    requires d.market.lot >= 1
  {
    Held(TargetAfter(d, Accepted(d)), s) > Held(d.holdings, s)
  }
}
