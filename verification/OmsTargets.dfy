/** From accepted orders to weights and back to shares: what the broker is asked to hold, and the sales no
    order asks for (ez/live/oms.py, ez/portfolio/execution.py). */
module OmsTargets {
  import opened Reals
  import opened Events
  import opened Ledger
  import opened Orders
  import opened Execution
  import opened RiskGate
  import opened RiskLaws
  import opened Oms
  import opened OmsOrders

  // ---- the positions the orders lead to --------------------------------------------------------

  lemma {:induction false} ProjectedAt(holdings: map<string, int>, orders: seq<Order>, s: string)
    requires OneEach(orders)
    ensures forall o | o in orders && o.symbol == s ::
      Held(Projected(holdings, orders), s) == if Held(holdings, s) + Delta(o) > 0 then Held(holdings, s) + Delta(o)
        else 0
    ensures (forall o | o in orders :: o.symbol != s) ==> Held(Projected(holdings, orders), s) == Held(holdings, s)
  {
    if orders != [] {
      var n := |orders| - 1;
      assert orders == orders[..n] + [orders[n]];
      assert forall o | o in orders[..n] :: o.symbol != orders[n].symbol;
      ProjectedAt(holdings, orders[..n], s);
      HeldAfter(Projected(holdings, orders[..n]), orders[n].symbol, Delta(orders[n]), s);
    }
  }

  /** A position's weight converts back to the position. */
  lemma WeightBack(shares: int, price: real, equity: real)
    requires shares > 0 && price > 0.0 && equity > 0.0
    ensures SharesFor(equity, WeightOf(shares, price, equity), price) == shares as real
  {
    var worth := shares as real * price;
    QuotientTimes(worth, equity);
    QuotientTimes(worth, price);
    SameFactor(worth / price, shares as real, price);
  }

  lemma QuotientTimes(x: real, d: real)
    requires d > 0.0
    ensures (x / d) * d == x
  {
  }

  lemma SameFactor(a: real, b: real, price: real)
    requires a * price == b * price && price > 0.0
    ensures a == b
  {
    Distribute(price, a, -b);
    if a - b > 0.0 { StrictlySameSigns(a - b, price, (a - b) * price); }
    if a - b < 0.0 { StrictlySameSigns(b - a, price, (b - a) * price); }
  }

  lemma WholeShares(shares: int, lot: int)
    requires lot >= 1
    ensures LotRound(shares as real, lot) == shares / lot * lot
  {
    var q, r := shares / lot, shares % lot;
    assert shares == q * lot + r;
    var x := shares as real / lot as real;
    assert x * lot as real == shares as real;
    FloorIs(x, q, lot as real, r as real);
  }

  lemma FloorIs(x: real, q: int, lot: real, r: real)
    requires lot > 0.0 && 0.0 <= r < lot && x * lot == q as real * lot + r
    ensures x.Floor == q
  {
    Distribute(lot, x, -(q as real));
    if x < q as real { StrictlySameSigns(q as real - x, lot, (q as real - x) * lot); }
    if x >= q as real + 1.0 { MulOrder(1.0, x - q as real, lot); }
  }

  /** What the broker is asked to hold. */
  function TargetAfter(d: Day, accepted: seq<Order>): map<string, int>
    requires d.market.lot >= 1
  {
    TargetShares(AcceptedWeights(d, accepted), d.equity, d.market.prices, d.market.lot)
  }

  lemma WeightAt(d: Day, accepted: seq<Order>, s: string, p: int, price: real)
    requires p == Held(Projected(d.holdings, accepted), s) && price == PriceOf(d.market.prices, s)
    ensures s in AcceptedWeights(d, accepted) <==> d.equity > 0.0 && p > 0 && price > 0.0
    ensures s in AcceptedWeights(d, accepted) ==> AcceptedWeights(d, accepted)[s] == WeightOf(p, price, d.equity)
  {
  }

  /** A long, priced position is kept in whole lots; anything else is asked to go. */
  lemma TargetAt(d: Day, accepted: seq<Order>, s: string)
    requires d.market.lot >= 1
    ensures var p := Held(Projected(d.holdings, accepted), s);
      Held(TargetAfter(d, accepted), s)
        == if d.equity > 0.0 && p > 0 && PriceOf(d.market.prices, s) > 0.0 then p / d.market.lot * d.market.lot else 0
  {
    var p, price := Held(Projected(d.holdings, accepted), s), PriceOf(d.market.prices, s);
    WeightAt(d, accepted, s, p, price);
    if s in AcceptedWeights(d, accepted) {
      WeightBack(p, price, d.equity);
      WholeShares(p, d.market.lot);
    }
  }

  // ---- sales nobody ordered ------------------------------------------------------------------

  ghost predicate Ordered(orders: seq<Order>, symbol: string, side: Side) {
    exists o :: o in orders && o.symbol == symbol && o.side == side
  }

  /** The broker will sell the symbol although no accepted order says so. */
  ghost predicate StraySale(d: Day, s: string)
    requires d.market.lot >= 1
  {
    && Accepted(d) != [] && CanTrade(d.market, s, Sell)
    && Held(TargetAfter(d, Accepted(d)), s) < Held(d.holdings, s) && !Ordered(Accepted(d), s, Sell)
  }

  ghost predicate LongOnly(d: Day) { forall s | s in d.holdings :: d.holdings[s] >= 0 }

  lemma WholeLotsFit(p: int, lot: int)
    requires lot >= 1 && p >= 0
    ensures 0 <= p / lot * lot <= p && (p / lot * lot == p <==> p % lot == 0)
  {
    var q, r := p / lot, p % lot;
    assert p == q * lot + r;
    NonNegativeProduct(q, lot);
  }

  /** A position that is not short is only enlarged on order. */
  lemma BuysAreOrdered(d: Day, s: string)
    requires d.market.lot >= 1 && Held(d.holdings, s) >= 0 && Held(TargetAfter(d, Accepted(d)), s) > Held(d.holdings, s)
    ensures Ordered(Accepted(d), s, Buy)
  {
    var accepted, p := Accepted(d), Held(Projected(d.holdings, Accepted(d)), s);
    GatedOrdersAreSound(d);
    TargetAt(d, accepted, s);
    if p > 0 { WholeLotsFit(p, d.market.lot); }
    ProjectedAt(d.holdings, accepted, s);
    var o :| o in accepted && o.symbol == s;
    assert o.side == Buy;
  }

  lemma DesiredAt(d: Day, s: string)
    requires d.market.lot >= 1
    ensures Held(DesiredTarget(d), s) % d.market.lot == 0
    ensures PriceOf(d.market.prices, s) <= 0.0 ==> Held(DesiredTarget(d), s) == 0
  {
    if s in DesiredTarget(d) { RoundedIsWhole(SharesFor(d.equity, d.weights[s], d.market.prices[s]), d.market.lot); }
  }

  lemma RoundedIsWhole(shares: real, lot: int)
    requires lot >= 1
    ensures LotRound(shares, lot) % lot == 0
  {
    MultipleOfLot((shares / lot as real).Floor, lot);
  }

  /** Exactly when the broker sells what nobody ordered: with positive equity, a position that no accepted order is
      about and that is an odd lot or has no positive price; otherwise any position without a sell order. */
  lemma StraySaleIsOddLot(d: Day, s: string)
    requires d.market.lot >= 1
    ensures StraySale(d, s) <==>
      && Accepted(d) != [] && CanTrade(d.market, s, Sell) && Held(d.holdings, s) > 0
      && if d.equity > 0.0 then (forall o | o in Accepted(d) :: o.symbol != s) && Uneven(d, s)
           else !Ordered(Accepted(d), s, Sell)
  {
    TargetAt(d, Accepted(d), s);
    TargetIsLong(d, s);
    if d.equity > 0.0 {
      if o :| o in Accepted(d) && o.symbol == s {
        OrderedIsNotStray(d, s, o);
      } else {
        UnaskedTarget(d, s);
      }
    }
  }

  /** An odd lot, or a position without a positive price. */
  predicate Uneven(d: Day, s: string)
    requires d.market.lot >= 1
  {
    PriceOf(d.market.prices, s) <= 0.0 || Held(d.holdings, s) % d.market.lot != 0
  }

  lemma TargetIsLong(d: Day, s: string)
    requires d.market.lot >= 1
    ensures Held(TargetAfter(d, Accepted(d)), s) >= 0
  {
    TargetAt(d, Accepted(d), s);
    var p := Held(Projected(d.holdings, Accepted(d)), s);
    if p > 0 { WholeLotsFit(p, d.market.lot); }
  }

  /** What becomes of a long position that no accepted order is about. */
  lemma UnaskedTarget(d: Day, s: string)
    requires d.market.lot >= 1 && d.equity > 0.0 && forall o | o in Accepted(d) :: o.symbol != s
    ensures Held(d.holdings, s) > 0 ==> (Held(TargetAfter(d, Accepted(d)), s) < Held(d.holdings, s) <==> Uneven(d, s))
  {
    GatedOrdersAreSound(d);
    ProjectedAt(d.holdings, Accepted(d), s);
    TargetAt(d, Accepted(d), s);
    var held := Held(d.holdings, s);
    if held > 0 { WholeLotsFit(held, d.market.lot); }
  }

  /** An accepted order's own symbol is not sold beyond it. */
  lemma OrderedIsNotStray(d: Day, s: string, o: Order)
    requires d.market.lot >= 1 && d.equity > 0.0 && o in Accepted(d) && o.symbol == s
    ensures !StraySale(d, s)
  {
    assert Follows(d, DesiredTarget(d), o) by { GatedOrdersAreSound(d); }
    if o.side.Buy? {
      DesiredAt(d, s);
      TargetAt(d, Accepted(d), s);
      assert Held(Projected(d.holdings, Accepted(d)), s)
          == if Held(DesiredTarget(d), s) > 0 then Held(DesiredTarget(d), s) else 0 by {
        GatedOrdersAreSound(d);
        ProjectedAt(d.holdings, Accepted(d), s);
      }
      if Held(DesiredTarget(d), s) > 0 { WholeLotsFit(Held(DesiredTarget(d), s), d.market.lot); }
    } else {
      assert Ordered(Accepted(d), s, Sell);
    }
  }
}
