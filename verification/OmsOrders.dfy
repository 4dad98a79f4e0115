/** The orders of a rebalance: one a symbol, each with its own id (ez/live/oms.py). */
module OmsOrders {
  import opened Options
  import opened Events
  import opened Ledger
  import opened Orders
  import opened Execution
  import opened PaperBroker
  import opened RiskGate
  import opened RiskLaws
  import opened Oms
  import opened Lists
  import SortedKeys

  // ---- the orders of the day -----------------------------------------------------------------

  /** At most one order a symbol. */
  ghost predicate OneEach(orders: seq<Order>) {
    forall i, j | 0 <= i < j < |orders| :: orders[i].symbol != orders[j].symbol
  }

  /** An order moves its symbol's position to the target. */
  predicate Follows(d: Day, target: map<string, int>, o: Order) {
    && o.clientOrderId == ClientOrderId(d.deployment, d.date, o.symbol, o.side)
    && o.shares > 0 && Held(d.holdings, o.symbol) + Delta(o) == Held(target, o.symbol)
  }

  ghost predicate AllFollow(d: Day, target: map<string, int>, orders: seq<Order>) {
    forall o | o in orders :: Follows(d, target, o)
  }

  lemma {:induction false} DesiredFollow(d: Day, target: map<string, int>, symbols: seq<string>)
    requires Execution.Distinct(symbols)
    ensures AllFollow(d, target, DesiredFrom(d, target, symbols)) && OneEach(DesiredFrom(d, target, symbols))
    ensures forall o | o in DesiredFrom(d, target, symbols) :: o.symbol in symbols
  {
    if symbols != [] {
      DistinctTail(symbols);
      DesiredFollow(d, target, symbols[1..]);
      var first, rest := DesiredOrder(d, target, symbols[0]), DesiredFrom(d, target, symbols[1..]);
      assert forall j | 0 <= j < |rest| :: rest[j] in rest;
    }
  }

  ghost predicate Sound(d: Day, orders: seq<Order>)
    requires d.market.lot >= 1
  {
    OneEach(orders) && AllFollow(d, DesiredTarget(d), orders)
  }

  lemma DesiredIsSound(d: Day)
    requires d.market.lot >= 1
    ensures Sound(d, Desired(d))
  {
    var keys := d.holdings.Keys + DesiredTarget(d).Keys;
    forall i: nat, j: nat | i < j < |SortedKeys.Keys(keys)|
      ensures SortedKeys.Keys(keys)[i] != SortedKeys.Keys(keys)[j]
    {
      SortedKeys.KeysAreDistinct(keys, i, j);
    }
    DesiredFollow(d, DesiredTarget(d), SortedKeys.Keys(keys));
  }

  lemma RearrangedIsOneEach(a: seq<Order>, b: seq<Order>)
    requires OneEach(a) && multiset(a) == multiset(b)
    ensures OneEach(b) && forall o :: o in b ==> o in a
  {
    assert NoRepeats(a);
    RearrangedHasNoRepeats(a, b);
    forall o | o in b ensures o in a { assert o in multiset(b); }
    forall i, j | 0 <= i < j < |b| ensures b[i].symbol != b[j].symbol {
      assert b[i] in b && b[j] in b && b[i] != b[j];
    }
  }

  lemma PartsAreSound(d: Day, desired: seq<Order>, refused: seq<Order>, accepted: seq<Order>)
    requires d.market.lot >= 1 && Sound(d, desired) && multiset(accepted) + multiset(refused) == multiset(desired)
    ensures Sound(d, refused + accepted) && Sound(d, accepted)
  {
    var all := refused + accepted;
    RearrangedIsOneEach(desired, all);
    forall i, j | 0 <= i < j < |accepted| ensures accepted[i].symbol != accepted[j].symbol {
      assert accepted[i] == all[|refused| + i] && accepted[j] == all[|refused| + j];
    }
    assert forall o | o in accepted :: o in all;
  }

  /** The refused and the accepted orders together are the desired ones, at most one a symbol. */
  lemma GatedOrdersAreSound(d: Day)
    requires d.market.lot >= 1
    ensures Sound(d, OrdersOf(Gated(d).refused) + Accepted(d)) && Sound(d, Accepted(d))
  {
    DesiredIsSound(d);
    GateSortsOut(SettingOf(d), Desired(d), d.holdings);
    PartsAreSound(d, Desired(d), OrdersOf(Gated(d).refused), Accepted(d));
  }

  /** Different orders of the day have different ids. */
  lemma IdsDiffer(d: Day, a: Order, b: Order)
    requires d.market.lot >= 1 && Follows(d, DesiredTarget(d), a) && Follows(d, DesiredTarget(d), b)
      && a.symbol != b.symbol
    ensures a.clientOrderId != b.clientOrderId
  {
    if a.clientOrderId == b.clientOrderId {
      ClientOrderIdIdentifies(d.deployment, d.date, a.symbol, a.side, b.symbol, b.side);
    }
  }

  lemma {:induction false} RequestedForFinds(orders: seq<Order>, symbol: string, side: Side)
    requires OneEach(orders)
    ensures var r := RequestedFor(orders, symbol, side);
      && (r.Some? ==> r.value in orders && r.value.symbol == symbol && r.value.side == side)
      && (forall o | o in orders && o.symbol == symbol && o.side == side :: r == Some(o))
  {
    if orders != [] {
      var n := |orders| - 1;
      RequestedForFinds(orders[..n], symbol, side);
      assert orders == orders[..n] + [orders[n]];
      assert forall o | o in orders[..n] :: o.symbol != orders[n].symbol;
    }
  }
}
