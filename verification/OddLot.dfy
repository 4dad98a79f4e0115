/** A rebalance that does not replay: an odd lot whose order was refused is cut down without an order
    (ez/live/oms.py, ez/portfolio/execution.py). */
module OddLot {
  import opened Options
  import opened Events
  import opened Ledger
  import opened Orders
  import opened Execution
  import opened RiskGate
  import opened Oms
  import opened OmsTargets
  import SortedKeys
  import CapitalPolicy
  import opened RebalanceReplay

  function NoRules(maxOrderNotional: real): Config { Config(false, Some(maxOrderNotional), None, None, None, None) }

  /** 150 shares of A are held in lots of 100; the order to sell them is refused, one to buy B is not. */
  function OddLotDay(): Day {
    var prices := map["A" := 1.0, "B" := 0.5];
    Day("d", "2024-01-02", map["B" := 0.05], map["A" := 150], 1000.0, 850.0,
        Market(prices, map[], map[], {"A", "B"}, CostModel(0.0, 0.0, 0.0, 0.0, 0.0), 100, 0.0, true),
        NoRules(100.0), None, true, 1)
  }

  lemma SortedAB()
    ensures SortedKeys.Keys({"A", "B"}) == ["A", "B"]
  {
    var s := ["A", "B"];
    assert s[0] == "A" && s[1] == "B";
    SortedKeys.ListingIsUnique(s, {"A", "B"});
  }

  lemma OddLotTarget()
    ensures DesiredTarget(OddLotDay()) == map["B" := 100]
  {
    var d := OddLotDay();
    assert SharesFor(1000.0, 0.05, 0.5) == 100.0;
    assert LotRound(100.0, 100) == 100;
    assert DesiredTarget(d).Keys == {"B"};
  }

  lemma OddLotDesired()
    ensures var d := OddLotDay();
      Desired(d) == [Order(ClientOrderId("d", "2024-01-02", "A", Sell), "A", Sell, 150),
                     Order(ClientOrderId("d", "2024-01-02", "B", Buy), "B", Buy, 100)]
  {
    OddLotTarget();
    SortedAB();
    OddLotKeys();
    TwoDesired(OddLotDay(), map["B" := 100]);
    OddLotOrders(OddLotDay(), map["B" := 100]);
  }

  lemma OddLotKeys()
    ensures OddLotDay().holdings.Keys + map["B" := 100].Keys == {"A", "B"}
  {
  }

  lemma TwoDesired(d: Day, target: map<string, int>)
    requires d.market.lot >= 1 && target == DesiredTarget(d) && d.holdings.Keys + target.Keys == {"A", "B"}
    requires SortedKeys.Keys({"A", "B"}) == ["A", "B"]
    ensures Desired(d) == DesiredOrder(d, target, "A") + DesiredOrder(d, target, "B")
  {
    OrdersOfTwo(d, target, "A", "B");
  }

  lemma OrdersOfTwo(d: Day, target: map<string, int>, a: string, b: string)
    ensures DesiredFrom(d, target, [a, b]) == DesiredOrder(d, target, a) + DesiredOrder(d, target, b)
  {
    assert [a, b][1..] == [b] && [b][1..] == [];
    assert DesiredFrom(d, target, [b]) == DesiredOrder(d, target, b) + DesiredFrom(d, target, []);
  }

  lemma OddLotOrders(d: Day, target: map<string, int>)
    requires d.deployment == "d" && d.date == "2024-01-02" && d.holdings == map["A" := 150] && target == map["B" := 100]
    ensures DesiredOrder(d, target, "A") == [Order(ClientOrderId("d", "2024-01-02", "A", Sell), "A", Sell, 150)]
    ensures DesiredOrder(d, target, "B") == [Order(ClientOrderId("d", "2024-01-02", "B", Buy), "B", Buy, 100)]
  {
    assert "A" !in target && "B" !in d.holdings;
  }

  lemma OddLotRefused()
    ensures var d := OddLotDay();
      Failure(SettingOf(d), Order(ClientOrderId("d", "2024-01-02", "A", Sell), "A", Sell, 150),
              Gate([], [], 0.0, d.holdings))
        == Some(CapitalPolicy.OrderNotional)
  {
  }

  lemma OtherOrderAdmitted(refused: seq<Refusal>)
    ensures var d := OddLotDay();
      Failure(SettingOf(d), Order(ClientOrderId("d", "2024-01-02", "B", Buy), "B", Buy, 100),
              Gate([], refused, 0.0, d.holdings)) == None
  {
  }

  lemma OddLotGated()
    ensures Accepted(OddLotDay()) == [Order(ClientOrderId("d", "2024-01-02", "B", Buy), "B", Buy, 100)]
  {
    var d := OddLotDay();
    var a := Order(ClientOrderId("d", "2024-01-02", "A", Sell), "A", Sell, 150);
    var b := Order(ClientOrderId("d", "2024-01-02", "B", Buy), "B", Buy, 100);
    var refused := [Refusal(a, CapitalPolicy.OrderNotional)];
    OddLotDesired();
    OddLotRefused();
    OtherOrderAdmitted(refused);
    GateOfTwo(SettingOf(d), a, b, d.holdings, refused);
  }

  lemma GateOfTwo(g: Setting, a: Order, b: Order, holdings: map<string, int>, refused: seq<Refusal>)
    requires Failure(g, a, Gate([], [], 0.0, holdings)) == Some(CapitalPolicy.OrderNotional)
    requires refused == [Refusal(a, CapitalPolicy.OrderNotional)]
      && Failure(g, b, Gate([], refused, 0.0, holdings)) == None
    ensures Evaluate(g, [a, b], holdings).accepted == [b]
  {
    var start := Gate([], [], 0.0, holdings);
    assert Judge(g, a, start) == Gate([], refused, 0.0, holdings);
    assert [a, b][1..] == [b] && [b][1..] == [];
    assert JudgeAll(g, [b], Judge(g, a, start)) == JudgeAll(g, [], Judge(g, b, Judge(g, a, start)));
  }

  lemma OddLotIsStray()
    ensures StraySale(OddLotDay(), "A")
  {
    OddLotGated();
    OddLotHeld();
    UnorderedOddLot(OddLotDay(), "A", Order(ClientOrderId("d", "2024-01-02", "B", Buy), "B", Buy, 100));
  }

  lemma UnorderedOddLot(d: Day, s: string, only: Order)
    requires d.market.lot >= 1 && LongOnly(d) && d.equity > 0.0 && CanTrade(d.market, s, Sell)
    requires Held(d.holdings, s) > 0 && Held(d.holdings, s) % d.market.lot != 0
    requires Accepted(d) == [only] && only.symbol != s
    ensures StraySale(d, s)
  {
    StraySaleIsOddLot(d, s);
  }

  lemma OddLotHeld()
    ensures var d := OddLotDay();
      LongOnly(d) && d.equity > 0.0 && CanTrade(d.market, "A", Sell) && Held(d.holdings, "A") == 150
        && 150 % d.market.lot != 0
  {
  }

  /** The refused order leaves the odd lot in the weights, and rounding to lots sells half a lot unasked. */
  lemma OddLotIsSoldUnasked(clock: nat -> int)
    ensures !GivesBack(Replayed(OddLotDay(), clock), Rebalance(OddLotDay(), clock))
  {
    OddLotIsStray();
    OddLotHeld();
    LongLogReplaysExactly(OddLotDay(), clock);
  }
}
