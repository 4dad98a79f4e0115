/** Which buys the execution of target weights makes, from prices, rates and cash alone (ez/portfolio/execution.py). */
module BuyLaws {
  import opened Options
  import opened Reals
  import opened Events
  import opened Ledger
  import opened Execution
  import SortedKeys

  /** What a share costs and what it brings in, slippage included. */
  function BuyPrice(m: Market, s: string): real
    requires s in m.prices
  {
    Weighed(m.prices[s], 1.0 + m.costs.slippage)
  }

  function SalePrice(m: Market, s: string): real
    requires s in m.prices
  {
    Weighed(m.prices[s], 1.0 - m.costs.slippage)
  }

  // ---- one buy ---------------------------------------------------------------------------

  /** The commission of a purchase of this value. */
  function FeeOf(c: CostModel, value: real): real { Max(Weighed(value, c.buyRate), c.minCommission) }

  /** What `n` shares cost, commission included. */
  function CostOf(c: CostModel, n: int, price: real): real {
    Weighed(n as real, price) + FeeOf(c, Weighed(n as real, price))
  }

  /** The trade that buys them. */
  function Purchase(c: CostModel, s: string, n: int, price: real): Trade {
    var value := Weighed(n as real, price);
    Trade(s, Buy, n, price, value, FeeOf(c, value), 0.0, FeeOf(c, value))
  }

  /** The cash leaves room for the minimum commission beside `n` shares at the price with the rate on top. */
  predicate Affords(c: CostModel, n: int, price: real, cash: real) {
    Weighed(n as real, Weighed(price, 1.0 + c.buyRate)) <= cash - Max(c.minCommission, 0.0)
  }

  lemma TradeIsPurchase(c: CostModel, s: string, n: int, price: real)
    requires n > 0 && price > 0.0
    ensures TradeAt(c, s, Buy, n, price) == Purchase(c, s, n, price)
  {
    StrictlySameSigns(n as real, price, n as real * price);
  }

  /** The lots of a quantity: no more of them fit into it. */
  lemma LotsBelow(x: real, lot: int, k: int)
    requires lot >= 1
    ensures k * lot <= LotRound(x, lot) <==> (k * lot) as real <= x
  {
    var q := x / lot as real;
    assert q * lot as real == x;
    var f := q.Floor;
    assert (k * lot) as real == k as real * lot as real && (f * lot) as real == f as real * lot as real;
    if k <= f {
      MulOrder(k as real, f as real, lot as real);
      MulOrder(f as real, q, lot as real);
    } else {
      assert k as real > q;
      StrictlySameSigns(k as real - q, lot as real, (k as real - q) * lot as real);
      StrictlySameSigns((k - f) as real, lot as real, (k - f) as real * lot as real);
    }
  }

  lemma AffordsIs(c: CostModel, n: int, price: real, cash: real)
    requires price > 0.0 && c.buyRate >= 0.0
    ensures Affords(c, n, price, cash) <==> n as real <= Affordable(c, price, cash)
  {
    var perShare := Weighed(price, 1.0 + c.buyRate);
    PerShareIsPositive(price, c.buyRate, perShare);
    Quotient(n as real, perShare, cash - Max(c.minCommission, 0.0));
  }

  lemma Quotient(n: real, unit: real, whole: real)
    requires unit > 0.0
    ensures n <= whole / unit <==> Weighed(n, unit) <= whole
  {
    var q := whole / unit;
    assert q * unit == whole;
    if n <= q { MulOrder(n, q, unit); } else { StrictlySameSigns(n - q, unit, (n - q) * unit); }
  }

  /** The lots the cash affords. */
  lemma LotsAfforded(c: CostModel, price: real, lot: int, cash: real, k: int)
    requires price > 0.0 && c.buyRate >= 0.0 && lot >= 1
    ensures k * lot <= LotRound(Affordable(c, price, cash), lot) <==> Affords(c, k * lot, price, cash)
  {
    AffordsIs(c, k * lot, price, cash);
    LotsBelow(Affordable(c, price, cash), lot, k);
  }

  /** These are whole lots that the cash affords, and no more would be. */
  ghost predicate GreatestLots(c: CostModel, price: real, lot: int, cash: real, n: int)
    requires lot >= 1
  {
    n > 0 && n % lot == 0 && forall k: int :: k * lot <= n <==> Affords(c, k * lot, price, cash)
  }

  /** A buy is made in full when the cash pays for it, fee included; otherwise it is the greatest number of whole lots
      that the cash affords, and it fails exactly when that is not even one. */
  ghost predicate BuysWhatItCan(c: CostModel, s: string, n: int, price: real, lot: int, cash: real, t: Option<Trade>)
    requires lot >= 1
  {
    if CostOf(c, n, price) <= cash then t == Some(Purchase(c, s, n, price))
    else if t.None? then !Affords(c, lot, price, cash)
    else t == Some(Purchase(c, s, t.value.shares, price)) && GreatestLots(c, price, lot, cash, t.value.shares)
  }

  lemma BuyIsAllItCan(c: CostModel, s: string, n: int, price: real, lot: int, cash: real)
    requires lot >= 1 && n > 0 && price > 0.0 && c.buyRate >= 0.0
    ensures BuysWhatItCan(c, s, n, price, lot, cash, BuyAt(c, s, n, price, lot, cash))
  {
    TradeIsPurchase(c, s, n, price);
    if CostOf(c, n, price) > cash { CutIsAllItCan(c, s, n, price, lot, cash); }
  }

  lemma CutIsAllItCan(c: CostModel, s: string, n: int, price: real, lot: int, cash: real)
    requires lot >= 1 && n > 0 && price > 0.0 && c.buyRate >= 0.0
    ensures var t := CutTrade(c, s, price, Affordable(c, price, cash), lot, cash);
      if t.None? then !Affords(c, lot, price, cash)
      else t == Some(Purchase(c, s, t.value.shares, price)) && GreatestLots(c, price, lot, cash, t.value.shares)
  {
    var affordable, fewer := Affordable(c, price, cash), LotRound(Affordable(c, price, cash), lot);
    LotsAfforded(c, price, lot, cash, 1);
    LotRoundIsBelow(affordable, lot);
    if fewer > 0 {
      RoundedIsGreatest(c, price, lot, cash, fewer);
      CutFits(c, s, price, affordable, lot, cash, fewer);
    }
  }

  lemma RoundedIsGreatest(c: CostModel, price: real, lot: int, cash: real, fewer: int)
    requires lot >= 1 && price > 0.0 && c.buyRate >= 0.0 && fewer == LotRound(Affordable(c, price, cash), lot) > 0
    ensures GreatestLots(c, price, lot, cash, fewer)
  {
    MultipleOfLot((Affordable(c, price, cash) / lot as real).Floor, lot);
    forall k: int ensures k * lot <= fewer <==> Affords(c, k * lot, price, cash) {
      LotsAfforded(c, price, lot, cash, k);
    }
  }

  lemma CutFits(c: CostModel, s: string, price: real, affordable: real, lot: int, cash: real, fewer: int)
    requires lot >= 1 && price > 0.0 && c.buyRate >= 0.0 && affordable == Affordable(c, price, cash)
    requires fewer == LotRound(affordable, lot) > 0 && fewer as real <= affordable
    ensures CutTrade(c, s, price, affordable, lot, cash) == Some(Purchase(c, s, fewer, price))
  {
    TradeIsPurchase(c, s, fewer, price);
    AffordableFits(c, s, fewer, price, price * (1.0 + c.buyRate), affordable, cash);
  }

  // ---- the buys of a day -----------------------------------------------------------------

  /** The desk when the symbol's turn comes. */
  function AtTurn(m: Market, target: map<string, int>, d: Desk, symbols: seq<string>, s: string): Desk
    requires m.lot >= 1
    decreases |symbols|
  {
    if symbols == [] || symbols[0] == s then d else AtTurn(m, target, Step(m, target, d, symbols[0]), symbols[1..], s)
  }

  /** Nothing has happened in this symbol yet. */
  ghost predicate Untouched(d: Desk, s: string) { s !in d.soldToday && forall t | t in d.trades :: t.symbol != s }

  lemma OthersLeave(m: Market, target: map<string, int>, d: Desk, other: string, s: string)
    requires m.lot >= 1 && other != s
    ensures var next := Step(m, target, d, other);
      && Held(next.holdings, s) == Held(d.holdings, s) && (Untouched(d, s) ==> Untouched(next, s))
      && (forall t: Trade | t.symbol == s :: t in next.trades <==> t in d.trades)
  {
    var t := TradeFor(m, target, d, other);
    if t.Some? { TradeFacts(m, target, d, other); }
  }

  lemma {:induction false} OthersLeaveAll(m: Market, target: map<string, int>, d: Desk, symbols: seq<string>, s: string)
    requires m.lot >= 1 && s !in symbols
    ensures var end := Run(m, target, d, symbols);
      && Held(end.holdings, s) == Held(d.holdings, s) && (Untouched(d, s) ==> Untouched(end, s))
      && (forall t: Trade | t.symbol == s :: t in end.trades <==> t in d.trades)
    decreases |symbols|
  {
    if symbols != [] {
      assert symbols[0] in symbols && forall x | x in symbols[1..] :: x in symbols;
      OthersLeave(m, target, d, symbols[0], s);
      OthersLeaveAll(m, target, Step(m, target, d, symbols[0]), symbols[1..], s);
    }
  }

  /** The day's only trade in the symbol, if any, and the position it leaves. */
  ghost predicate OnlyTrade(end: Desk, s: string, held: int, t: Option<Trade>) {
    && (forall x: Trade | x.symbol == s :: x in end.trades <==> t == Some(x))
    && Held(end.holdings, s) == held + if t.Some? then t.value.shares else 0
  }

  lemma SamePrice(m: Market, s: string)
    requires s in m.prices
    ensures BuyPrice(m, s) == Execution.BuyPrice(m, s)
  {
  }

  lemma DueBuy(m: Market, target: map<string, int>, d: Desk, s: string, n: int, price: real)
    requires m.lot >= 1 && CanTrade(m, s, Buy) && s !in d.soldToday && price == Execution.BuyPrice(m, s)
    requires n == Held(target, s) - Held(d.holdings, s) > 0
    ensures TradeFor(m, target, d, s) == BuyAt(m.costs, s, n, price, m.lot, d.cash)
  {
  }

  lemma TurnToBuy(m: Market, target: map<string, int>, d: Desk, s: string, n: int, price: real)
    returns (t: Option<Trade>)
    requires m.lot >= 1 && m.costs.buyRate >= 0.0 && Untouched(d, s) && CanTrade(m, s, Buy)
    requires price == BuyPrice(m, s) > 0.0 && n == Held(target, s) - Held(d.holdings, s) > 0
    ensures BuysWhatItCan(m.costs, s, n, price, m.lot, d.cash, t)
    ensures OnlyTrade(Step(m, target, d, s), s, Held(d.holdings, s), t)
  {
    t := BuyAt(m.costs, s, n, price, m.lot, d.cash);
    BuyIsAllItCan(m.costs, s, n, price, m.lot, d.cash);
    SamePrice(m, s);
    DueBuy(m, target, d, s, n, price);
  }

  /** A symbol that has to grow and may be bought gets all that the cash at its turn pays for. */
  lemma {:induction false} RunBuys(m: Market, target: map<string, int>, d: Desk, symbols: seq<string>, s: string,
                                   n: int, price: real, turn: real)
    returns (t: Option<Trade>)
    requires m.lot >= 1 && m.costs.buyRate >= 0.0 && Distinct(symbols) && s in symbols && Untouched(d, s)
    requires CanTrade(m, s, Buy) && price == BuyPrice(m, s) > 0.0 && n == Held(target, s) - Held(d.holdings, s) > 0
    requires turn == AtTurn(m, target, d, symbols, s).cash
    ensures BuysWhatItCan(m.costs, s, n, price, m.lot, turn, t)
    ensures OnlyTrade(Run(m, target, d, symbols), s, Held(d.holdings, s), t)
    decreases |symbols|
  {
    DistinctTail(symbols);
    if symbols[0] == s {
      t := TurnToBuy(m, target, d, s, n, price);
      OthersLeaveAll(m, target, Step(m, target, d, s), symbols[1..], s);
    } else {
      OthersLeave(m, target, d, symbols[0], s);
      t := RunBuys(m, target, Step(m, target, d, symbols[0]), symbols[1..], s, n, price, turn);
    }
  }

  /** The cash when the symbol's turn comes: the sales come first, then the buys in the order of the symbols. */
  ghost function CashAtTurn(m: Market, weights: map<string, real>, holdings: map<string, int>, equity: real, cash: real,
                            s: string): real
    requires m.lot >= 1
  {
    var target := TargetShares(weights, equity, m.prices, m.lot);
    AtTurn(m, target, Desk(cash, holdings, {}, [], 0.0), Schedule(target, holdings), s).cash
  }

  /** Every symbol that has to grow and is tradable is bought with the cash at its turn: in full when that pays for it,
      else in as many whole lots as it affords, and not at all exactly when it affords no lot. */
  lemma BuysAreMade(m: Market, weights: map<string, real>, holdings: map<string, int>, equity: real, cash: real,
                    s: string, gap: int, price: real, turn: real) returns (t: Option<Trade>)
    requires m.lot >= 1 && m.costs.buyRate >= 0.0 && CanTrade(m, s, Buy) && price == BuyPrice(m, s) > 0.0
    requires gap == Held(TargetShares(weights, equity, m.prices, m.lot), s) - Held(holdings, s) > 0
    requires turn == CashAtTurn(m, weights, holdings, equity, cash, s)
    ensures BuysWhatItCan(m.costs, s, gap, price, m.lot, turn, t)
    ensures OnlyTrade(Execute(m, weights, holdings, equity, cash), s, Held(holdings, s), t)
  {
    t := BuysTowards(m, TargetShares(weights, equity, m.prices, m.lot), Desk(cash, holdings, {}, [], 0.0), s, gap,
                     price, turn);
  }

  lemma BuysTowards(m: Market, target: map<string, int>, d: Desk, s: string, n: int, price: real, turn: real)
    returns (t: Option<Trade>)
    requires m.lot >= 1 && m.costs.buyRate >= 0.0 && CanTrade(m, s, Buy) && price == BuyPrice(m, s) > 0.0
    requires Untouched(d, s) && n == Held(target, s) - Held(d.holdings, s) > 0
    requires turn == AtTurn(m, target, d, Schedule(target, d.holdings), s).cash
    ensures BuysWhatItCan(m.costs, s, n, price, m.lot, turn, t)
    ensures OnlyTrade(Run(m, target, d, Schedule(target, d.holdings)), s, Held(d.holdings, s), t)
  {
    ScheduleFacts(target, d.holdings);
    t := RunBuys(m, target, d, Schedule(target, d.holdings), s, n, price, turn);
  }

  /** The cash pays for the whole of a buy or affords a lot. */
  predicate IsPaidFor(c: CostModel, gap: int, price: real, lot: int, cash: real) {
    CostOf(c, gap, price) <= cash || Affords(c, lot, price, cash)
  }

  /** A buy happens exactly when the symbol has to grow, may be bought, and is paid for by the cash at its turn. */
  lemma BuyHappensExactly(m: Market, weights: map<string, real>, holdings: map<string, int>, equity: real, cash: real,
                          s: string, gap: int)
    requires m.lot >= 1 && m.costs.buyRate >= 0.0 && (s in m.prices ==> BuyPrice(m, s) > 0.0)
    requires gap == Held(TargetShares(weights, equity, m.prices, m.lot), s) - Held(holdings, s)
    ensures Traded(Execute(m, weights, holdings, equity, cash), s, Buy) <==>
            && gap > 0 && CanTrade(m, s, Buy)
            && IsPaidFor(m.costs, gap, BuyPrice(m, s), m.lot, CashAtTurn(m, weights, holdings, equity, cash, s))
  {
    if CanTrade(m, s, Buy) && gap > 0 {
      DueBuyHappens(m, weights, holdings, equity, cash, s, gap, CashAtTurn(m, weights, holdings, equity, cash, s));
    } else {
      ExecutionTrades(m, weights, holdings, equity, cash, s);
    }
  }

  lemma DueBuyHappens(m: Market, weights: map<string, real>, holdings: map<string, int>, equity: real, cash: real,
                      s: string, gap: int, turn: real)
    requires m.lot >= 1 && m.costs.buyRate >= 0.0 && CanTrade(m, s, Buy) && BuyPrice(m, s) > 0.0 && gap > 0
    requires gap == Held(TargetShares(weights, equity, m.prices, m.lot), s) - Held(holdings, s)
    requires turn == CashAtTurn(m, weights, holdings, equity, cash, s)
    ensures Traded(Execute(m, weights, holdings, equity, cash), s, Buy)
      <==> IsPaidFor(m.costs, gap, BuyPrice(m, s), m.lot, turn)
  {
    var t := BuysAreMade(m, weights, holdings, equity, cash, s, gap, BuyPrice(m, s), turn);
    TradedOnlyThen(Execute(m, weights, holdings, equity, cash), s, Held(holdings, s), t, m.costs, gap, BuyPrice(m, s),
                   m.lot, turn);
  }

  lemma TradedOnlyThen(end: Desk, s: string, held: int, t: Option<Trade>, c: CostModel, n: int, price: real, lot: int,
                       cash: real)
    requires lot >= 1 && BuysWhatItCan(c, s, n, price, lot, cash, t) && OnlyTrade(end, s, held, t)
    ensures Traded(end, s, Buy) <==> IsPaidFor(c, n, price, lot, cash)
  {
    if t.Some? {
      assert t.value in end.trades && t.value.symbol == s && t.value.side == Buy;
      if CostOf(c, n, price) > cash { OneLotToo(c, price, lot, cash, t.value.shares); }
    }
  }

  lemma OneLotToo(c: CostModel, price: real, lot: int, cash: real, n: int)
    requires lot >= 1 && GreatestLots(c, price, lot, cash, n)
    ensures Affords(c, lot, price, cash)
  {
    var k := n / lot;
    assert n == lot * k + n % lot;
    if k < 1 { Multiples(k, 0, lot); }
    Multiples(1, k, lot);
    assert 1 * lot <= n <==> Affords(c, 1 * lot, price, cash);
  }

  lemma Multiples(a: int, b: int, lot: int)
    requires a <= b && lot >= 1
    ensures a * lot <= b * lot
  {
  }

  /** The formula charges the minimum commission on top of the rate, so that a lot the cash does pay for can be left:
      a lot of 100 at 10 costs 1005 with the minimum of 5, but with 1005.5 a buy of two lots is given up. */
  lemma AffordableLotIsLeft(s: string)
    ensures var c := CostModel(0.001, 0.001, 5.0, 0.001, 0.0);
      CostOf(c, 100, 10.0) == 1005.0 && BuyAt(c, s, 200, 10.0, 100, 1005.5) == None
  {
    var c := CostModel(0.001, 0.001, 5.0, 0.001, 0.0);
    BuyIsAllItCan(c, s, 200, 10.0, 100, 1005.5);
    assert !Affords(c, 100, 10.0, 1005.5);
    if BuyAt(c, s, 200, 10.0, 100, 1005.5).Some? {
      OneLotToo(c, 10.0, 100, 1005.5, BuyAt(c, s, 200, 10.0, 100, 1005.5).value.shares);
    }
  }

  // ---- the sales -------------------------------------------------------------------------

  /** The trade that sells `n` shares: the commission by the selling rate, the stamp tax on top. */
  function Disposal(c: CostModel, s: string, n: int, price: real): Trade {
    var value := Weighed(n as real, price);
    var fee, tax := Max(Weighed(value, c.sellRate), c.minCommission), Weighed(value, c.stampRate);
    Trade(s, Sell, n, price, value, fee, tax, fee + tax)
  }

  /** What the sale of the whole gap is. */
  ghost predicate SellsTheGap(m: Market, held: int, left: int, s: string, t: Trade) {
    && CanTrade(m, s, Sell) && SalePrice(m, s) > 0.0 && left < held
    && t == Disposal(m.costs, s, held - left, SalePrice(m, s))
  }

  lemma TurnToSell(m: Market, target: map<string, int>, d: Desk, s: string, t: Trade)
    requires m.lot >= 1 && Untouched(d, s) && SellsTheGap(m, Held(d.holdings, s), Held(target, s), s, t)
    ensures forall x: Trade | x.symbol == s :: x in Step(m, target, d, s).trades <==> x == t
    ensures Held(Step(m, target, d, s).holdings, s) == Held(target, s)
  {
    var n := Held(d.holdings, s) - Held(target, s);
    TradeIsDisposal(m.costs, s, n, SalePrice(m, s));
    SellsAt(m, s, n, SalePrice(m, s));
    assert TradeFor(m, target, d, s) == Some(SellTrade(m, s, n)) by {
      assert n == -(Held(target, s) - Held(d.holdings, s));
    }
  }

  lemma SellsAt(m: Market, s: string, n: int, price: real)
    requires s in m.prices && price == SalePrice(m, s)
    ensures SellTrade(m, s, n) == TradeAt(m.costs, s, Sell, n, price)
  {
  }

  lemma TradeIsDisposal(c: CostModel, s: string, n: int, price: real)
    requires n > 0 && price > 0.0
    ensures TradeAt(c, s, Sell, n, price) == Disposal(c, s, n, price)
  {
    StrictlySameSigns(n as real, price, n as real * price);
  }

  lemma {:induction false} RunSells(m: Market, target: map<string, int>, d: Desk, symbols: seq<string>, s: string,
                                    t: Trade)
    requires m.lot >= 1 && Distinct(symbols) && s in symbols && Untouched(d, s)
    requires SellsTheGap(m, Held(d.holdings, s), Held(target, s), s, t)
    ensures forall x: Trade | x.symbol == s :: x in Run(m, target, d, symbols).trades <==> x == t
    ensures Held(Run(m, target, d, symbols).holdings, s) == Held(target, s)
    decreases |symbols|
  {
    DistinctTail(symbols);
    if symbols[0] == s {
      TurnToSell(m, target, d, s, t);
      OthersLeaveAll(m, target, Step(m, target, d, s), symbols[1..], s);
    } else {
      OthersLeave(m, target, d, symbols[0], s);
      RunSells(m, target, Step(m, target, d, symbols[0]), symbols[1..], s, t);
    }
  }

  /** Every symbol that has to shrink and may be sold is sold down to its target in one trade, whatever the cash. */
  lemma SalesAreMade(m: Market, weights: map<string, real>, holdings: map<string, int>, equity: real, cash: real,
                     s: string, t: Trade)
    requires m.lot >= 1
    requires SellsTheGap(m, Held(holdings, s), Held(TargetShares(weights, equity, m.prices, m.lot), s), s, t)
    ensures var d := Execute(m, weights, holdings, equity, cash);
      && (forall x: Trade | x.symbol == s :: x in d.trades <==> x == t)
      && Held(d.holdings, s) == Held(TargetShares(weights, equity, m.prices, m.lot), s)
  {
    var target := TargetShares(weights, equity, m.prices, m.lot);
    ScheduleFacts(target, holdings);
    RunSells(m, target, Desk(cash, holdings, {}, [], 0.0), Schedule(target, holdings), s, t);
  }

  // ---- when every target is reached --------------------------------------------------------

  /** What the buys cost in full, those that may not be made left out. */
  function FullCost(m: Market, target: map<string, int>, holdings: map<string, int>, symbols: seq<string>): real {
    if symbols == [] then 0.0
    else
      var s := symbols[0];
      (if CanTrade(m, s, Buy) then CostOf(m.costs, Held(target, s) - Held(holdings, s), BuyPrice(m, s)) else 0.0)
        + FullCost(m, target, holdings, symbols[1..])
  }

  lemma CostIsPositive(c: CostModel, n: int, price: real)
    requires n > 0 && price > 0.0 && c.buyRate >= 0.0
    ensures CostOf(c, n, price) > 0.0
  {
    StrictlySameSigns(n as real, price, Weighed(n as real, price));
    PositiveFactors(Weighed(n as real, price), c.buyRate);
  }

  lemma {:induction false} FullCostIsPositive(m: Market, target: map<string, int>, holdings: map<string, int>,
                                              symbols: seq<string>)
    requires m.costs.buyRate >= 0.0
    requires forall s | s in symbols ::
      Held(target, s) > Held(holdings, s) && (CanTrade(m, s, Buy) ==> BuyPrice(m, s) > 0.0)
    ensures FullCost(m, target, holdings, symbols) >= 0.0
  {
    if symbols != [] {
      var s := symbols[0];
      assert s in symbols && forall x | x in symbols[1..] :: x in symbols;
      FullCostIsPositive(m, target, holdings, symbols[1..]);
      if CanTrade(m, s, Buy) { CostIsPositive(m.costs, Held(target, s) - Held(holdings, s), BuyPrice(m, s)); }
    }
  }

  lemma {:induction false} SameCost(m: Market, target: map<string, int>, a: map<string, int>, b: map<string, int>,
                                    symbols: seq<string>)
    requires forall s | s in symbols :: Held(a, s) == Held(b, s)
    ensures FullCost(m, target, a, symbols) == FullCost(m, target, b, symbols)
  {
    if symbols != [] {
      assert symbols[0] in symbols && forall x | x in symbols[1..] :: x in symbols;
      SameCost(m, target, a, b, symbols[1..]);
    }
  }

  /** These symbols all have to grow, and nothing has happened in them yet. */
  ghost predicate BuysDue(m: Market, target: map<string, int>, d: Desk, symbols: seq<string>) {
    && Distinct(symbols)
    && forall s | s in symbols ::
         Untouched(d, s) && Held(target, s) > Held(d.holdings, s) && (CanTrade(m, s, Buy) ==> BuyPrice(m, s) > 0.0)
  }

  /** With that much cash every buy that may be made is made in full. */
  lemma {:induction false} EnoughForAll(m: Market, target: map<string, int>, d: Desk, symbols: seq<string>, s: string)
    requires m.lot >= 1 && m.costs.buyRate >= 0.0 && s in symbols && CanTrade(m, s, Buy)
    requires BuysDue(m, target, d, symbols)
    requires FullCost(m, target, d.holdings, symbols) <= d.cash
    ensures Held(Run(m, target, d, symbols).holdings, s) == Held(target, s)
    decreases |symbols|
  {
    var first, rest := symbols[0], symbols[1..];
    var next := Step(m, target, d, first);
    DistinctTail(symbols);
    assert first in symbols && forall x | x in rest :: x in symbols && x != first;
    forall x | x in rest ensures Untouched(next, x) && Held(next.holdings, x) == Held(d.holdings, x) {
      OthersLeave(m, target, d, first, x);
    }
    SameCost(m, target, next.holdings, d.holdings, rest);
    if CanTrade(m, first, Buy) {
      FullCostIsPositive(m, target, d.holdings, rest);
      FullBuy(m, target, d, first);
    }
    if s == first {
      OthersLeaveAll(m, target, next, rest, s);
    } else {
      EnoughForAll(m, target, next, rest, s);
    }
  }

  lemma FullBuy(m: Market, target: map<string, int>, d: Desk, s: string)
    requires m.lot >= 1 && m.costs.buyRate >= 0.0 && Untouched(d, s) && CanTrade(m, s, Buy) && BuyPrice(m, s) > 0.0
    requires Held(target, s) > Held(d.holdings, s)
    requires CostOf(m.costs, Held(target, s) - Held(d.holdings, s), BuyPrice(m, s)) <= d.cash
    ensures var next := Step(m, target, d, s);
      && Held(next.holdings, s) == Held(target, s)
      && next.cash == d.cash - CostOf(m.costs, Held(target, s) - Held(d.holdings, s), BuyPrice(m, s))
  {
    var n := Held(target, s) - Held(d.holdings, s);
    BuyIsAllItCan(m.costs, s, n, BuyPrice(m, s), m.lot, d.cash);
    SamePrice(m, s);
    DueBuy(m, target, d, s, n, BuyPrice(m, s));
  }

  /** The buys in the order they are made. */
  ghost function DueBuys(target: map<string, int>, holdings: map<string, int>): seq<string> {
    Moving(SortedKeys.Keys(holdings.Keys + target.Keys), target, holdings, Buy)
  }

  /** Slippage leaves positive prices positive. */
  ghost predicate Priced(m: Market) {
    forall s | s in m.prices :: BuyPrice(m, s) > 0.0 && SalePrice(m, s) > 0.0
  }

  /** When the cash after the sales pays for all buys that may be made, every symbol that may be traded ends at its
      target. */
  lemma TargetsAreReached(m: Market, weights: map<string, real>, holdings: map<string, int>, equity: real, cash: real,
                          s: string)
    requires m.lot >= 1 && m.costs.buyRate >= 0.0 && Priced(m)
    requires var target := TargetShares(weights, equity, m.prices, m.lot);
      && FullCost(m, target, holdings, DueBuys(target, holdings))
           <= AfterSales(m, weights, holdings, equity, cash).cash
      && CanTrade(m, s, if Held(target, s) > Held(holdings, s) then Buy else Sell)
    ensures Held(Execute(m, weights, holdings, equity, cash).holdings, s)
      == Held(TargetShares(weights, equity, m.prices, m.lot), s)
  {
    var target, start := TargetShares(weights, equity, m.prices, m.lot), Desk(cash, holdings, {}, [], 0.0);
    if Held(target, s) < Held(holdings, s) {
      GapIsSold(m, target, holdings, start, s);
    } else if Held(target, s) == Held(holdings, s) {
      ScheduleFacts(target, holdings);
      OthersLeaveAll(m, target, start, Schedule(target, holdings), s);
    } else {
      BuysAreEnough(m, target, holdings, start, s);
    }
  }

  lemma GapIsSold(m: Market, target: map<string, int>, holdings: map<string, int>, start: Desk, s: string)
    requires m.lot >= 1 && start.holdings == holdings && start.soldToday == {} && start.trades == [] && Priced(m)
    requires Held(target, s) < Held(holdings, s) && CanTrade(m, s, Sell)
    ensures Held(Run(m, target, start, Schedule(target, holdings)).holdings, s) == Held(target, s)
  {
    ScheduleFacts(target, holdings);
    var t := SaleOfGap(m, Held(holdings, s), Held(target, s), s);
    RunSells(m, target, start, Schedule(target, holdings), s, t);
  }

  lemma SaleOfGap(m: Market, held: int, left: int, s: string) returns (t: Trade)
    requires CanTrade(m, s, Sell) && Priced(m) && left < held
    ensures SellsTheGap(m, held, left, s, t)
  {
    t := Disposal(m.costs, s, held - left, SalePrice(m, s));
  }

  lemma BuysAreEnough(m: Market, target: map<string, int>, holdings: map<string, int>, start: Desk, s: string)
    requires m.lot >= 1 && m.costs.buyRate >= 0.0 && start.holdings == holdings && start.soldToday == {}
    requires start.trades == [] && Priced(m)
    requires var all := SortedKeys.Keys(holdings.Keys + target.Keys);
      FullCost(m, target, holdings, DueBuys(target, holdings))
        <= Run(m, target, start, Moving(all, target, holdings, Sell)).cash
    requires Held(target, s) > Held(holdings, s) && CanTrade(m, s, Buy)
    ensures Held(Run(m, target, start, Schedule(target, holdings)).holdings, s) == Held(target, s)
  {
    var all := SortedKeys.Keys(holdings.Keys + target.Keys);
    var sells, buys := Moving(all, target, holdings, Sell), DueBuys(target, holdings);
    ScheduleParts(target, holdings);
    RunOfBoth(m, target, start, sells, buys);
    SalesLeaveBuys(m, target, holdings, start, sells, buys);
    SameCost(m, target, Run(m, target, start, sells).holdings, holdings, buys);
    EnoughForAll(m, target, Run(m, target, start, sells), buys, s);
  }

  lemma SalesLeaveBuys(m: Market, target: map<string, int>, holdings: map<string, int>, start: Desk, sells: seq<string>,
                       buys: seq<string>)
    requires m.lot >= 1 && start.holdings == holdings && start.soldToday == {} && start.trades == [] && Priced(m)
    requires Distinct(buys) && forall s | s in buys :: s !in sells && Held(target, s) > Held(holdings, s)
    ensures var sold := Run(m, target, start, sells);
      BuysDue(m, target, sold, buys) && forall s | s in buys :: Held(sold.holdings, s) == Held(holdings, s)
  {
    forall s | s in buys
      ensures var sold := Run(m, target, start, sells);
        && Untouched(sold, s) && Held(sold.holdings, s) == Held(holdings, s)
        && (CanTrade(m, s, Buy) ==> BuyPrice(m, s) > 0.0)
    {
      OthersLeaveAll(m, target, start, sells, s);
    }
  }

  /** Sales and buys are apart, and nothing else is on the schedule. */
  lemma ScheduleParts(target: map<string, int>, holdings: map<string, int>)
    ensures var all := SortedKeys.Keys(holdings.Keys + target.Keys);
      var sells, buys := Moving(all, target, holdings, Sell), DueBuys(target, holdings);
      && Schedule(target, holdings) == sells + buys && Distinct(buys)
      && (forall s :: s in buys <==> Held(target, s) > Held(holdings, s)) && (forall s | s in buys :: s !in sells)
  {
    var all := SortedKeys.Keys(holdings.Keys + target.Keys);
    forall i: nat, j: nat | i < j < |all| ensures all[i] != all[j] {
      SortedKeys.KeysAreDistinct(holdings.Keys + target.Keys, i, j);
    }
    MovingFacts(all, target, holdings, Sell);
    MovingFacts(all, target, holdings, Buy);
    forall s ensures s in DueBuys(target, holdings) <==> Held(target, s) > Held(holdings, s) {
      assert s in all <==> s in holdings.Keys + target.Keys;
    }
  }

  // ---- targets and limits ------------------------------------------------------------------

  /** The target of a priced symbol is the greatest number of whole lots worth no more than the weight of the equity. */
  lemma TargetIsGreatest(m: Market, weights: map<string, real>, equity: real, s: string, k: int)
    requires m.lot >= 1 && s in weights && s in m.prices && m.prices[s] > 0.0
    ensures var n := Held(TargetShares(weights, equity, m.prices, m.lot), s);
      n % m.lot == 0 && (k * m.lot <= n <==> Weighed((k * m.lot) as real, m.prices[s]) <= Weighed(equity, weights[s]))
  {
    var shares := SharesFor(equity, weights[s], m.prices[s]);
    LotsBelow(shares, m.lot, k);
    Quotient((k * m.lot) as real, m.prices[s], Weighed(equity, weights[s]));
    MultipleOfLot((shares / m.lot as real).Floor, m.lot);
  }

  /** Without a limit, or without both closes, every priced symbol with a bar can be traded either way, and no other. */
  lemma NoLimitBlocksNothing(m: Market, s: string, side: Side)
    requires m.limitPct <= 0.0 || s !in m.rawClose || s !in m.prevClose
    ensures CanTrade(m, s, side) <==> s in m.prices && s in m.tradable
  {
  }

  /** A symbol that closed a limit above the previous close cannot be bought, one a limit below cannot be sold, and
      apart from that a priced symbol with a bar can. */
  lemma LimitsBlock(m: Market, s: string)
    requires s in m.prices && s in m.tradable && s in m.rawClose && s in m.prevClose && m.prevClose[s] > 0.0
    requires m.limitPct > 0.000001
    ensures CanTrade(m, s, Buy) <==> m.rawClose[s] < Weighed(m.prevClose[s], 1.0 + (m.limitPct - 0.000001))
    ensures CanTrade(m, s, Sell) <==> m.rawClose[s] > Weighed(m.prevClose[s], 1.0 - (m.limitPct - 0.000001))
    ensures CanTrade(m, s, Buy) || CanTrade(m, s, Sell)
  {
    var prev, move, limit := m.prevClose[s], m.rawClose[s] - m.prevClose[s], m.limitPct - 0.000001;
    Quotient(limit, prev, move);
    Quotient(-limit, prev, move);
    Distribute(prev, 1.0, limit);
    Distribute(prev, 1.0, -limit);
    var change := move / prev;
    assert change * prev == move;
    if change <= -limit { MulOrder(change, -limit, prev); } else {
      StrictlySameSigns(change + limit, prev, (change + limit) * prev);
    }
  }

  // ---- the rule against buying what was sold today -------------------------------------------

  /** The symbols sold are those of the sales. */
  ghost predicate SoldAreSales(d: Desk) {
    forall s :: s in d.soldToday <==> exists t: Trade :: t in d.trades && t.side == Sell && t.symbol == s
  }

  lemma StepMarksSales(m: Market, target: map<string, int>, d: Desk, s: string)
    requires m.lot >= 1 && SoldAreSales(d)
    ensures SoldAreSales(Step(m, target, d, s))
    ensures forall x | x != s :: x in Step(m, target, d, s).soldToday ==> x in d.soldToday
  {
    var t, next := TradeFor(m, target, d, s), Step(m, target, d, s);
    if t.Some? {
      TradeFacts(m, target, d, s);
      forall x ensures x in next.soldToday <==> exists u: Trade :: u in next.trades && u.side == Sell && u.symbol == x {
        if x in d.soldToday {
          var u: Trade :| u in d.trades && u.side == Sell && u.symbol == x;
          assert u in next.trades;
        }
        assert t.value in next.trades;
      }
    }
  }

  lemma {:induction false} RuleIsIdle(m: Market, target: map<string, int>, d: Desk, symbols: seq<string>)
    requires m.lot >= 1 && Distinct(symbols) && SoldAreSales(d) && forall s | s in symbols :: s !in d.soldToday
    ensures SoldAreSales(Run(m, target, d, symbols))
    ensures Run(m.(tPlus1 := false), target, d, symbols) == Run(m, target, d, symbols)
    decreases |symbols|
  {
    if symbols != [] {
      var s, rest := symbols[0], symbols[1..];
      DistinctTail(symbols);
      assert s in symbols && forall x | x in rest :: x in symbols && x != s;
      StepMarksSales(m, target, d, s);
      RuleIsIdleOnce(m, target, d, s);
      RuleIsIdle(m, target, Step(m, target, d, s), rest);
    }
  }

  lemma RuleIsIdleOnce(m: Market, target: map<string, int>, d: Desk, s: string)
    requires m.lot >= 1 && s !in d.soldToday
    ensures Step(m.(tPlus1 := false), target, d, s) == Step(m, target, d, s)
  {
    var side := if Held(target, s) > Held(d.holdings, s) then Buy else Sell;
    SameLimit(m, s, side);
    if CanTrade(m, s, side) { SamePrices(m, s, Held(target, s) - Held(d.holdings, s), d.cash); }
  }

  lemma SameLimit(m: Market, s: string, side: Side)
    ensures CanTrade(m.(tPlus1 := false), s, side) == CanTrade(m, s, side)
  {
  }

  lemma SamePrices(m: Market, s: string, delta: int, cash: real)
    requires m.lot >= 1 && s in m.prices
    ensures BuyTrade(m.(tPlus1 := false), s, delta, cash) == BuyTrade(m, s, delta, cash)
    ensures SellTrade(m.(tPlus1 := false), s, -delta) == SellTrade(m, s, -delta)
  {
    var m' := m.(tPlus1 := false);
    assert Execution.BuyPrice(m', s) == Execution.BuyPrice(m, s);
  }

  /** A symbol is sold or bought in one call, never both: with no sales before, it notes exactly the symbols it sold,
      and the rule against buying them again changes nothing. */
  lemma SoldTodayNeverBinds(m: Market, weights: map<string, real>, holdings: map<string, int>, equity: real, cash: real)
    requires m.lot >= 1
    ensures SoldAreSales(Execute(m, weights, holdings, equity, cash))
    ensures Execute(m.(tPlus1 := false), weights, holdings, equity, cash) == Execute(m, weights, holdings, equity, cash)
  {
    var target := TargetShares(weights, equity, m.prices, m.lot);
    ScheduleFacts(target, holdings);
    RuleIsIdle(m, target, Desk(cash, holdings, {}, [], 0.0), Schedule(target, holdings));
  }
}
