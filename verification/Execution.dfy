/** Paper execution of target weights, `execute_portfolio_trades` in ez/portfolio/execution.py
    (its Python path): sells first, then buys, each symbol at most once. */
module Execution {
  import opened Options
  import opened Reals
  import opened Events
  import opened Ledger
  import opened Flows
  import SortedKeys

  const EPS_FUND := 0.01

  datatype CostModel = CostModel(buyRate: real, sellRate: real, minCommission: real, stampRate: real, slippage: real)

  /** What the day offers: prices, raw closes, symbols with a bar, and the trading rules. */
  datatype Market = Market(
    prices: map<string, real>, rawClose: map<string, real>, prevClose: map<string, real>, tradable: set<string>,
    costs: CostModel, lot: int, limitPct: real, tPlus1: bool)

  datatype Trade = Trade(
    symbol: string, side: Side, shares: int, price: real, amount: real, commission: real, stampTax: real, cost: real)

  datatype Desk = Desk(cash: real, holdings: map<string, int>, soldToday: set<string>, trades: seq<Trade>, volume: real)

  function LotRound(shares: real, lot: int): int
    requires lot >= 1
  {
    (shares / lot as real).Floor * lot
  }

  function TargetShares(weights: map<string, real>, equity: real, prices: map<string, real>, lot: int): map<string, int>
    requires lot >= 1
  {
    map s | s in weights && s in prices && prices[s] > 0.0 :: LotRound(SharesFor(equity, weights[s], prices[s]), lot)
  }

  /** The shares that make up the weight. */
  function SharesFor(equity: real, weight: real, price: real): real
    requires price > 0.0
  {
    (equity * weight) / price
  }

  function Commission(amount: real, rate: real, minimum: real): real {
    if Abs(amount) > 0.0 then Max(Abs(amount) * rate, minimum) else 0.0
  }

  function TradeAt(c: CostModel, symbol: string, side: Side, shares: int, price: real): Trade {
    var amount := shares as real * price;
    var commission := Commission(amount, if side.Buy? then c.buyRate else c.sellRate, c.minCommission);
    var stampTax := if side.Sell? then amount * c.stampRate else 0.0;
    Trade(symbol, side, shares, price, amount, commission, stampTax, commission + stampTax)
  }

  predicate AtLimit(m: Market, s: string, side: Side) {
    m.limitPct > 0.0 && s in m.rawClose && s in m.prevClose &&
    var prev := m.prevClose[s];
    var change := if prev > 0.0 then (m.rawClose[s] - prev) / prev else 0.0;
    if side.Buy? then change >= m.limitPct - 0.000001 else change <= -m.limitPct + 0.000001
  }

  predicate CanTrade(m: Market, s: string, side: Side) {
    s in m.prices && s in m.tradable && !AtLimit(m, s, side)
  }

  /** The shares the cash buys at this price, commission included. */
  function Affordable(c: CostModel, price: real, cash: real): real {
    var perShare := price * (1.0 + c.buyRate);
    if price > 0.0 && perShare != 0.0 then (cash - Max(c.minCommission, 0.0)) / perShare else 0.0
  }

  function CutTrade(c: CostModel, s: string, price: real, affordable: real, lot: int, cash: real): Option<Trade>
    requires lot >= 1
  {
    var fewer := LotRound(affordable, lot);
    var cut := TradeAt(c, s, Buy, fewer, price);
    if affordable <= 0.0 || fewer <= 0 || cut.amount + cut.cost > cash + EPS_FUND then None else Some(cut)
  }

  /** A buy that is too dear is cut down to what the cash affords. */
  function BuyAt(c: CostModel, s: string, shares: int, price: real, lot: int, cash: real): Option<Trade>
    requires lot >= 1
  {
    var full := TradeAt(c, s, Buy, shares, price);
    if full.amount + full.cost <= cash then Some(full)
    else CutTrade(c, s, price, Affordable(c, price, cash), lot, cash)
  }

  function BuyPrice(m: Market, s: string): real
    requires s in m.prices
  {
    m.prices[s] * (1.0 + m.costs.slippage)
  }

  function BuyTrade(m: Market, s: string, shares: int, cash: real): Option<Trade>
    requires m.lot >= 1 && s in m.prices
  {
    BuyAt(m.costs, s, shares, BuyPrice(m, s), m.lot, cash)
  }

  function SellTrade(m: Market, s: string, shares: int): Trade
    requires s in m.prices
  {
    TradeAt(m.costs, s, Sell, shares, m.prices[s] * (1.0 - m.costs.slippage))
  }

  /** The trade a symbol leads to, if any. */
  function TradeFor(m: Market, target: map<string, int>, d: Desk, s: string): Option<Trade>
    requires m.lot >= 1
  {
    var delta := Held(target, s) - Held(d.holdings, s);
    var side := if delta > 0 then Buy else Sell;
    if delta == 0 || !CanTrade(m, s, side) || (m.tPlus1 && side.Buy? && s in d.soldToday) then None
    else if side.Buy? then BuyTrade(m, s, delta, d.cash)
    else Some(SellTrade(m, s, -delta))
  }

  function Book(d: Desk, target: map<string, int>, t: Trade): Desk {
    var left := Held(target, t.symbol);
    Desk(
      if t.side.Buy? then d.cash - (t.amount + t.cost) else d.cash + (t.amount - t.cost),
      if t.side.Buy? then d.holdings[t.symbol := Held(d.holdings, t.symbol) + t.shares]
      else if left == 0 then d.holdings - {t.symbol} else d.holdings[t.symbol := left],
      if t.side.Sell? then d.soldToday + {t.symbol} else d.soldToday,
      d.trades + [t],
      d.volume + t.amount)
  }

  function Step(m: Market, target: map<string, int>, d: Desk, s: string): Desk
    requires m.lot >= 1
  {
    var t := TradeFor(m, target, d, s);
    if t.Some? then Book(d, target, t.value) else d
  }

  function Run(m: Market, target: map<string, int>, d: Desk, symbols: seq<string>): Desk
    requires m.lot >= 1
    decreases |symbols|
  {
    if symbols == [] then d else Run(m, target, Step(m, target, d, symbols[0]), symbols[1..])
  }

  /** The symbols whose position has to change in this direction. */
  function Moving(all: seq<string>, target: map<string, int>, holdings: map<string, int>, side: Side): seq<string> {
    if all == [] then []
    else
      var delta := Held(target, all[0]) - Held(holdings, all[0]);
      (if (side.Buy? && delta > 0) || (side.Sell? && delta < 0) then [all[0]] else [])
        + Moving(all[1..], target, holdings, side)
  }

  ghost function Schedule(target: map<string, int>, holdings: map<string, int>): seq<string> {
    var all := SortedKeys.Keys(holdings.Keys + target.Keys);
    Moving(all, target, holdings, Sell) + Moving(all, target, holdings, Buy)
  }

  ghost function Execute(m: Market, weights: map<string, real>, holdings: map<string, int>, equity: real,
                         cash: real): Desk
    requires m.lot >= 1
  {
    var target := TargetShares(weights, equity, m.prices, m.lot);
    Run(m, target, Desk(cash, holdings, {}, [], 0.0), Schedule(target, holdings))
  }

  /** The loop of the code. */
  method ExecutePortfolioTrades(m: Market, weights: map<string, real>, holdings: map<string, int>, equity: real,
                                cash: real)
    returns (d: Desk)
    requires m.lot >= 1
    ensures d == Execute(m, weights, holdings, equity, cash)
  {
    var target := TargetShares(weights, equity, m.prices, m.lot);
    var all := SortedKeys.SortKeys(holdings.Keys + target.Keys);
    var todo := Moving(all, target, holdings, Sell) + Moving(all, target, holdings, Buy);
    d := TradeEach(m, target, Desk(cash, holdings, {}, [], 0.0), todo);
  }

  method TradeEach(m: Market, target: map<string, int>, start: Desk, todo: seq<string>) returns (d: Desk)
    requires m.lot >= 1
    ensures d == Run(m, target, start, todo)
  {
    d := start;
    assert todo[0..] == todo;
    for i := 0 to |todo|
      invariant Run(m, target, d, todo[i..]) == Run(m, target, start, todo)
    {
      d := Step(m, target, d, todo[i]);
      assert todo[i..][1..] == todo[i + 1..];
    }
  }

  // ---- what execution does -------------------------------------------------------------

  function AsFill(t: Trade): FillPayload { FillPayload(t.symbol, t.side, t.shares, t.price, t.amount, t.cost) }

  function TradeMove(symbol: string): Trade -> Move { (t: Trade) => MoveOf(AsFill(t), symbol) }

  ghost predicate Distinct(symbols: seq<string>) {
    forall i, j | 0 <= i < j < |symbols| :: symbols[i] != symbols[j]
  }

  /** The desk shows what its trades moved, and has traded only in `done`, each symbol once. */
  ghost predicate Balanced(d: Desk, done: set<string>, cash: real, holdings: map<string, int>) {
    && (forall t | t in d.trades :: t.symbol in done && t.shares > 0)
    && (forall i, j | 0 <= i < j < |d.trades| :: d.trades[i].symbol != d.trades[j].symbol)
    && (forall s :: d.cash == cash + Total(d.trades, TradeMove(s)).cash)
    && (forall s :: Get(d.holdings, s) == Netted(Get(holdings, s), Total(d.trades, TradeMove(s))))
  }

  function SetOf(symbols: seq<string>): set<string> { set s | s in symbols }

  lemma {:induction false} NothingMovedYet(trades: seq<Trade>, symbol: string)
    requires forall t | t in trades :: t.symbol != symbol
    ensures var m := Total(trades, TradeMove(symbol)); m.bought == 0 && m.sold == 0
  {
    if trades != [] { NothingMovedYet(trades[1..], symbol); }
  }

  lemma MovesAfter(trades: seq<Trade>, t: Trade, symbol: string)
    ensures Total(trades + [t], TradeMove(symbol)) == Plus(Total(trades, TradeMove(symbol)), MoveOf(AsFill(t), symbol))
  {
    TotalOfBoth(trades, [t], TradeMove(symbol));
    TotalOfCons(t, [], TradeMove(symbol));
    assert [t] + [] == [t];
  }

  lemma TradeFacts(m: Market, target: map<string, int>, d: Desk, s: string)
    requires m.lot >= 1 && TradeFor(m, target, d, s).Some?
    ensures var t := TradeFor(m, target, d, s).value;
      && t.symbol == s && t.shares > 0
      && (t.side.Buy? <==> Held(target, s) > Held(d.holdings, s))
      && (t.side.Sell? ==> t.shares == Held(d.holdings, s) - Held(target, s))
  {
  }

  /** What booking a trade does to the cash and to one symbol's position. */
  lemma BookMoves(d: Desk, target: map<string, int>, t: Trade, cash: real, held: Option<int>, s: string)
    requires d.cash == cash + Total(d.trades, TradeMove(s)).cash
    requires Get(d.holdings, s) == Netted(held, Total(d.trades, TradeMove(s)))
    requires s == t.symbol ==> t.shares > 0 && Held(target, s) >= 0 && forall u | u in d.trades :: u.symbol != s
    requires s == t.symbol && t.side.Sell? ==> t.shares == Held(d.holdings, s) - Held(target, s)
    ensures var after := Book(d, target, t);
      && after.cash == cash + Total(after.trades, TradeMove(s)).cash
      && Get(after.holdings, s) == Netted(held, Total(after.trades, TradeMove(s)))
  {
    MovesAfter(d.trades, t, s);
    if s == t.symbol { NothingMovedYet(d.trades, s); }
  }

  /** Booking a trade in a symbol not traded before keeps the desk balanced. */
  lemma BookBalances(d: Desk, target: map<string, int>, t: Trade, done: set<string>, cash: real,
                     holdings: map<string, int>)
    requires Balanced(d, done, cash, holdings) && t.symbol !in done && t.shares > 0 && Held(target, t.symbol) >= 0
    requires t.side.Sell? ==> t.shares == Held(d.holdings, t.symbol) - Held(target, t.symbol)
    ensures Balanced(Book(d, target, t), done + {t.symbol}, cash, holdings)
  {
    var after := Book(d, target, t);
    forall s ensures after.cash == cash + Total(after.trades, TradeMove(s)).cash
      && Get(after.holdings, s) == Netted(Get(holdings, s), Total(after.trades, TradeMove(s)))
    {
      BookMoves(d, target, t, cash, Get(holdings, s), s);
    }
  }

  lemma {:induction false} RunBalances(m: Market, target: map<string, int>, d: Desk, symbols: seq<string>,
                                       done: set<string>, cash: real, holdings: map<string, int>)
    requires m.lot >= 1 && (forall s | s in target :: target[s] >= 0)
    requires Balanced(d, done, cash, holdings) && Distinct(symbols) && forall s | s in symbols :: s !in done
    ensures Balanced(Run(m, target, d, symbols), done + SetOf(symbols), cash, holdings)
    decreases |symbols|
  {
    if symbols == [] {
      assert done + SetOf(symbols) == done;
    } else {
      var s, rest := symbols[0], symbols[1..];
      StepBalances(m, target, d, s, done, cash, holdings);
      DistinctTail(symbols);
      RunBalances(m, target, Step(m, target, d, s), rest, done + {s}, cash, holdings);
      assert done + {s} + SetOf(rest) == done + SetOf(symbols) by { assert symbols == [s] + rest; }
    }
  }

  lemma DistinctTail(symbols: seq<string>)
    requires symbols != [] && Distinct(symbols)
    ensures Distinct(symbols[1..]) && symbols[0] !in symbols[1..]
  {
  }

  lemma StepBalances(m: Market, target: map<string, int>, d: Desk, s: string, done: set<string>, cash: real,
                     holdings: map<string, int>)
    requires m.lot >= 1 && (forall s | s in target :: target[s] >= 0)
    requires Balanced(d, done, cash, holdings) && s !in done
    ensures Balanced(Step(m, target, d, s), done + {s}, cash, holdings)
  {
    var t := TradeFor(m, target, d, s);
    if t.Some? {
      TradeFacts(m, target, d, s);
      BookBalances(d, target, t.value, done, cash, holdings);
    }
  }

  lemma {:induction false} MovingFacts(all: seq<string>, target: map<string, int>, holdings: map<string, int>,
                                       side: Side)
    requires Distinct(all)
    ensures var r := Moving(all, target, holdings, side);
      && Distinct(r)
      && forall s ::
           s in r <==>
             && s in all
             && (if side.Buy? then Held(target, s) > Held(holdings, s) else Held(target, s) < Held(holdings, s))
  {
    if all != [] {
      assert forall i, j | 0 <= i < j < |all| - 1 :: all[1..][i] != all[1..][j];
      assert all[0] !in all[1..];
      MovingFacts(all[1..], target, holdings, side);
    }
  }

  /** Every symbol that has to change comes up once. */
  lemma ScheduleFacts(target: map<string, int>, holdings: map<string, int>)
    ensures Distinct(Schedule(target, holdings))
    ensures forall s :: s in Schedule(target, holdings) <==> Held(target, s) != Held(holdings, s)
  {
    var all := SortedKeys.Keys(holdings.Keys + target.Keys);
    forall i: nat, j: nat | i < j < |all|
      ensures all[i] != all[j]
    {
      SortedKeys.KeysAreDistinct(holdings.Keys + target.Keys, i, j);
    }
    MovingFacts(all, target, holdings, Sell);
    MovingFacts(all, target, holdings, Buy);
    var sells, buys := Moving(all, target, holdings, Sell), Moving(all, target, holdings, Buy);
    forall i, j | 0 <= i < |sells| && 0 <= j < |buys| ensures sells[i] != buys[j] {
      assert sells[i] in sells && buys[j] in buys;
    }
    forall s ensures s in sells + buys <==> Held(target, s) != Held(holdings, s) {
      assert s in all <==> s in holdings.Keys + target.Keys;
    }
  }

  lemma LotRoundOfPositive(shares: real, lot: int)
    requires lot >= 1 && shares >= 0.0
    ensures LotRound(shares, lot) >= 0 && LotRound(shares, lot) % lot == 0
  {
    var x := shares / lot as real;
    assert x >= 0.0;
    MultipleOfLot(x.Floor, lot);
  }

  lemma MultipleOfLot(k: int, lot: int)
    requires lot >= 1
    ensures (k * lot) % lot == 0 && (k >= 0 ==> k * lot >= 0)
  {
    var q, r := (k * lot) / lot, (k * lot) % lot;
    SmallMultiple(k - q, lot, r);
  }

  lemma NonNegativeProduct(a: nat, b: nat)
    ensures a * b >= 0
  {
  }

  lemma SmallMultiple(d: int, lot: int, r: int)
    requires lot >= 1 && d * lot == r && 0 <= r < lot
    ensures d == 0
  {
    if d >= 1 { NonNegativeProduct(d - 1, lot); } else if d <= -1 { NonNegativeProduct(-d - 1, lot); }
  }

  lemma TargetIsPositive(weight: real, equity: real, price: real, product: real)
    requires weight >= 0.0 && equity > 0.0 && price > 0.0 && product == equity * weight
    ensures product / price >= 0.0
  {
    MulOrder(0.0, weight, equity);
  }

  lemma TargetsArePositive(weights: map<string, real>, equity: real, prices: map<string, real>, lot: int)
    requires lot >= 1 && (weights == map[] || equity > 0.0) && forall s | s in weights :: weights[s] >= 0.0
    ensures var target := TargetShares(weights, equity, prices, lot); forall s | s in target :: target[s] >= 0
  {
    var target := TargetShares(weights, equity, prices, lot);
    forall s | s in target ensures target[s] >= 0 {
      TargetIsPositive(weights[s], equity, prices[s], equity * weights[s]);
      LotRoundOfPositive(SharesFor(equity, weights[s], prices[s]), lot);
    }
  }

  /** Cash and holdings afterwards are exactly what the recorded trades moved, whatever the market, and
      no symbol trades twice. */
  lemma ExecutionBalances(m: Market, weights: map<string, real>, holdings: map<string, int>, equity: real, cash: real)
    requires m.lot >= 1 && (weights == map[] || equity > 0.0) && forall s | s in weights :: weights[s] >= 0.0
    ensures var target := TargetShares(weights, equity, m.prices, m.lot);
      Balanced(Execute(m, weights, holdings, equity, cash), SetOf(Schedule(target, holdings)), cash, holdings)
  {
    var target := TargetShares(weights, equity, m.prices, m.lot);
    TargetsArePositive(weights, equity, m.prices, m.lot);
    ScheduleFacts(target, holdings);
    var d := Desk(cash, holdings, {}, [], 0.0);
    assert Balanced(d, {}, cash, holdings);
    RunBalances(m, target, d, Schedule(target, holdings), {}, cash, holdings);
    assert {} + SetOf(Schedule(target, holdings)) == SetOf(Schedule(target, holdings));
  }

  // ---- which trades happen -------------------------------------------------------------

  /** A trade happened in this symbol and direction. */
  ghost predicate Traded(d: Desk, symbol: string, side: Side) {
    exists t :: t in d.trades && t.symbol == symbol && t.side == side
  }

  /** The symbol has to move in this direction. */
  predicate Due(d: Desk, target: map<string, int>, symbol: string, side: Side) {
    if side.Buy? then Held(target, symbol) > Held(d.holdings, symbol)
    else Held(target, symbol) < Held(d.holdings, symbol)
  }

  /** Every trade goes the way its symbol has to move, and every sale the rules allow happens. */
  lemma {:induction false} RunTrades(m: Market, target: map<string, int>, d: Desk, symbols: seq<string>, symbol: string,
                                     side: Side)
    requires m.lot >= 1 && Distinct(symbols)
    ensures symbol !in symbols ==>
      Held(Run(m, target, d, symbols).holdings, symbol) == Held(d.holdings, symbol)
        && (Traded(Run(m, target, d, symbols), symbol, side) <==> Traded(d, symbol, side))
    ensures symbol in symbols && !Traded(d, symbol, side) && Traded(Run(m, target, d, symbols), symbol, side)
      ==> CanTrade(m, symbol, side) && Due(d, target, symbol, side)
    ensures symbol in symbols && CanTrade(m, symbol, Sell) && Held(target, symbol) < Held(d.holdings, symbol)
      ==> Traded(Run(m, target, d, symbols), symbol, Sell)
    decreases |symbols|
  {
    if symbols != [] {
      var s, rest := symbols[0], symbols[1..];
      var next := Step(m, target, d, s);
      DistinctTail(symbols);
      StepTrades(m, target, d, s, symbol, side);
      StepTrades(m, target, d, s, symbol, Sell);
      RunTrades(m, target, next, rest, symbol, side);
      RunTrades(m, target, next, rest, symbol, Sell);
    }
  }

  lemma StepTrades(m: Market, target: map<string, int>, d: Desk, s: string, symbol: string, side: Side)
    requires m.lot >= 1
    ensures var next := Step(m, target, d, s);
      if s != symbol then Held(next.holdings, symbol) == Held(d.holdings, symbol)
        && (Traded(next, symbol, side) <==> Traded(d, symbol, side))
      else
        && (Traded(d, symbol, side) ==> Traded(next, symbol, side))
        && (Traded(next, symbol, side)
            ==> Traded(d, symbol, side) || (CanTrade(m, symbol, side) && Due(d, target, symbol, side)))
        && (CanTrade(m, symbol, Sell) && Held(target, symbol) < Held(d.holdings, symbol) ==> Traded(next, symbol, Sell))
  {
    var t := TradeFor(m, target, d, s);
    if t.Some? {
      TradeFacts(m, target, d, s);
      var next := Step(m, target, d, s);
      assert t.value in next.trades;
      assert forall x :: x in next.trades <==> x in d.trades || x == t.value;
    }
  }

  /** A sale happens exactly when the position has to shrink and the rules allow it; a buy only when
      the position has to grow. */
  lemma ExecutionTrades(m: Market, weights: map<string, real>, holdings: map<string, int>, equity: real, cash: real,
                        symbol: string)
    requires m.lot >= 1
    ensures var target := TargetShares(weights, equity, m.prices, m.lot);
      var d := Execute(m, weights, holdings, equity, cash);
      && (Traded(d, symbol, Sell) <==> CanTrade(m, symbol, Sell) && Held(target, symbol) < Held(holdings, symbol))
      && (Traded(d, symbol, Buy) ==> CanTrade(m, symbol, Buy) && Held(target, symbol) > Held(holdings, symbol))
  {
    var target := TargetShares(weights, equity, m.prices, m.lot);
    var d := Desk(cash, holdings, {}, [], 0.0);
    ScheduleFacts(target, holdings);
    RunTrades(m, target, d, Schedule(target, holdings), symbol, Sell);
    RunTrades(m, target, d, Schedule(target, holdings), symbol, Buy);
  }

  // ---- buys are paid from the cash at hand ---------------------------------------------

  /** `n` shares cost no more than the cash when their price with the commission rate leaves room for the
      minimum commission. */
  lemma CostFits(c: CostModel, s: string, n: int, price: real, value: real, cash: real)
    requires n >= 0 && price > 0.0 && c.buyRate >= 0.0 && value == n as real * price
    requires value + value * c.buyRate <= cash - Max(c.minCommission, 0.0)
    ensures var t := TradeAt(c, s, Buy, n, price); t.amount + t.cost <= cash
  {
    MulOrder(0.0, n as real, price);
    MulOrder(0.0, value, c.buyRate);
  }

  lemma LotRoundIsBelow(shares: real, lot: int)
    requires lot >= 1
    ensures LotRound(shares, lot) as real <= shares
  {
    var x := shares / lot as real;
    MulOrder(x.Floor as real, x, lot as real);
    assert x * lot as real == shares;
    assert (x.Floor * lot) as real == x.Floor as real * lot as real;
  }

  lemma WithRate(n: real, price: real, rate: real)
    ensures n * (price * (1.0 + rate)) == n * price + (n * price) * rate
  {
  }

  /** What the affordable number of shares costs. */
  lemma AffordableFits(c: CostModel, s: string, n: int, price: real, perShare: real, affordable: real, cash: real)
    requires n >= 0 && price > 0.0 && c.buyRate >= 0.0 && perShare == price * (1.0 + c.buyRate) && perShare > 0.0
    requires affordable * perShare == cash - Max(c.minCommission, 0.0) && n as real <= affordable
    ensures var t := TradeAt(c, s, Buy, n, price); t.amount + t.cost <= cash
  {
    MulOrder(n as real, affordable, perShare);
    WithRate(n as real, price, c.buyRate);
    CostFits(c, s, n, price, n as real * price, cash);
  }

  /** The affordable shares are those the cash just pays for. */
  lemma AffordablePays(c: CostModel, price: real, cash: real)
    requires c.buyRate >= 0.0 && Affordable(c, price, cash) > 0.0
    ensures price > 0.0 && Affordable(c, price, cash) * (price * (1.0 + c.buyRate)) == cash - Max(c.minCommission, 0.0)
  {
  }

  /** A buy that is too dear is cut to fewer shares that are not. */
  lemma CutFits(c: CostModel, s: string, shares: int, price: real, lot: int, affordable: real, cash: real)
    requires lot >= 1 && shares > 0 && c.buyRate >= 0.0 && CutTrade(c, s, price, affordable, lot, cash).Some?
    requires price > 0.0 && affordable * (price * (1.0 + c.buyRate)) == cash - Max(c.minCommission, 0.0)
    requires var full := TradeAt(c, s, Buy, shares, price); full.amount + full.cost > cash
    ensures var cut := CutTrade(c, s, price, affordable, lot, cash).value;
      0 < cut.shares < shares && cut.shares % lot == 0 && cut.amount + cut.cost <= cash
  {
    var fewer, perShare := LotRound(affordable, lot), price * (1.0 + c.buyRate);
    LotRoundIsBelow(affordable, lot);
    PerShareIsPositive(price, c.buyRate, perShare);
    AffordableFits(c, s, fewer, price, perShare, affordable, cash);
    if fewer >= shares { AffordableFits(c, s, shares, price, perShare, affordable, cash); }
    MultipleOfLot((affordable / lot as real).Floor, lot);
  }

  lemma DearBuyFits(c: CostModel, s: string, shares: int, price: real, lot: int, cash: real)
    requires lot >= 1 && shares > 0 && c.buyRate >= 0.0
    requires CutTrade(c, s, price, Affordable(c, price, cash), lot, cash).Some?
    requires var full := TradeAt(c, s, Buy, shares, price); full.amount + full.cost > cash
    ensures var cut := CutTrade(c, s, price, Affordable(c, price, cash), lot, cash).value;
      0 < cut.shares < shares && cut.shares % lot == 0 && cut.amount + cut.cost <= cash
  {
    AffordablePays(c, price, cash);
    CutFits(c, s, shares, price, lot, Affordable(c, price, cash), cash);
  }

  /** A buy takes at least a share, no more than was asked for, and costs no more than the cash: the code's
      one-cent tolerance is never used. */
  lemma BuyFits(c: CostModel, s: string, shares: int, price: real, lot: int, cash: real)
    requires lot >= 1 && shares > 0 && c.buyRate >= 0.0 && BuyAt(c, s, shares, price, lot, cash).Some?
    ensures var t := BuyAt(c, s, shares, price, lot, cash).value;
      0 < t.shares <= shares && t.amount + t.cost <= cash && (t.shares < shares ==> t.shares % lot == 0)
  {
    var full := TradeAt(c, s, Buy, shares, price);
    if full.amount + full.cost > cash { DearBuyFits(c, s, shares, price, lot, cash); }
  }

  lemma PerShareIsPositive(price: real, rate: real, perShare: real)
    requires price > 0.0 && rate >= 0.0 && perShare == price * (1.0 + rate)
    ensures perShare > 0.0
  {
    MulOrder(0.0, rate, price);
  }

  // ---- no trade beyond the request, no buy beyond the cash -----------------------------

  /** How far the position is from its target. */
  function Gap(target: map<string, int>, holdings: map<string, int>, s: string): int {
    var delta := Held(target, s) - Held(holdings, s);
    if delta < 0 then -delta else delta
  }

  lemma TradeFits(m: Market, target: map<string, int>, d: Desk, s: string)
    requires m.lot >= 1 && m.costs.buyRate >= 0.0 && TradeFor(m, target, d, s).Some?
    ensures var t := TradeFor(m, target, d, s).value;
      t.shares <= Gap(target, d.holdings, s) && (t.side.Buy? ==> t.amount + t.cost <= d.cash)
  {
    var delta := Held(target, s) - Held(d.holdings, s);
    if delta > 0 { BuyTradeFits(m, s, delta, d.cash); }
  }

  lemma BuyTradeFits(m: Market, s: string, shares: int, cash: real)
    requires m.lot >= 1 && s in m.prices && shares > 0 && m.costs.buyRate >= 0.0 && BuyTrade(m, s, shares, cash).Some?
    ensures var t := BuyTrade(m, s, shares, cash).value; t.shares <= shares && t.amount + t.cost <= cash
  {
    BuyFits(m.costs, s, shares, BuyPrice(m, s), m.lot, cash);
  }

  /** No trade goes beyond its symbol's gap, and a sale closes it. */
  ghost predicate WithinGaps(trades: seq<Trade>, target: map<string, int>, holdings: map<string, int>) {
    forall t | t in trades ::
      t.shares <= Gap(target, holdings, t.symbol) && (t.side.Sell? ==> t.shares == Gap(target, holdings, t.symbol))
  }

  lemma {:induction false} RunWithinGaps(m: Market, target: map<string, int>, d: Desk, symbols: seq<string>,
                                         holdings: map<string, int>)
    requires m.lot >= 1 && m.costs.buyRate >= 0.0 && Distinct(symbols) && WithinGaps(d.trades, target, holdings)
    requires forall s | s in symbols :: Held(d.holdings, s) == Held(holdings, s)
    ensures WithinGaps(Run(m, target, d, symbols).trades, target, holdings)
    decreases |symbols|
  {
    if symbols != [] {
      var s, rest := symbols[0], symbols[1..];
      var next := Step(m, target, d, s);
      DistinctTail(symbols);
      forall x | x in rest ensures Held(next.holdings, x) == Held(holdings, x) {
        assert x in symbols && x != s;
        StepTrades(m, target, d, s, x, Buy);
      }
      StepWithinGaps(m, target, d, s, holdings);
      RunWithinGaps(m, target, next, rest, holdings);
    }
  }

  lemma StepWithinGaps(m: Market, target: map<string, int>, d: Desk, s: string, holdings: map<string, int>)
    requires m.lot >= 1 && m.costs.buyRate >= 0.0 && WithinGaps(d.trades, target, holdings)
      && Held(d.holdings, s) == Held(holdings, s)
    ensures WithinGaps(Step(m, target, d, s).trades, target, holdings)
  {
    var t := TradeFor(m, target, d, s);
    if t.Some? {
      TradeFits(m, target, d, s);
      TradeFacts(m, target, d, s);
    }
  }

  /** Buys spend cash that is there. */
  lemma {:induction false} BuysKeepCash(m: Market, target: map<string, int>, d: Desk, symbols: seq<string>)
    requires m.lot >= 1 && m.costs.buyRate >= 0.0 && Distinct(symbols)
    requires forall s | s in symbols :: Held(target, s) > Held(d.holdings, s)
    ensures Run(m, target, d, symbols).cash >= Min(d.cash, 0.0)
    decreases |symbols|
  {
    if symbols != [] {
      var s, rest := symbols[0], symbols[1..];
      var next := Step(m, target, d, s);
      DistinctTail(symbols);
      assert s in symbols;
      forall x | x in rest ensures Held(target, x) > Held(next.holdings, x) {
        assert x in symbols && x != s;
        StepTrades(m, target, d, s, x, Buy);
      }
      BuyKeepsCash(m, target, d, s);
      BuysKeepCash(m, target, next, rest);
    }
  }

  lemma BuyKeepsCash(m: Market, target: map<string, int>, d: Desk, s: string)
    requires m.lot >= 1 && m.costs.buyRate >= 0.0 && Held(target, s) > Held(d.holdings, s)
    ensures Step(m, target, d, s).cash >= Min(d.cash, 0.0)
  {
    if TradeFor(m, target, d, s).Some? {
      TradeFits(m, target, d, s);
      TradeFacts(m, target, d, s);
    }
  }

  lemma {:induction false} RunOfBoth(m: Market, target: map<string, int>, d: Desk, a: seq<string>, b: seq<string>)
    requires m.lot >= 1
    ensures Run(m, target, d, a + b) == Run(m, target, Run(m, target, d, a), b)
    decreases |a|
  {
    if a == [] {
      assert a + b == b;
    } else {
      assert (a + b)[1..] == a[1..] + b;
      RunOfBoth(m, target, Step(m, target, d, a[0]), a[1..], b);
    }
  }

  /** The desk after the sales, which come first. */
  ghost function AfterSales(m: Market, weights: map<string, real>, holdings: map<string, int>, equity: real,
                            cash: real): Desk
    requires m.lot >= 1
  {
    var target := TargetShares(weights, equity, m.prices, m.lot);
    Run(m, target, Desk(cash, holdings, {}, [], 0.0), Moving(SortedKeys.Keys(holdings.Keys + target.Keys), target,
                                                             holdings, Sell))
  }

  /** No trade exceeds what its position has to move, a sale moves all of it, and the buys never overdraw what the
      sales left. */
  lemma ExecutionFits(m: Market, weights: map<string, real>, holdings: map<string, int>, equity: real, cash: real)
    requires m.lot >= 1 && m.costs.buyRate >= 0.0
    ensures var d := Execute(m, weights, holdings, equity, cash);
      && WithinGaps(d.trades, TargetShares(weights, equity, m.prices, m.lot), holdings)
      && d.cash >= Min(AfterSales(m, weights, holdings, equity, cash).cash, 0.0)
  {
    var target := TargetShares(weights, equity, m.prices, m.lot);
    var all, start := SortedKeys.Keys(holdings.Keys + target.Keys), Desk(cash, holdings, {}, [], 0.0);
    var sells, buys := Moving(all, target, holdings, Sell), Moving(all, target, holdings, Buy);
    ScheduleFacts(target, holdings);
    RunWithinGaps(m, target, start, sells + buys, holdings);
    forall i: nat, j: nat | i < j < |all|
      ensures all[i] != all[j]
    {
      SortedKeys.KeysAreDistinct(holdings.Keys + target.Keys, i, j);
    }
    MovingFacts(all, target, holdings, Sell);
    MovingFacts(all, target, holdings, Buy);
    forall s | s in buys ensures Held(target, s) > Held(AfterSales(m, weights, holdings, equity, cash).holdings, s) {
      assert s !in sells;
      RunTrades(m, target, start, sells, s, Buy);
    }
    RunOfBoth(m, target, start, sells, buys);
    BuysKeepCash(m, target, Run(m, target, start, sells), buys);
  }

  function AmountsOf(trades: seq<Trade>): real {
    if trades == [] then 0.0 else AmountsOf(trades[..|trades| - 1]) + trades[|trades| - 1].amount
  }

  lemma {:induction false} RunVolume(m: Market, target: map<string, int>, d: Desk, symbols: seq<string>)
    requires m.lot >= 1 && d.volume == AmountsOf(d.trades)
    ensures Run(m, target, d, symbols).volume == AmountsOf(Run(m, target, d, symbols).trades)
    decreases |symbols|
  {
    if symbols != [] {
      StepVolume(m, target, d, symbols[0]);
      RunVolume(m, target, Step(m, target, d, symbols[0]), symbols[1..]);
    }
  }

  lemma StepVolume(m: Market, target: map<string, int>, d: Desk, s: string)
    requires m.lot >= 1 && d.volume == AmountsOf(d.trades)
    ensures Step(m, target, d, s).volume == AmountsOf(Step(m, target, d, s).trades)
  {
    var t := TradeFor(m, target, d, s);
    if t.Some? { assert (d.trades + [t.value])[..|d.trades|] == d.trades; }
  }

  /** The reported volume is the amount of all recorded trades. */
  lemma VolumeIsTraded(m: Market, weights: map<string, real>, holdings: map<string, int>, equity: real, cash: real)
    requires m.lot >= 1
    ensures var d := Execute(m, weights, holdings, equity, cash); d.volume == AmountsOf(d.trades)
  {
    var target := TargetShares(weights, equity, m.prices, m.lot);
    RunVolume(m, target, Desk(cash, holdings, {}, [], 0.0), Schedule(target, holdings));
  }
}
