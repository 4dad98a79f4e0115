/** The general bar loop of the backtest engine, `_simulate_python` in ez/backtest/engine.py. */
module Backtest {
  import opened Reals
  import opened Matchers
  import opened Options

  const ZERO_THRESHOLD := 0.0000000001
  const WEIGHT_CHANGE_MIN := 0.001

  /** `None` stands for a missing (NaN) price. */
  datatype Bar = Bar(price: Option<real>, open: Option<real>, rawClose: real)

  predicate Tradable(bar: Bar) { bar.price.Some? && bar.open.Some? }

  datatype Trade = Trade(
    entryBar: nat, exitBar: nat, entryPrice: real, exitPrice: real,
    weight: real, pnl: real, pnlPct: real, commission: real)

  /** The loop's variables. `entry` is the bar the position was opened on. */
  datatype Book = Book(
    cash: real, shares: real, prevWeight: real,
    entry: Option<nat>, entryPrice: real, entryComm: real, peakShares: real,
    partialPnl: real, partialComm: real, cycleNet: real, cyclePeak: real,
    trades: seq<Trade>)

  function Opening(capital: real): Book {
    Book(capital, 0.0, 0.0, None, 0.0, 0.0, 0.0, 0.0, 0.0, 0.0, 0.0, [])
  }

  ghost predicate Solvent(b: Book) { b.cash >= 0.0 && b.shares >= 0.0 }

  function Ratio(a: real, b: real): real { if b > 0.0 then a / b else 0.0 }

  /** The weight actually reached after a fill. */
  function Reweigh(b: Book, price: real): Book {
    b.(prevWeight := Ratio(b.shares * price, b.cash + b.shares * price))
  }

  /** Shares below the threshold count as none. */
  function Undust(shares: real): real { if shares < ZERO_THRESHOLD then 0.0 else shares }

  function CostBasis(b: Book, shares: real): real {
    if b.cyclePeak > 0.0 then b.cyclePeak else b.entryPrice * shares + b.entryComm
  }

  /** What selling these shares above their average cost earns, after the commission. */
  function Gain(price: real, entryPrice: real, shares: real, commission: real): real {
    (price - entryPrice) * shares - commission
  }

  /** The closed round trip of a position of `shares` sold by `fill`. */
  function RoundTrip(b: Book, entry: nat, exit: nat, fill: Fill, shares: real, basis: real): Trade {
    var pnl := b.partialPnl + Gain(fill.price, b.entryPrice, shares, fill.commission) - b.entryComm;
    Trade(entry, exit, b.entryPrice, fill.price, b.prevWeight, pnl, Ratio(pnl, basis),
          b.entryComm + b.partialComm + fill.commission)
  }

  function BookSale(b: Book, i: nat, fill: Fill): Book {
    var sold := b.(cash := b.cash + fill.net, shares := Undust(b.shares - fill.shares),
                   cycleNet := b.cycleNet - fill.net);
    if b.shares > 0.0 && sold.shares < ZERO_THRESHOLD && b.entry.Some? then
      sold.(trades := b.trades + [RoundTrip(b, b.entry.value, i, fill, b.shares, CostBasis(b, b.shares))],
            entry := None, entryComm := 0.0, partialPnl := 0.0, partialComm := 0.0,
            peakShares := 0.0, cycleNet := 0.0, cyclePeak := 0.0)
    else if b.entry.Some? then
      sold.(partialPnl := b.partialPnl + Gain(fill.price, b.entryPrice, fill.shares, fill.commission),
            partialComm := b.partialComm + fill.commission)
    else sold
  }

  function Sell(b: Book, m: Matcher, i: nat, price: real, asked: real): (r: Book)
    requires Solvent(b)
    ensures Solvent(r)
  {
    var fill := FillSell(m, price, asked);
    SaleIsFair(m, price, asked);
    if fill.shares > 0.0 then Reweigh(BookSale(b, i, fill), price) else b
  }

  function BookBuy(b: Book, i: nat, fill: Fill): Book
    requires fill.shares > 0.0 && b.shares >= 0.0
  {
    var begun :=
      if b.shares == 0.0 then
        b.(entry := Some(i), entryPrice := fill.price, entryComm := fill.commission,
           partialPnl := 0.0, partialComm := 0.0, cycleNet := 0.0, cyclePeak := 0.0)
      else
        b.(entryComm := b.entryComm + fill.commission,
           entryPrice := (b.entryPrice * b.shares + fill.price * fill.shares) / (b.shares + fill.shares));
    var cycleNet := begun.cycleNet - fill.net;
    begun.(shares := b.shares + fill.shares,
            peakShares := Max(b.peakShares, b.shares + fill.shares),
            cash := b.cash + fill.net,
            cycleNet := cycleNet,
            cyclePeak := Max(begun.cyclePeak, cycleNet))
  }

  function Buy(b: Book, m: Matcher, i: nat, price: real, amount: real): (r: Book)
    requires Solvent(b) && amount <= b.cash
    ensures Solvent(r)
  {
    var fill := FillBuy(m, price, amount).0;
    BuyIsFair(m, price, amount);
    if fill.shares > 0.0 then Reweigh(BookBuy(b, i, fill), price) else b
  }

  datatype Order = Hold | Reduce(shares: real) | Add(amount: real)

  /** What it takes to bring this cash and position to target weight `w` at the open. */
  function OrderFor(cash: real, shares: real, open: real, w: real): (o: Order)
    requires cash >= 0.0 && w >= 0.0
    ensures o.Reduce? ==> shares > 0.0
    ensures o.Add? ==> 0.0 < o.amount <= cash
  {
    var target := (cash + shares * open) * w;
    var current := shares * open;
    if target < current && shares > 0.0 then
      NoReductionAtZero(cash, shares, open, w);
      Reduce(if w == 0.0 then shares else (current - target) / open)
    else if target > current && Min(target - current, cash) > 0.0 then
      Add(Min(target - current, cash))
    else Hold
  }

  function Plan(b: Book, open: real, w: real): Order
    requires Solvent(b) && w >= 0.0
  {
    OrderFor(b.cash, b.shares, open, w)
  }

  function Rebalance(b: Book, m: Matcher, i: nat, open: real, w: real): (r: Book)
    requires Solvent(b) && w >= 0.0
    ensures Solvent(r)
  {
    match Plan(b, open, w)
    case Reduce(shares) => Sell(b, m, i, open, shares)
    case Add(amount) => Buy(b, m, i, open, amount)
    case Hold => b
  }

  /** Only buys change the matcher's state. */
  function Rebalanced(b: Book, m: Matcher, open: real, w: real): Matcher
    requires Solvent(b) && w >= 0.0
  {
    var plan := Plan(b, open, w);
    if plan.Add? then FillBuy(m, open, plan.amount).1 else m
  }

  lemma NoReductionAtZero(cash: real, shares: real, open: real, w: real)
    requires cash >= 0.0 && w >= 0.0
    ensures (cash + shares * open) * w < shares * open ==> open != 0.0
  {
    if open == 0.0 {
      assert shares * open == 0.0;
      MulOrder(0.0, cash, w);
    }
  }

  /** A rebalance happens when the target moved enough. */
  predicate Triggers(b: Book, w: real) { Abs(w - b.prevWeight) > WEIGHT_CHANGE_MIN }

  function Trading(b: Book, m: Matcher, i: nat, open: real, w: real): (r: Book)
    requires Solvent(b) && w >= 0.0
    ensures Solvent(r)
  {
    if Triggers(b, w) then Rebalance(b, m, i, open, w) else b
  }

  function Traded(b: Book, m: Matcher, open: real, w: real): Matcher
    requires Solvent(b) && w >= 0.0
  {
    if Triggers(b, w) then Rebalanced(b, m, open, w) else m
  }

  datatype Sim = Sim(book: Book, matcher: Matcher, equity: seq<real>, daily: seq<real>)

  function Return(now: real, before: real): real { if before > 0.0 then now / before - 1.0 else 0.0 }

  /** Cash plus the position marked to a price. */
  function Worth(b: Book, price: real): real { b.cash + b.shares * price }

  /** One bar: the bar state, the trading, and the marked-to-market equity. */
  function NextBar(s: Sim, i: nat, previous: Bar, bar: Bar, w: real): (r: Sim)
    requires Solvent(s.book) && w >= 0.0 && s.equity != []
    ensures Solvent(r.book) && |r.equity| == |s.equity| + 1 && |r.daily| == |s.daily| + 1
  {
    var before := s.equity[|s.equity| - 1];
    if Tradable(bar) then
      var ready := OnBar(s.matcher, i, previous.rawClose);
      var book := Trading(s.book, ready, i, bar.open.value, w);
      var now := Worth(book, bar.price.value);
      Sim(book, Traded(s.book, ready, bar.open.value, w), s.equity + [now], s.daily + [Return(now, before)])
    else s.(equity := s.equity + [before], daily := s.daily + [0.0])
  }

  function Weight(weights: seq<real>, i: nat): real { if i < |weights| then weights[i] else 0.0 }

  ghost predicate NonNegative(weights: seq<real>) { forall i | 0 <= i < |weights| :: weights[i] >= 0.0 }

  /** The simulation after the bars before `n`. Signals reach the engine clipped to [0, 1]. */
  function Simulated(m: Matcher, bars: seq<Bar>, weights: seq<real>, capital: real, n: nat): (s: Sim)
    requires 1 <= n <= |bars| && capital >= 0.0 && NonNegative(weights)
    ensures Solvent(s.book) && |s.equity| == |s.daily| == n
  {
    if n == 1 then Sim(Opening(capital), m, [capital], [0.0])
    else NextBar(Simulated(m, bars, weights, capital, n - 1), n - 1, bars[n - 2], bars[n - 1], Weight(weights, n - 1))
  }

  /** The matcher below every market-rules wrapper. */
  function Unwrapped(m: Matcher): Matcher {
    if m.Rules? then Unwrapped(m.inner) else m
  }

  /** A position still open at the end is recorded as if sold at the last price. */
  function Terminal(b: Book, m: Matcher, bars: seq<Bar>): seq<Trade>
    requires bars != []
  {
    var last := |bars| - 1;
    if b.shares > 0.0 && b.entry.Some? && bars[last].price.Some? && bars[last].price.value > 0.0 then
      var fill := FillSell(Unwrapped(m), bars[last].price.value, b.shares);
      var basis := CostBasis(b, if b.peakShares > 0.0 then b.peakShares else fill.shares);
      if fill.shares > 0.0 then [RoundTrip(b, b.entry.value, last, fill, fill.shares, basis)] else []
    else []
  }

  function Trades(m: Matcher, bars: seq<Bar>, weights: seq<real>, capital: real): seq<Trade>
    requires bars != [] && capital >= 0.0 && NonNegative(weights)
  {
    var s := Simulated(m, bars, weights, capital, |bars|);
    s.book.trades + Terminal(s.book, s.matcher, bars)
  }
}
