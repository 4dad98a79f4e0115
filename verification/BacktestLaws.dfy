/** Accounting laws of the bar loop, for any matcher stack and any weights (ez/backtest/engine.py). */
module BacktestLaws {
  import opened Reals
  import opened Matchers
  import opened Backtest

  function SumPnl(trades: seq<Trade>): real {
    if trades == [] then 0.0 else SumPnl(trades[..|trades| - 1]) + trades[|trades| - 1].pnl
  }

  lemma SumPnlAppend(trades: seq<Trade>, t: Trade)
    ensures SumPnl(trades + [t]) == SumPnl(trades) + t.pnl
  {
    assert (trades + [t])[..|trades|] == trades;
  }

  /** What the position cost, commissions included. */
  function Invested(b: Book): real { b.entryPrice * b.shares + b.entryComm }

  /** The loop's bookkeeping agrees with itself: a position has an entry, a flat book carries nothing
      over, and the net cash put into the cycle is the position's cost less what was realised. */
  ghost predicate Consistent(b: Book) {
    && Solvent(b)
    && (b.entry.None? <==> b.shares == 0.0)
    && (b.entry.None? ==> b.entryComm == 0.0 && b.partialPnl == 0.0 && b.partialComm == 0.0)
    && b.cycleNet == Invested(b) - b.partialPnl
    && (b.entry.Some? ==> b.cyclePeak > 0.0)
    && b.cycleNet <= b.cyclePeak
  }

  /** Value of the shares too few to count that a closing sale writes off. */
  function WrittenOff(b: Book, fill: Fill): real {
    if Undust(b.shares - fill.shares) < ZERO_THRESHOLD then fill.price * (b.shares - fill.shares) else 0.0
  }

  /** One transition: consistency is kept, and cash plus cost moves by realised profit alone,
      up to what is written off. */
  ghost predicate Conserves(b: Book, r: Book, writtenOff: real) {
    && Consistent(r)
    && r.cash + Invested(r) - SumPnl(r.trades) - r.partialPnl
       == b.cash + Invested(b) - SumPnl(b.trades) - b.partialPnl - writtenOff
  }

  lemma SaleConserves(b: Book, i: nat, fill: Fill, price: real, asked: real)
    requires Consistent(b) && b.shares > 0.0 && fill.shares > 0.0 && FairSale(fill, price, asked) && asked <= b.shares
    ensures Conserves(b, BookSale(b, i, fill), WrittenOff(b, fill))
  {
    var left := b.shares - fill.shares;
    var r := BookSale(b, i, fill);
    var realised := (fill.price - b.entryPrice) * fill.shares;
    assert b.entryPrice * b.shares == b.entryPrice * left + b.entryPrice * fill.shares;
    assert realised == fill.price * fill.shares - b.entryPrice * fill.shares;
    if left < ZERO_THRESHOLD {
      assert (fill.price - b.entryPrice) * b.shares
          == fill.price * fill.shares + fill.price * left - b.entryPrice * b.shares;
      SumPnlAppend(b.trades, RoundTrip(b, b.entry.value, i, fill, b.shares, CostBasis(b, b.shares)));
    }
  }

  lemma BuyConserves(b: Book, i: nat, fill: Fill, amount: real)
    requires Consistent(b) && fill.shares > 0.0 && FairBuy(fill, amount) && amount <= b.cash
    ensures Conserves(b, BookBuy(b, i, fill), 0.0)
  {
    var total := b.shares + fill.shares;
    var r := BookBuy(b, i, fill);
    if b.shares > 0.0 {
      assert r.entryPrice * total == b.entryPrice * b.shares + fill.price * fill.shares;
    }
  }

  lemma WrittenOffIsDust(b: Book, fill: Fill, price: real)
    requires FairSale(fill, price, b.shares) && fill.shares > 0.0
    ensures 0.0 <= WrittenOff(b, fill) <= price * ZERO_THRESHOLD
  {
    var left := b.shares - fill.shares;
    MulOrder(0.0, price, ZERO_THRESHOLD);
    if left < ZERO_THRESHOLD { DustIsBounded(fill.price, price, left, fill.price * left); }
  }

  lemma DustIsBounded(filled: real, price: real, left: real, product: real)
    requires product == filled * left && 0.0 <= filled <= price && 0.0 <= left < ZERO_THRESHOLD
    ensures 0.0 <= product <= price * ZERO_THRESHOLD
  {
    PositiveFactors(filled, left);
    assert product >= 0.0;
    SmallerFactor(filled, left, ZERO_THRESHOLD);
    assert product <= filled * ZERO_THRESHOLD;
    MulOrder(filled, price, ZERO_THRESHOLD);
    assert filled * ZERO_THRESHOLD <= price * ZERO_THRESHOLD;
  }

  /** At a positive open no rebalance sells more than is held. */
  lemma PlanIsCovered(b: Book, open: real, w: real)
    requires Solvent(b) && w >= 0.0 && open > 0.0
    ensures Plan(b, open, w).Reduce? ==> Plan(b, open, w).shares <= b.shares
  {
    var target := (b.cash + b.shares * open) * w;
    MulOrder(0.0, b.shares, open);
    MulOrder(0.0, b.cash + b.shares * open, w);
    MulOrder(b.shares * open - target, b.shares * open, 1.0 / open);
    assert b.shares * open * (1.0 / open) == b.shares;
    assert (b.shares * open - target) * (1.0 / open) == (b.shares * open - target) / open;
  }

  /** What a bar's rebalance writes off. */
  function BarDust(b: Book, m: Matcher, open: real, w: real): real
    requires Solvent(b) && w >= 0.0
  {
    var plan := Plan(b, open, w);
    if Triggers(b, w) && plan.Reduce? && FillSell(m, open, plan.shares).shares > 0.0
    then WrittenOff(b, FillSell(m, open, plan.shares))
    else 0.0
  }

  lemma ReweighConserves(b: Book, r: Book, dust: real, price: real)
    requires Conserves(b, r, dust)
    ensures Conserves(b, Reweigh(r, price), dust)
  {
  }

  lemma SellConserves(b: Book, m: Matcher, i: nat, open: real, asked: real)
    requires Consistent(b) && b.shares > 0.0 && (open > 0.0 ==> asked <= b.shares)
    ensures var fill := FillSell(m, open, asked);
      var dust := if fill.shares > 0.0 then WrittenOff(b, fill) else 0.0;
      Conserves(b, Sell(b, m, i, open, asked), dust) && 0.0 <= dust <= Max(open, 0.0) * ZERO_THRESHOLD
  {
    var fill := FillSell(m, open, asked);
    SaleIsFair(m, open, asked);
    if fill.shares > 0.0 {
      SaleConserves(b, i, fill, open, asked);
      ReweighConserves(b, BookSale(b, i, fill), WrittenOff(b, fill), open);
      WrittenOffIsDust(b, fill, open);
    }
  }

  lemma AddConserves(b: Book, m: Matcher, i: nat, open: real, amount: real)
    requires Consistent(b) && amount <= b.cash
    ensures Conserves(b, Buy(b, m, i, open, amount), 0.0)
  {
    var fill := FillBuy(m, open, amount).0;
    BuyIsFair(m, open, amount);
    if fill.shares > 0.0 {
      BuyConserves(b, i, fill, amount);
      ReweighConserves(b, BookBuy(b, i, fill), 0.0, open);
    }
  }

  lemma BarConserves(b: Book, m: Matcher, i: nat, open: real, w: real)
    requires Consistent(b) && w >= 0.0
    ensures Conserves(b, Trading(b, m, i, open, w), BarDust(b, m, open, w))
    ensures 0.0 <= BarDust(b, m, open, w) <= Max(open, 0.0) * ZERO_THRESHOLD
  {
    match Plan(b, open, w)
    case Reduce(asked) =>
      if open > 0.0 { PlanIsCovered(b, open, w); }
      SellConserves(b, m, i, open, asked);
    case Add(amount) => AddConserves(b, m, i, open, amount);
    case Hold =>
  }

  /** Everything written off in the bars before `n`. */
  function Dust(m: Matcher, bars: seq<Bar>, weights: seq<real>, capital: real, n: nat): real
    requires 1 <= n <= |bars| && capital >= 0.0 && NonNegative(weights)
  {
    if n == 1 then 0.0
    else
      var s := Simulated(m, bars, weights, capital, n - 1);
      Dust(m, bars, weights, capital, n - 1)
      + (if Tradable(bars[n - 1])
         then BarDust(s.book, OnBar(s.matcher, n - 1, bars[n - 2].rawClose), bars[n - 1].open.value,
                      Weight(weights, n - 1))
         else 0.0)
  }

  /** The positive opens before bar `n`, added up. */
  function Opens(bars: seq<Bar>, n: nat): real
    requires 1 <= n <= |bars|
  {
    if n == 1 then 0.0
    else Opens(bars, n - 1) + (if Tradable(bars[n - 1]) then Max(bars[n - 1].open.value, 0.0) else 0.0)
  }

  /** Cash and the cost of the position make up the capital plus realised profit, less dust. */
  ghost predicate Balanced(b: Book, capital: real, dust: real) {
    b.cash + Invested(b) == capital + SumPnl(b.trades) + b.partialPnl - dust
  }

  lemma BalanceCarries(b: Book, r: Book, capital: real, dust: real, more: real)
    requires Balanced(b, capital, dust) && Conserves(b, r, more)
    ensures Consistent(r) && Balanced(r, capital, dust + more)
  {
  }

  /** The books balance after every bar, and what is written off is less than 1e-10 shares a bar. */
  lemma {:induction false} ProfitAndLossBalance(m: Matcher, bars: seq<Bar>, weights: seq<real>, capital: real, n: nat)
    requires 1 <= n <= |bars| && capital >= 0.0 && NonNegative(weights)
    ensures Consistent(Simulated(m, bars, weights, capital, n).book)
    ensures Balanced(Simulated(m, bars, weights, capital, n).book, capital, Dust(m, bars, weights, capital, n))
    ensures 0.0 <= Dust(m, bars, weights, capital, n) <= Opens(bars, n) * ZERO_THRESHOLD
  {
    if n > 1 {
      ProfitAndLossBalance(m, bars, weights, capital, n - 1);
      if Tradable(bars[n - 1]) {
        LastBarBalances(m, bars, weights, capital, n, Dust(m, bars, weights, capital, n - 1));
      }
    }
  }

  lemma LastBarBalances(m: Matcher, bars: seq<Bar>, weights: seq<real>, capital: real, n: nat, dust: real)
    requires 2 <= n <= |bars| && capital >= 0.0 && NonNegative(weights) && Tradable(bars[n - 1])
    requires Balanced(Simulated(m, bars, weights, capital, n - 1).book, capital, dust)
    requires Consistent(Simulated(m, bars, weights, capital, n - 1).book)
    ensures var s, open, w := Simulated(m, bars, weights, capital, n - 1), bars[n - 1].open.value,
        Weight(weights, n - 1);
      var more := BarDust(s.book, OnBar(s.matcher, n - 1, bars[n - 2].rawClose), open, w);
      && Consistent(Simulated(m, bars, weights, capital, n).book)
      && Balanced(Simulated(m, bars, weights, capital, n).book, capital, dust + more)
      && 0.0 <= more <= Max(open, 0.0) * ZERO_THRESHOLD
  {
    var s, open, w := Simulated(m, bars, weights, capital, n - 1), bars[n - 1].open.value, Weight(weights, n - 1);
    var ready := OnBar(s.matcher, n - 1, bars[n - 2].rawClose);
    BarConserves(s.book, ready, n - 1, open, w);
    BalanceCarries(s.book, Trading(s.book, ready, n - 1, open, w), capital, dust, BarDust(s.book, ready, open, w));
  }

  /** Whenever the run is flat, its cash has moved by the profit of the recorded trades, less what was written off. */
  lemma FlatCashIsRealisedProfit(m: Matcher, bars: seq<Bar>, weights: seq<real>, capital: real, n: nat)
    requires 1 <= n <= |bars| && capital >= 0.0 && NonNegative(weights)
    requires Simulated(m, bars, weights, capital, n).book.shares == 0.0
    ensures var b := Simulated(m, bars, weights, capital, n).book;
      b.cash - capital == SumPnl(b.trades) - Dust(m, bars, weights, capital, n)
  {
    ProfitAndLossBalance(m, bars, weights, capital, n);
    FlatBalance(Simulated(m, bars, weights, capital, n).book, capital, Dust(m, bars, weights, capital, n));
  }

  lemma FlatBalance(b: Book, capital: real, dust: real)
    requires Consistent(b) && Balanced(b, capital, dust) && b.shares == 0.0
    ensures b.cash - capital == SumPnl(b.trades) - dust
  {
    assert b.entryPrice * b.shares == 0.0;
  }
}
