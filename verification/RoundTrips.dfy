/** What the recorded round trips of a run mean in cash (ez/backtest/engine.py). */
module RoundTrips {
  import opened Reals
  import opened Matchers
  import opened Options
  import opened Backtest
  import opened BacktestLaws

  /** A run of the general loop. */
  datatype Setup = Setup(matcher: Matcher, bars: seq<Bar>, weights: seq<real>, capital: real)

  ghost predicate Runnable(x: Setup) { x.capital >= 0.0 && NonNegative(x.weights) }

  /** The books after the bars before `n`. */
  function BooksAt(x: Setup, n: nat): Book
    requires Runnable(x) && 1 <= n <= |x.bars|
  {
    Simulated(x.matcher, x.bars, x.weights, x.capital, n).book
  }

  function CashAt(x: Setup, n: nat): real
    requires Runnable(x) && 1 <= n <= |x.bars|
  {
    BooksAt(x, n).cash
  }

  /** The most cash a position opened on bar `entry` ever had at risk after the bars before `n`. */
  function AtRisk(x: Setup, entry: nat, n: nat): real
    requires Runnable(x) && 1 <= entry < n <= |x.bars|
    decreases n
  {
    var now := CashAt(x, entry) - CashAt(x, n);
    if n == entry + 1 then now else Max(AtRisk(x, entry, n - 1), now)
  }

  /** The open position's books are its cycle's cash: what went in since its entry, and the most that ever did. */
  ghost predicate CycleIsCash(x: Setup, n: nat)
    requires Runnable(x) && 1 <= n <= |x.bars|
  {
    var b := BooksAt(x, n);
    b.entry.Some? ==>
      && 1 <= b.entry.value < n
      && b.cycleNet == CashAt(x, b.entry.value) - CashAt(x, n)
      && b.cyclePeak == AtRisk(x, b.entry.value, n)
  }

  /** What a bar does to the books. */
  datatype Move = Still | Grew(fill: Fill, price: real) | Shrank(fill: Fill, price: real)

  /** The cash of a sale is its shares at its price less the charges. */
  predicate Accounts(fill: Fill) { fill.net == fill.shares * fill.price - fill.commission }

  /** The move of bar `i` from `b` to `r`, with what it writes off. */
  ghost predicate Moves(b: Book, i: nat, v: Move, r: Book, dust: real) {
    match v
    case Still => r == b && dust == 0.0
    case Grew(fill, price) => fill.shares > 0.0 && fill.net < 0.0 && b.shares >= 0.0
      && r == Reweigh(BookBuy(b, i, fill), price) && dust == 0.0
    case Shrank(fill, price) =>
      && fill.net >= 0.0 && Accounts(fill) && b.shares > 0.0
      && r == Reweigh(BookSale(b, i, fill), price) && dust == WrittenOff(b, fill)
  }

  lemma SaleMoves(b: Book, m: Matcher, i: nat, open: real, asked: real) returns (v: Move)
    requires Solvent(b) && b.shares > 0.0
    ensures var fill := FillSell(m, open, asked);
      Moves(b, i, v, Sell(b, m, i, open, asked), if fill.shares > 0.0 then WrittenOff(b, fill) else 0.0)
  {
    var fill := FillSell(m, open, asked);
    assert fill.net >= 0.0 && Accounts(fill) by { SaleIsFair(m, open, asked); }
    SellIs(b, m, i, open, asked, fill);
    v := if fill.shares > 0.0 then Shrank(fill, open) else Still;
  }

  lemma SellIs(b: Book, m: Matcher, i: nat, open: real, asked: real, fill: Fill)
    requires Solvent(b) && fill == FillSell(m, open, asked)
    ensures Sell(b, m, i, open, asked) == if fill.shares > 0.0 then Reweigh(BookSale(b, i, fill), open) else b
  {
  }

  lemma BuyMoves(b: Book, m: Matcher, i: nat, open: real, amount: real) returns (v: Move)
    requires Solvent(b) && amount <= b.cash
    ensures Moves(b, i, v, Buy(b, m, i, open, amount), 0.0)
  {
    var fill := FillBuy(m, open, amount).0;
    BuyIsFair(m, open, amount);
    v := if fill.shares > 0.0 then Grew(fill, open) else Still;
  }

  lemma BarMoves(b: Book, m: Matcher, i: nat, open: real, w: real) returns (v: Move)
    requires Solvent(b) && w >= 0.0
    ensures Moves(b, i, v, Trading(b, m, i, open, w), BarDust(b, m, open, w))
  {
    v := Still;
    if Triggers(b, w) {
      match Plan(b, open, w)
      case Reduce(asked) => v := SaleMoves(b, m, i, open, asked);
      case Add(amount) => v := BuyMoves(b, m, i, open, amount);
      case Hold =>
    }
  }

  function DustAt(x: Setup, n: nat): real
    requires Runnable(x) && 1 <= n <= |x.bars|
  {
    Dust(x.matcher, x.bars, x.weights, x.capital, n)
  }

  lemma StepMoves(x: Setup, n: nat) returns (v: Move)
    requires Runnable(x) && 2 <= n <= |x.bars|
    ensures Moves(BooksAt(x, n - 1), n - 1, v, BooksAt(x, n), DustAt(x, n) - DustAt(x, n - 1))
    ensures Consistent(BooksAt(x, n - 1))
  {
    var s := Simulated(x.matcher, x.bars, x.weights, x.capital, n - 1);
    ProfitAndLossBalance(x.matcher, x.bars, x.weights, x.capital, n - 1);
    v := Still;
    if Tradable(x.bars[n - 1]) {
      v := BarMoves(s.book, OnBar(s.matcher, n - 1, x.bars[n - 2].rawClose), n - 1, x.bars[n - 1].open.value,
                    Weight(x.weights, n - 1));
    }
  }

  /** A bar's move keeps the cycle's net cash in step with the cash, and its peak the greatest net cash so far. */
  lemma MoveOfCycle(b: Book, i: nat, v: Move, r: Book, dust: real)
    requires Consistent(b) && Moves(b, i, v, r, dust)
    ensures r.entry.Some? && b.entry.Some? ==>
      r.entry == b.entry && r.cycleNet == b.cycleNet + b.cash - r.cash && r.cyclePeak == Max(b.cyclePeak, r.cycleNet)
    ensures r.entry.Some? && b.entry.None? ==> r.entry == Some(i) && r.cycleNet == r.cyclePeak == b.cash - r.cash
  {
  }

  lemma CycleCarries(x: Setup, n: nat, v: Move, dust: real)
    requires Runnable(x) && 2 <= n <= |x.bars| && CycleIsCash(x, n - 1) && Consistent(BooksAt(x, n - 1))
    requires Moves(BooksAt(x, n - 1), n - 1, v, BooksAt(x, n), dust)
    ensures CycleIsCash(x, n)
  {
    var b, r := BooksAt(x, n - 1), BooksAt(x, n);
    MoveOfCycle(b, n - 1, v, r, dust);
    if r.entry.Some? && b.entry.Some? { CycleGoesOn(x, n, b, r); }
  }

  lemma CycleGoesOn(x: Setup, n: nat, b: Book, r: Book)
    requires Runnable(x) && 2 <= n <= |x.bars| && CycleIsCash(x, n - 1) && b == BooksAt(x, n - 1) && r == BooksAt(x, n)
    requires b.entry.Some? && r.entry == b.entry
    requires r.cycleNet == b.cycleNet + b.cash - r.cash && r.cyclePeak == Max(b.cyclePeak, r.cycleNet)
    ensures CycleIsCash(x, n)
  {
  }

  /** The profit of a closed round trip is what its cycle's cash gained, and what was written off. */
  lemma RoundTripPnl(b: Book, i: nat, fill: Fill)
    requires Consistent(b) && b.shares > 0.0 && Accounts(fill)
    requires Undust(b.shares - fill.shares) < ZERO_THRESHOLD
    ensures var r := BookSale(b, i, fill);
      && r.trades[..|b.trades|] == b.trades && |r.trades| == |b.trades| + 1
      && var t := r.trades[|b.trades|];
         && t.entryBar == b.entry.value && t.exitBar == i
         && t.pnl == fill.net - b.cycleNet + WrittenOff(b, fill) && t.pnlPct == t.pnl / b.cyclePeak
  {
    var left := b.shares - fill.shares;
    assert (fill.price - b.entryPrice) * b.shares
        == fill.price * fill.shares + fill.price * left - b.entryPrice * b.shares;
  }

  /** A bar records a trade or none. */
  lemma MoveOfTrades(b: Book, i: nat, v: Move, r: Book, dust: real) returns (t: Option<Trade>)
    requires Consistent(b) && Moves(b, i, v, r, dust)
    ensures t.None? ==> r.trades == b.trades
    ensures t.Some? ==>
      && r.trades == b.trades + [t.value] && b.entry == Some(t.value.entryBar) && t.value.exitBar == i
           && b.cyclePeak > 0.0
      && t.value.pnl == r.cash - b.cash - b.cycleNet + dust && t.value.pnlPct == t.value.pnl / b.cyclePeak
  {
    t := None;
    if v.Shrank? && Undust(b.shares - v.fill.shares) < ZERO_THRESHOLD {
      RoundTripPnl(b, i, v.fill);
      t := Some(r.trades[|b.trades|]);
    }
  }

  /** A trade recorded before bar `n`: its profit is the cash after its exit less the cash before its entry, up to the
      shares written off; its percentage is that profit by the most cash its cycle ever had at risk. */
  ghost predicate TradeIsCash(x: Setup, t: Trade, n: nat)
    requires Runnable(x) && 1 <= n <= |x.bars|
  {
    && 1 <= t.entryBar < t.exitBar < n
    && t.pnl == CashAt(x, t.exitBar + 1) - CashAt(x, t.entryBar) + (DustAt(x, t.exitBar + 1) - DustAt(x, t.exitBar))
    && AtRisk(x, t.entryBar, t.exitBar) > 0.0 && t.pnlPct == t.pnl / AtRisk(x, t.entryBar, t.exitBar)
  }

  ghost predicate TradesAreCash(x: Setup, trades: seq<Trade>, n: nat)
    requires Runnable(x) && 1 <= n <= |x.bars|
  {
    forall i | 0 <= i < |trades| :: TradeIsCash(x, trades[i], n)
  }

  lemma NewTradeIsCash(x: Setup, n: nat, t: Trade)
    requires Runnable(x) && 2 <= n <= |x.bars| && CycleIsCash(x, n - 1)
    requires var b := BooksAt(x, n - 1);
      && b.entry == Some(t.entryBar) && t.exitBar == n - 1 && b.cyclePeak > 0.0
      && t.pnl == CashAt(x, n) - b.cash - b.cycleNet + (DustAt(x, n) - DustAt(x, n - 1))
           && t.pnlPct == t.pnl / b.cyclePeak
    ensures TradeIsCash(x, t, n)
  {
  }

  lemma OlderTradesAreCash(x: Setup, trades: seq<Trade>, n: nat)
    requires Runnable(x) && 2 <= n <= |x.bars| && TradesAreCash(x, trades, n - 1)
    ensures TradesAreCash(x, trades, n)
  {
    forall i | 0 <= i < |trades| ensures TradeIsCash(x, trades[i], n) { assert TradeIsCash(x, trades[i], n - 1); }
  }

  /** Every round trip that a run records is a difference of its cash. */
  lemma {:induction false} RoundTripsAreCash(x: Setup, n: nat)
    requires Runnable(x) && 1 <= n <= |x.bars|
    ensures CycleIsCash(x, n) && TradesAreCash(x, BooksAt(x, n).trades, n)
  {
    if n > 1 {
      RoundTripsAreCash(x, n - 1);
      var v := StepMoves(x, n);
      CycleCarries(x, n, v, DustAt(x, n) - DustAt(x, n - 1));
      OlderTradesAreCash(x, BooksAt(x, n - 1).trades, n);
      var t := MoveOfTrades(BooksAt(x, n - 1), n - 1, v, BooksAt(x, n), DustAt(x, n) - DustAt(x, n - 1));
      if t.Some? { NewTradeIsCash(x, n, t.value); }
    }
  }

  /** A round trip takes two bars at least: one to open it and one to close it. */
  lemma {:induction false} TradesTakeTwoBars(x: Setup, n: nat)
    requires Runnable(x) && 1 <= n <= |x.bars|
    ensures 2 * |BooksAt(x, n).trades| + (if BooksAt(x, n).entry.Some? then 1 else 0) <= n - 1
  {
    if n > 1 {
      TradesTakeTwoBars(x, n - 1);
      var v := StepMoves(x, n);
      MoveTakesABar(BooksAt(x, n - 1), n - 1, v, BooksAt(x, n), DustAt(x, n) - DustAt(x, n - 1));
    }
  }

  lemma MoveTakesABar(b: Book, i: nat, v: Move, r: Book, dust: real)
    requires Consistent(b) && Moves(b, i, v, r, dust)
    ensures 2 * |r.trades| + (if r.entry.Some? then 1 else 0) <= 2 * |b.trades| + (if b.entry.Some? then 1 else 0) + 1
  {
  }

  /** The closing trade of a position left open, sold in thought by `fill` on bar `exit`. */
  function ClosingOn(b: Book, fill: Fill, exit: nat): Trade
    requires b.entry.Some?
  {
    RoundTrip(b, b.entry.value, exit, fill, fill.shares,
              CostBasis(b, if b.peakShares > 0.0 then b.peakShares else fill.shares))
  }

  /** The engine records it when there is a position, a last price and a fill at that price. */
  lemma TerminalIsClosing(b: Book, m: Matcher, bars: seq<Bar>)
    requires Consistent(b) && bars != []
    ensures var last := bars[|bars| - 1];
      if b.shares > 0.0 && last.price.Some? && FillSell(Unwrapped(m), last.price.value, b.shares).shares > 0.0
      then b.entry.Some? && Terminal(b, m, bars)
        == [ClosingOn(b, FillSell(Unwrapped(m), last.price.value, b.shares), |bars| - 1)]
      else Terminal(b, m, bars) == []
  {
    if bars[|bars| - 1].price.Some? { SaleIsFair(Unwrapped(m), bars[|bars| - 1].price.value, b.shares); }
  }

  /** Its profit is what selling would have added to the cash since the entry, with the shares the matcher would not
      sell at their cost; its percentage is against the most cash ever at risk. */
  ghost predicate ClosingIsCash(x: Setup, b: Book, fill: Fill, t: Trade)
    requires Runnable(x) && x.bars != []
  {
    && 1 <= t.entryBar < |x.bars| && t.exitBar == |x.bars| - 1
    && t.pnl == b.cash + fill.net - CashAt(x, t.entryBar) + b.entryPrice * (b.shares - fill.shares)
    && AtRisk(x, t.entryBar, |x.bars|) > 0.0 && t.pnlPct == t.pnl / AtRisk(x, t.entryBar, |x.bars|)
  }

  lemma ClosingTradeIsCash(x: Setup, fill: Fill, n: nat)
    requires Runnable(x) && n == |x.bars| > 0 && BooksAt(x, n).entry.Some? && Accounts(fill)
    ensures ClosingIsCash(x, BooksAt(x, n), fill, ClosingOn(BooksAt(x, n), fill, n - 1))
  {
    var b := BooksAt(x, n);
    BooksFacts(x, b, n);
    ClosingOf(x, b, fill, ClosingOn(b, fill, n - 1), n);
  }

  lemma ClosingOf(x: Setup, b: Book, fill: Fill, t: Trade, n: nat)
    requires Runnable(x) && n == |x.bars| > 0 && b == BooksAt(x, n) && CycleIsCash(x, n) && Consistent(b)
      && b.entry.Some?
    requires Accounts(fill) && t == ClosingOn(b, fill, n - 1)
    ensures ClosingIsCash(x, b, fill, t)
  {
    ClosingPnl(b, fill, t, n - 1);
  }

  lemma BooksFacts(x: Setup, b: Book, n: nat)
    requires Runnable(x) && 1 <= n <= |x.bars| && b == BooksAt(x, n)
    ensures Consistent(b) && CycleIsCash(x, n)
  {
    ProfitAndLossBalance(x.matcher, x.bars, x.weights, x.capital, n);
    RoundTripsAreCash(x, n);
  }

  lemma ClosingPnl(b: Book, fill: Fill, t: Trade, exit: nat)
    requires Consistent(b) && b.entry.Some? && Accounts(fill) && t == ClosingOn(b, fill, exit)
    ensures t.entryBar == b.entry.value && t.exitBar == exit
    ensures t.pnl == fill.net - b.cycleNet + b.entryPrice * (b.shares - fill.shares) && t.pnlPct == t.pnl / b.cyclePeak
  {
    Distribute(b.entryPrice, b.shares, -fill.shares);
    Distribute(fill.shares, fill.price, -b.entryPrice);
  }
}
