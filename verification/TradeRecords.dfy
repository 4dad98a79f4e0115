/** What the recorded trades of a run say of its fills: charges, prices, weights and the size of the position
    (ez/backtest/engine.py). */
module TradeRecords {
  import opened Reals
  import opened Matchers
  import opened Options
  import opened Backtest
  import opened BacktestLaws
  import opened RoundTrips
  import opened FillLaws

  /** The fill of bar `n`, if its weight moved and the stack filled something of what the bar orders. */
  function MoveOn(x: Setup, n: nat): Move
    requires Runnable(x) && 1 <= n < |x.bars|
  {
    var s, w := Simulated(x.matcher, x.bars, x.weights, x.capital, n), Weight(x.weights, n);
    if !Tradable(x.bars[n]) || !Triggers(s.book, w) then Still
    else MoveOf(s.book, OnBar(s.matcher, n, x.bars[n - 1].rawClose), x.bars[n].open.value, w)
  }

  function MoveOf(b: Book, m: Matcher, open: real, w: real): Move
    requires Solvent(b) && w >= 0.0
  {
    match Plan(b, open, w)
    case Hold => Still
    case Reduce(asked) =>
      var fill := FillSell(m, open, asked);
      if fill.shares > 0.0 then Shrank(fill, open) else Still
    case Add(amount) =>
      var fill := FillBuy(m, open, amount).0;
      if fill.shares > 0.0 then Grew(fill, open) else Still
  }

  lemma MoveOfMoves(b: Book, m: Matcher, i: nat, open: real, w: real)
    requires Solvent(b) && w >= 0.0 && Triggers(b, w)
    ensures Moves(b, i, MoveOf(b, m, open, w), Trading(b, m, i, open, w), BarDust(b, m, open, w))
  {
    match Plan(b, open, w)
    case Hold =>
    case Reduce(asked) =>
      var fill := FillSell(m, open, asked);
      assert fill.net >= 0.0 && Accounts(fill) by { SaleIsFair(m, open, asked); }
      SellIs(b, m, i, open, asked, fill);
    case Add(amount) => BuyIsFair(m, open, amount);
  }

  lemma MoveOnMoves(x: Setup, n: nat)
    requires Runnable(x) && 1 <= n < |x.bars|
    ensures Moves(BooksAt(x, n), n, MoveOn(x, n), BooksAt(x, n + 1), DustAt(x, n + 1) - DustAt(x, n))
    ensures Consistent(BooksAt(x, n))
  {
    var s, w := Simulated(x.matcher, x.bars, x.weights, x.capital, n), Weight(x.weights, n);
    ProfitAndLossBalance(x.matcher, x.bars, x.weights, x.capital, n);
    if Tradable(x.bars[n]) && Triggers(s.book, w) {
      MoveOfMoves(s.book, OnBar(s.matcher, n, x.bars[n - 1].rawClose), n, x.bars[n].open.value, w);
    }
  }

  // ---- one bar ---------------------------------------------------------------------------

  function FeeOf(v: Move): real {
    match v
    case Still => 0.0
    case Grew(fill, _) => fill.commission
    case Shrank(fill, _) => fill.commission
  }

  /** The charges of the open cycle so far. */
  function FeesIn(b: Book): real { if b.entry.Some? then b.entryComm + b.partialComm else 0.0 }

  function PeakIn(b: Book): real { if b.entry.Some? then b.peakShares else 0.0 }

  /** A flat book has forgotten the size of its last position. */
  predicate Forgotten(b: Book) { b.entry.None? ==> b.peakShares == 0.0 }

  /** The cycle that goes on collects the charge and the greatest position, and keeps the average price of what it
      holds. */
  ghost predicate Continues(b: Book, v: Move, r: Book) {
    r.entry.Some? ==>
      && FeesIn(r) == FeesIn(b) + FeeOf(v) && PeakIn(r) == Max(PeakIn(b), r.shares)
      && (v.Grew? ==> Weighed(r.entryPrice, r.shares)
                        == Weighed(b.entryPrice, b.shares) + Weighed(v.fill.price, v.fill.shares))
      && (!v.Grew? ==> r.entryPrice == b.entryPrice)
  }

  /** The trade tells the bar's fill and what its cycle had collected. */
  predicate TellsCycle(b: Book, i: nat, v: Move, t: Trade) {
    && v.Shrank? && b.entry == Some(t.entryBar) && t.exitBar == i
    && t.commission == FeesIn(b) + v.fill.commission && t.exitPrice == v.fill.price
    && t.entryPrice == b.entryPrice && t.weight == b.prevWeight
  }

  lemma StillTells(b: Book, i: nat, r: Book, dust: real)
    requires Consistent(b) && Forgotten(b) && Moves(b, i, Still, r, dust) && b.shares <= PeakIn(b)
    ensures Forgotten(r) && Continues(b, Still, r) && r.trades == b.trades && r.shares <= PeakIn(r)
  {
  }

  lemma GrewTells(b: Book, i: nat, v: Move, r: Book, dust: real)
    requires Consistent(b) && Forgotten(b) && Moves(b, i, v, r, dust) && v.Grew? && b.shares <= PeakIn(b)
    ensures Forgotten(r) && Continues(b, v, r) && r.trades == b.trades && r.shares <= PeakIn(r)
  {
    AveragePrice(b, v.fill.price, v.fill.shares, r.entryPrice);
  }

  /** The average of two prices by their shares. */
  lemma AveragePrice(b: Book, price: real, bought: real, average: real)
    requires b.shares >= 0.0 && bought > 0.0
    requires average == if b.shares == 0.0 then price
      else (b.entryPrice * b.shares + price * bought) / (b.shares + bought)
    ensures Weighed(average, b.shares + bought) == Weighed(b.entryPrice, b.shares) + Weighed(price, bought)
  {
    var cost, shares := b.entryPrice * b.shares + price * bought, b.shares + bought;
    if b.shares != 0.0 { assert cost / shares * shares == cost; }
  }

  lemma ShrankTells(b: Book, i: nat, v: Move, r: Book, dust: real)
    requires Consistent(b) && Forgotten(b) && Moves(b, i, v, r, dust) && v.Shrank? && b.shares <= PeakIn(b)
    requires v.fill.shares > 0.0
    ensures Forgotten(r) && Continues(b, v, r) && r.shares <= PeakIn(r)
    ensures r.trades == b.trades
      || (|r.trades| == |b.trades| + 1 && r.trades[..|b.trades|] == b.trades
          && TellsCycle(b, i, v, r.trades[|b.trades|]))
  {
  }

  // ---- whole runs ------------------------------------------------------------------------

  /** The charges of the bars from `entry` to before `n`. */
  function FeesBetween(x: Setup, entry: nat, n: nat): real
    requires Runnable(x) && 1 <= entry <= n <= |x.bars|
    decreases n
  {
    if n == entry then 0.0 else FeesBetween(x, entry, n - 1) + FeeOf(MoveOn(x, n - 1))
  }

  /** The greatest position after the bars from `entry` to before `n`. */
  function Largest(x: Setup, entry: nat, n: nat): real
    requires Runnable(x) && 1 <= entry < n <= |x.bars|
    decreases n
  {
    var now := BooksAt(x, n).shares;
    if n == entry + 1 then now else Max(Largest(x, entry, n - 1), now)
  }

  /** The open cycle's books are its fills: all its charges and its greatest position. */
  ghost predicate CycleIsFills(x: Setup, n: nat)
    requires Runnable(x) && 1 <= n <= |x.bars|
  {
    var b := BooksAt(x, n);
    && Forgotten(b) && b.shares <= PeakIn(b)
    && (b.entry.Some? ==>
          && 1 <= b.entry.value < n
          && FeesIn(b) == FeesBetween(x, b.entry.value, n) && b.peakShares == Largest(x, b.entry.value, n))
  }

  /** A recorded trade tells its cycle: the charges of all its fills, the price of the last one, the average price paid
      for what that one sold, and the weight reached before it. */
  ghost predicate TradeIsFills(x: Setup, t: Trade, n: nat)
    requires Runnable(x) && 1 <= n <= |x.bars|
  {
    && 1 <= t.entryBar < t.exitBar < n
    && t.commission == FeesBetween(x, t.entryBar, t.exitBar + 1)
    && MoveOn(x, t.exitBar).Shrank? && t.exitPrice == MoveOn(x, t.exitBar).fill.price
    && t.entryPrice == BooksAt(x, t.exitBar).entryPrice && t.weight == BooksAt(x, t.exitBar).prevWeight
  }

  ghost predicate TradesAreFills(x: Setup, trades: seq<Trade>, n: nat)
    requires Runnable(x) && 1 <= n <= |x.bars|
  {
    forall i | 0 <= i < |trades| :: TradeIsFills(x, trades[i], n)
  }

  lemma BarTells(x: Setup, n: nat)
    requires Runnable(x) && 1 <= n < |x.bars| && CycleIsFills(x, n)
    ensures var b, r, v := BooksAt(x, n), BooksAt(x, n + 1), MoveOn(x, n);
      && Forgotten(r) && Continues(b, v, r) && r.shares <= PeakIn(r)
      && (r.trades == b.trades
          || (|r.trades| == |b.trades| + 1 && r.trades[..|b.trades|] == b.trades
              && TellsCycle(b, n, v, r.trades[|b.trades|])))
  {
    var b, r, v := BooksAt(x, n), BooksAt(x, n + 1), MoveOn(x, n);
    MoveOnMoves(x, n);
    match v
    case Still => StillTells(b, n, r, DustAt(x, n + 1) - DustAt(x, n));
    case Grew(_, _) => GrewTells(b, n, v, r, DustAt(x, n + 1) - DustAt(x, n));
    case Shrank(_, _) => ShrankTells(b, n, v, r, DustAt(x, n + 1) - DustAt(x, n));
  }

  lemma CycleCarries(x: Setup, n: nat)
    requires Runnable(x) && 1 <= n < |x.bars| && CycleIsFills(x, n)
    ensures CycleIsFills(x, n + 1)
  {
    var b, r, v := BooksAt(x, n), BooksAt(x, n + 1), MoveOn(x, n);
    BarTells(x, n);
    MoveOnMoves(x, n);
    MoveOfCycle(b, n, v, r, DustAt(x, n + 1) - DustAt(x, n));
    if r.entry.Some? {
      if b.entry.Some? { CycleGoesOn(x, n, b, r, v); } else { CycleBegins(x, n, b, r, v); }
    }
  }

  lemma CycleGoesOn(x: Setup, n: nat, b: Book, r: Book, v: Move)
    requires Runnable(x) && 1 <= n < |x.bars| && CycleIsFills(x, n) && b == BooksAt(x, n) && r == BooksAt(x, n + 1)
    requires b.entry.Some? && r.entry == b.entry && v == MoveOn(x, n)
    requires FeesIn(r) == FeesIn(b) + FeeOf(v) && PeakIn(r) == Max(PeakIn(b), r.shares)
    ensures FeesIn(r) == FeesBetween(x, r.entry.value, n + 1) && r.peakShares == Largest(x, r.entry.value, n + 1)
  {
  }

  lemma CycleBegins(x: Setup, n: nat, b: Book, r: Book, v: Move)
    requires Runnable(x) && 1 <= n < |x.bars| && b == BooksAt(x, n) && r == BooksAt(x, n + 1) && Solvent(r)
    requires b.entry.None? && r.entry == Some(n) && v == MoveOn(x, n)
    requires FeesIn(r) == FeesIn(b) + FeeOf(v) && PeakIn(r) == Max(PeakIn(b), r.shares)
    ensures FeesIn(r) == FeesBetween(x, n, n + 1) && r.peakShares == Largest(x, n, n + 1)
  {
    assert FeesBetween(x, n, n) == 0.0;
  }

  lemma OlderTradesAreFills(x: Setup, trades: seq<Trade>, n: nat)
    requires Runnable(x) && 1 <= n < |x.bars| && TradesAreFills(x, trades, n)
    ensures TradesAreFills(x, trades, n + 1)
  {
    forall i | 0 <= i < |trades| ensures TradeIsFills(x, trades[i], n + 1) { assert TradeIsFills(x, trades[i], n); }
  }

  lemma NewTradeIsFills(x: Setup, n: nat, t: Trade)
    requires Runnable(x) && 1 <= n < |x.bars| && CycleIsFills(x, n) && TellsCycle(BooksAt(x, n), n, MoveOn(x, n), t)
    ensures TradeIsFills(x, t, n + 1)
  {
    assert FeesBetween(x, t.entryBar, n + 1) == FeesBetween(x, t.entryBar, n) + FeeOf(MoveOn(x, n));
  }

  /** Every trade that a run records tells the fills of its cycle, and so do the books of the open one. */
  lemma {:induction false} TradesTellTheirFills(x: Setup, n: nat)
    requires Runnable(x) && 1 <= n <= |x.bars|
    ensures CycleIsFills(x, n) && TradesAreFills(x, BooksAt(x, n).trades, n)
  {
    if n > 1 {
      TradesTellTheirFills(x, n - 1);
      CycleCarries(x, n - 1);
      TradesCarry(x, n - 1, BooksAt(x, n - 1).trades, BooksAt(x, n).trades);
    }
  }

  lemma TradesCarry(x: Setup, n: nat, before: seq<Trade>, after: seq<Trade>)
    requires Runnable(x) && 1 <= n < |x.bars| && CycleIsFills(x, n) && TradesAreFills(x, before, n)
    requires before == BooksAt(x, n).trades && after == BooksAt(x, n + 1).trades
    ensures TradesAreFills(x, after, n + 1)
  {
    BarTells(x, n);
    OlderTradesAreFills(x, before, n);
    if after != before { NewTradeIsFills(x, n, after[|before|]); }
  }

  /** A position is opened with nothing carried over: books that differ only in what they remember of earlier cycles
      become the same. */
  lemma OpeningForgets(b: Book, c: Book, i: nat, fill: Fill)
    requires b.shares == c.shares == 0.0 && b.cash == c.cash && b.trades == c.trades && b.prevWeight == c.prevWeight
    requires b.peakShares == c.peakShares && fill.shares > 0.0
    ensures BookBuy(b, i, fill) == BookBuy(c, i, fill)
  {
  }

  // ---- the closing trade -----------------------------------------------------------------

  /** The stack has no market rules. */
  predicate Ruleless(m: Matcher) {
    match m
    case Base(_, _, _, _) => true
    case Tax(inner, _) => Ruleless(inner)
    case Rules(_, _, _, _, _, _, _) => false
  }

  /** Rules, if any, are only around the other wrappers. */
  predicate RulesOutside(m: Matcher) { if m.Rules? then RulesOutside(m.inner) else Ruleless(m) }

  lemma {:induction false} RulelessFills(m: Matcher, price: real, shares: real)
    requires Ruleless(m) && price > 0.0 && shares > 0.0
    ensures !SaleBlocked(m, price, shares) && RoundedInwards(m, shares) == shares
  {
    match m
    case Base(_, _, _, _) =>
    case Tax(inner, _) => RulelessFills(inner, price, shares);
  }

  /** The same wrappers with the same costs; only rules may differ. */
  predicate SameCosts(m: Matcher, r: Matcher) {
    match m
    case Base(_, _, _, _) => r == m
    case Tax(inner, tax) => r.Tax? && r.tax == tax && SameCosts(inner, r.inner)
    case Rules(inner, _, _, _, _, _, _) => r.Rules? && SameCosts(inner, r.inner)
  }

  lemma {:induction false} PurchaseKeepsCosts(m: Matcher, before: Matcher, r: Matcher)
    requires SameCosts(m, before) && SameSettings(before, r)
    ensures SameCosts(m, r)
  {
    match m
    case Base(_, _, _, _) =>
    case Tax(inner, _) => PurchaseKeepsCosts(inner, before.inner, r.inner);
    case Rules(inner, _, _, _, _, _, _) => PurchaseKeepsCosts(inner, before.inner, r.inner);
  }

  lemma {:induction false} CostsStay(x: Setup, n: nat)
    requires Runnable(x) && 1 <= n <= |x.bars|
    ensures SameCosts(x.matcher, Simulated(x.matcher, x.bars, x.weights, x.capital, n).matcher)
  {
    if n == 1 {
      SameCostsAsItself(x.matcher);
    } else {
      CostsStay(x, n - 1);
      var s, w := Simulated(x.matcher, x.bars, x.weights, x.capital, n - 1), Weight(x.weights, n - 1);
      if Tradable(x.bars[n - 1]) {
        var ready, open := OnBar(s.matcher, n - 1, x.bars[n - 2].rawClose), x.bars[n - 1].open.value;
        assert SameCosts(x.matcher, ready);
        if Triggers(s.book, w) && Plan(s.book, open, w).Add? {
          BuyMarksStack(ready, open, Plan(s.book, open, w).amount);
          PurchaseKeepsCosts(x.matcher, ready, FillBuy(ready, open, Plan(s.book, open, w).amount).1);
        }
      }
    }
  }

  lemma {:induction false} SameCostsAsItself(m: Matcher)
    ensures SameCosts(m, m)
  {
    match m
    case Base(_, _, _, _) =>
    case Tax(inner, _) => SameCostsAsItself(inner);
    case Rules(inner, _, _, _, _, _, _) => SameCostsAsItself(inner);
  }

  lemma {:induction false} UnwrappedIs(m: Matcher, r: Matcher, value: real, proceeds: real)
    requires RulesOutside(m) && SameCosts(m, r)
    ensures Ruleless(Unwrapped(r)) && Bottom(Unwrapped(r)) == Bottom(m)
    ensures AfterTaxes(Unwrapped(r), value, proceeds) == AfterTaxes(m, value, proceeds)
  {
    if m.Rules? { UnwrappedIs(m.inner, r.inner, value, proceeds); } else { RulelessIs(m, r, value, proceeds); }
  }

  lemma {:induction false} RulelessIs(m: Matcher, r: Matcher, value: real, proceeds: real)
    requires Ruleless(m) && SameCosts(m, r)
    ensures Ruleless(r) && Bottom(r) == Bottom(m) && AfterTaxes(r, value, proceeds) == AfterTaxes(m, value, proceeds)
  {
    if m.Tax? { RulelessIs(m.inner, r.inner, value, proceeds); }
  }

  /** The position open at the end is recorded whole whatever the rules around the matcher say: sold at the last price
      with the matcher's slippage, commission and taxes, none of its limits and lots. */
  lemma ClosingIgnoresRules(x: Setup, price: real) returns (value: real)
    requires Runnable(x) && x.bars != [] && BooksAt(x, |x.bars|).shares > 0.0 && RulesOutside(x.matcher)
    requires x.bars[|x.bars| - 1].price == Some(price) && price > 0.0
    ensures var s := Simulated(x.matcher, x.bars, x.weights, x.capital, |x.bars|);
      var closing := Terminal(s.book, s.matcher, x.bars);
      && |closing| == 1 && closing[0].exitPrice == SalePrice(x.matcher, price)
      && value == Weighed(s.book.shares, closing[0].exitPrice)
      && closing[0].commission
           == FeesIn(s.book) + value - AfterTaxes(x.matcher, value, value - SaleCharge(x.matcher, value))
      && closing[0].entryPrice == s.book.entryPrice && closing[0].weight == s.book.prevWeight
  {
    var s := Simulated(x.matcher, x.bars, x.weights, x.capital, |x.bars|);
    var m := Unwrapped(s.matcher);
    ProfitAndLossBalance(x.matcher, x.bars, x.weights, x.capital, |x.bars|);
    CostsStay(x, |x.bars|);
    UnwrappedIs(x.matcher, s.matcher, 0.0, 0.0);
    RulelessFills(m, price, s.book.shares);
    value := SaleFillsExactly(m, price, s.book.shares);
    UnwrappedIs(x.matcher, s.matcher, value, value - SaleCharge(m, value));
    TerminalIsClosing(s.book, s.matcher, x.bars);
  }
}
