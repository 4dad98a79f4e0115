/** What the market rules mean in whole backtest runs (ez/core/market_rules.py, ez/backtest/engine.py). */
module RuleRuns {
  import opened Matchers
  import opened Backtest
  import opened FillLaws

  // ---- price limits ----------------------------------------------------------------------

  /** The outermost wrapper keeps its settings over a run. */
  lemma {:induction false} RulesStay(m: Matcher, bars: seq<Bar>, weights: seq<real>, capital: real, n: nat)
    requires m.Rules? && 1 <= n <= |bars| && capital >= 0.0 && NonNegative(weights)
    ensures var r := Simulated(m, bars, weights, capital, n).matcher;
      r.Rules? && r == m.(inner := r.inner, bar := r.bar, prevClose := r.prevClose, buyBar := r.buyBar)
  {
    if n > 1 { RulesStay(m, bars, weights, capital, n - 1); }
  }

  lemma NoBuyAtTop(b: Book, m: Matcher, i: nat, open: real, amount: real)
    requires Solvent(b) && amount <= b.cash && LimitUp(m, open)
    ensures Buy(b, m, i, open, amount) == b
  {
    var full := BuyFillsExactly(m, open, amount);
  }

  lemma NoSaleAtBottom(b: Book, m: Matcher, i: nat, open: real, asked: real)
    requires Solvent(b) && LimitDown(m, open)
    ensures Sell(b, m, i, open, asked) == b
  {
    var value := SaleFillsExactly(m, open, asked);
  }

  /** A purchase never takes shares away. */
  lemma BuyGrows(b: Book, m: Matcher, i: nat, open: real, amount: real)
    requires Solvent(b) && amount <= b.cash
    ensures Buy(b, m, i, open, amount).shares >= b.shares
  {
  }

  /** A sale never adds any. */
  lemma SaleShrinks(b: Book, m: Matcher, i: nat, open: real, asked: real)
    requires Solvent(b)
    ensures Sell(b, m, i, open, asked).shares <= b.shares
  {
  }

  /** Whatever the run and its weights: on a bar that opens up by the limit from the close of the bar before, nothing is
      bought, and on one that opens down by it nothing is sold. */
  lemma RunsObeyLimits(m: Matcher, bars: seq<Bar>, weights: seq<real>, capital: real, n: nat)
    requires m.Rules? && 1 <= n < |bars| && capital >= 0.0 && NonNegative(weights) && Tradable(bars[n])
    ensures var b, r := Simulated(m, bars, weights, capital, n).book, Simulated(m, bars, weights, capital, n + 1).book;
      && (UpBy(m.limit, bars[n - 1].rawClose, bars[n].open.value) ==> r == b || r.shares <= b.shares)
      && (DownBy(m.limit, bars[n - 1].rawClose, bars[n].open.value) ==> r == b || r.shares >= b.shares)
  {
    var s, w, open := Simulated(m, bars, weights, capital, n), Weight(weights, n), bars[n].open.value;
    RulesStay(m, bars, weights, capital, n);
    var ready := OnBar(s.matcher, n, bars[n - 1].rawClose);
    if Triggers(s.book, w) {
      match Plan(s.book, open, w)
      case Reduce(asked) =>
        SaleShrinks(s.book, ready, n, open, asked);
        if LimitDown(ready, open) { NoSaleAtBottom(s.book, ready, n, open, asked); }
      case Add(amount) =>
        BuyGrows(s.book, ready, n, open, amount);
        if LimitUp(ready, open) { NoBuyAtTop(s.book, ready, n, open, amount); }
      case Hold =>
    }
  }

  // ---- the next-day rule -----------------------------------------------------------------

  /** The same simulation but for the next-day rule of the outermost wrapper, which last bought before this bar. */
  ghost predicate Twins(s: Sim, t: Sim, n: int) {
    s.matcher.Rules? && s.matcher.buyBar < n && t == s.(matcher := s.matcher.(tPlus1 := false))
  }

  lemma TwinBuys(m: Matcher, price: real, amount: real)
    requires m.Rules?
    ensures var (f, r) := FillBuy(m, price, amount);
      FillBuy(m.(tPlus1 := false), price, amount) == (f, r.(tPlus1 := false))
  {
  }

  lemma TwinSells(m: Matcher, price: real, shares: real)
    requires m.Rules? && m.buyBar != m.bar
    ensures FillSell(m.(tPlus1 := false), price, shares) == FillSell(m, price, shares)
  {
  }

  lemma TwinTrades(b: Book, m: Matcher, i: nat, open: real, w: real)
    requires Solvent(b) && w >= 0.0 && m.Rules? && m.buyBar < m.bar
    ensures Trading(b, m.(tPlus1 := false), i, open, w) == Trading(b, m, i, open, w)
    ensures var r := Traded(b, m, open, w);
      r.Rules? && r.buyBar <= m.bar && Traded(b, m.(tPlus1 := false), open, w) == r.(tPlus1 := false)
  {
    match Plan(b, open, w)
    case Reduce(shares) => TwinSells(m, open, shares);
    case Add(amount) =>
      TwinBuys(m, open, amount);
      RulesRemember(m, open, amount);
    case Hold =>
  }

  lemma NextTwins(s: Sim, t: Sim, n: nat, previous: Bar, bar: Bar, w: real)
    requires Solvent(s.book) && w >= 0.0 && s.equity != [] && Twins(s, t, n)
    ensures Twins(NextBar(s, n, previous, bar, w), NextBar(t, n, previous, bar, w), n + 1)
  {
    if Tradable(bar) { TwinTrades(s.book, OnBar(s.matcher, n, previous.rawClose), n, bar.open.value, w); }
  }

  lemma {:induction false} TwinRuns(m: Matcher, bars: seq<Bar>, weights: seq<real>, capital: real, n: nat)
    requires m.Rules? && m.buyBar < 1 && 1 <= n <= |bars| && capital >= 0.0 && NonNegative(weights)
    ensures Twins(Simulated(m, bars, weights, capital, n),
                  Simulated(m.(tPlus1 := false), bars, weights, capital, n), n)
  {
    if n > 1 {
      TwinRuns(m, bars, weights, capital, n - 1);
      var s := Simulated(m, bars, weights, capital, n - 1);
      var t := Simulated(m.(tPlus1 := false), bars, weights, capital, n - 1);
      NextTwins(s, t, n - 1, bars[n - 2], bars[n - 1], Weight(weights, n - 1));
    }
  }

  /** The engine trades once a bar, so the next-day rule of the outermost wrapper never stops it: a run with it has the
      books, the equity and the daily returns of the run without it. */
  lemma NextDayRuleNeverBinds(m: Matcher, bars: seq<Bar>, weights: seq<real>, capital: real, n: nat)
    requires m.Rules? && m.buyBar < 1 && 1 <= n <= |bars| && capital >= 0.0 && NonNegative(weights)
    ensures var s := Simulated(m, bars, weights, capital, n);
      var t := Simulated(m.(tPlus1 := false), bars, weights, capital, n);
      s.book == t.book && s.equity == t.equity && s.daily == t.daily
  {
    TwinRuns(m, bars, weights, capital, n);
  }

  // ---- rules inside another wrapper ------------------------------------------------------

  /** Below the outermost wrapper some next-day rules are on the bar of their last purchase, as all rules are at
      first. */
  predicate Stuck(m: Matcher) {
    match m
    case Base(_, _, _, _) => false
    case Tax(inner, _) => BoughtToday(inner)
    case Rules(inner, _, _, _, _, _, _) => BoughtToday(inner)
  }

  lemma {:induction false} BoughtStaysBought(m: Matcher, price: real, amount: real)
    requires BoughtToday(m)
    ensures BoughtToday(FillBuy(m, price, amount).1)
  {
    match m
    case Base(_, _, _, _) =>
    case Tax(inner, _) => BoughtStaysBought(inner, price, amount);
    case Rules(inner, tPlus1, _, _, bar, _, buyBar) =>
      if BoughtToday(inner) { BoughtStaysBought(inner, price, amount); }
  }

  lemma StuckStays(m: Matcher, price: real, amount: real)
    requires Stuck(m)
    ensures Stuck(FillBuy(m, price, amount).1)
  {
    BoughtStaysBought(m.inner, price, amount);
  }

  lemma {:induction false} StuckRuns(m: Matcher, bars: seq<Bar>, weights: seq<real>, capital: real, n: nat)
    requires Stuck(m) && 1 <= n <= |bars| && capital >= 0.0 && NonNegative(weights)
    ensures Stuck(Simulated(m, bars, weights, capital, n).matcher)
  {
    if n > 1 {
      StuckRuns(m, bars, weights, capital, n - 1);
      var s, w := Simulated(m, bars, weights, capital, n - 1), Weight(weights, n - 1);
      if Tradable(bars[n - 1]) {
        var ready, open := OnBar(s.matcher, n - 1, bars[n - 2].rawClose), bars[n - 1].open.value;
        assert Stuck(ready);
        if Triggers(s.book, w) && Plan(s.book, open, w).Add? { StuckStays(ready, open, Plan(s.book, open, w).amount); }
      }
    }
  }

  /** The engine tells the bar to the outermost wrapper only, so next-day rules inside another wrapper stay on the bar
      they were made on: a run never sells and closes no trade. */
  lemma {:induction false} InnerRulesNeverSell(m: Matcher, bars: seq<Bar>, weights: seq<real>, capital: real, n: nat)
    requires Stuck(m) && 1 <= n <= |bars| && capital >= 0.0 && NonNegative(weights)
    ensures Simulated(m, bars, weights, capital, n).book.trades == []
    ensures n > 1 ==> Simulated(m, bars, weights, capital, n - 1).book.shares
                        <= Simulated(m, bars, weights, capital, n).book.shares
  {
    if n > 1 {
      InnerRulesNeverSell(m, bars, weights, capital, n - 1);
      StuckRuns(m, bars, weights, capital, n - 1);
      var s, w := Simulated(m, bars, weights, capital, n - 1), Weight(weights, n - 1);
      if Tradable(bars[n - 1]) {
        StuckBar(s.book, OnBar(s.matcher, n - 1, bars[n - 2].rawClose), n - 1, bars[n - 1].open.value, w);
      }
    }
  }

  lemma StuckBar(b: Book, m: Matcher, i: nat, open: real, w: real)
    requires Solvent(b) && w >= 0.0 && Stuck(m)
    ensures var r := Trading(b, m, i, open, w); r.trades == b.trades && r.shares >= b.shares
  {
    if Triggers(b, w) {
      match Plan(b, open, w)
      case Reduce(asked) =>
        assert BoughtToday(m);
        var value := SaleFillsExactly(m, open, asked);
      case Add(amount) => BuyGrows(b, m, i, open, amount);
      case Hold =>
    }
  }
}
