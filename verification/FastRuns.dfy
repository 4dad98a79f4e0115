/** When the accelerated path records what the general one does: the bound that keeps its arrays from overflowing, and
    runs on which the two lists differ (ez/core/_jit_fill.py, ez/backtest/engine.py). */
module FastRuns {
  import opened Matchers
  import opened Options
  import opened Backtest
  import opened FastLoop
  import RoundTrips

  /** Up to two bars for each record and the opening one, the arrays cannot overflow: the lists agree unless the run
      leaves dust. */
  lemma ShortRunsAgree(c: Rates, bars: seq<Bar>, weights: seq<real>, capital: real)
    requires 0 < |bars| == |weights| <= 2 * MAX_TRADES + 1 && capital >= 0.0 && Binary(weights) && PositiveOpens(bars)
    ensures FastTrades(c, bars, weights, capital) == AllRecorded(Trades(MatcherOf(c), bars, weights, capital))
      <==> !LeavesDust(Simulated(MatcherOf(c), bars, weights, capital, |bars|).book, bars)
  {
    RoundTrips.TradesTakeTwoBars(RoundTrips.Setup(MatcherOf(c), bars, weights, capital), |bars|);
    AcceleratedTradesAgree(c, bars, weights, capital);
  }

  // ---- flat prices, no costs -----------------------------------------------------------

  const FREE_OF_CHARGE := Rates(0.0, 0.0, 0.0, 0.0)
  const FLAT_BAR := Bar(Some(1.0), Some(1.0), 1.0)

  function FlatBars(n: nat): seq<Bar> { seq(n, _ => FLAT_BAR) }

  /** In on odd bars, out on even ones. */
  function InAndOut(n: nat): (weights: seq<real>)
    ensures |weights| == n && Binary(weights)
  {
    seq(n, i => if i % 2 == 1 then 1.0 else 0.0)
  }

  function FlatRun(total: nat, capital: real, n: nat): Book
    requires 1 <= n <= total && capital >= 0.0
  {
    Simulated(MatcherOf(FREE_OF_CHARGE), FlatBars(total), InAndOut(total), capital, n).book
  }

  /** All the capital in the position, or all of it in cash, with a number of round trips recorded. */
  ghost predicate InOrOut(b: Book, capital: real, open: bool, trips: nat) {
    && |b.trades| == trips && b.entry.Some? == open
    && b.shares == (if open then capital else 0.0) && b.cash == (if open then 0.0 else capital)
         && b.prevWeight == (if open then 1.0 else 0.0)
  }

  lemma GoesIn(b: Book, capital: real, trips: nat, i: nat)
    requires Solvent(b) && capital > 0.0 && InOrOut(b, capital, false, trips)
    ensures InOrOut(Trading(b, MatcherOf(FREE_OF_CHARGE), i, 1.0, 1.0), capital, true, trips)
  {
    assert Plan(b, 1.0, 1.0) == Add(capital);
    var fill := Fill(capital, 1.0, 0.0, -capital);
    assert FillBuy(MatcherOf(FREE_OF_CHARGE), 1.0, capital).0 == fill;
    FullBookHasWeightOne(BookBuy(b, i, fill), 1.0);
  }

  lemma GoesOut(b: Book, capital: real, trips: nat, i: nat)
    requires Solvent(b) && capital > 0.0 && InOrOut(b, capital, true, trips)
    ensures InOrOut(Trading(b, MatcherOf(FREE_OF_CHARGE), i, 1.0, 0.0), capital, false, trips + 1)
  {
    assert Plan(b, 1.0, 0.0) == Reduce(capital);
    assert FillSell(MatcherOf(FREE_OF_CHARGE), 1.0, capital) == Fill(capital, 1.0, 0.0, capital);
  }

  lemma NextFlatBar(total: nat, capital: real, n: nat)
    requires 2 <= n <= total && capital >= 0.0
    ensures FlatRun(total, capital, n)
      == Trading(FlatRun(total, capital, n - 1), MatcherOf(FREE_OF_CHARGE), n - 1, 1.0, if (n - 1) % 2 == 1 then 1.0
                 else 0.0)
  {
    var m, bars, weights := MatcherOf(FREE_OF_CHARGE), FlatBars(total), InAndOut(total);
    var s := Simulated(m, bars, weights, capital, n - 1);
    assert s.matcher == m by { FastLoopRefines(FREE_OF_CHARGE, bars, weights, capital, n - 1); }
    LastFlatBar(s, n - 1, weights[n - 1]);
  }

  lemma LastFlatBar(s: Sim, i: nat, w: real)
    requires Solvent(s.book) && w >= 0.0 && s.equity != [] && s.matcher.Base?
    ensures NextBar(s, i, FLAT_BAR, FLAT_BAR, w).book == Trading(s.book, s.matcher, i, 1.0, w)
  {
  }

  lemma {:induction false} Alternates(total: nat, capital: real, n: nat)
    requires 1 <= n <= total && capital > 0.0
    ensures InOrOut(FlatRun(total, capital, n), capital, n % 2 == 0, (n - 1) / 2)
  {
    if n > 1 {
      Alternates(total, capital, n - 1);
      NextFlatBar(total, capital, n);
      Turns(FlatRun(total, capital, n - 1), capital, n);
    }
  }

  lemma Turns(b: Book, capital: real, n: nat)
    requires Solvent(b) && capital > 0.0 && n >= 2 && InOrOut(b, capital, n % 2 == 1, (n - 2) / 2)
    ensures InOrOut(Trading(b, MatcherOf(FREE_OF_CHARGE), n - 1, 1.0, if (n - 1) % 2 == 1 then 1.0 else 0.0), capital,
                    n % 2 == 0, (n - 1) / 2)
  {
    if n % 2 == 0 { GoesIn(b, capital, (n - 2) / 2, n - 1); } else { GoesOut(b, capital, (n - 2) / 2, n - 1); }
  }

  /** A position worth a tenth of a billionth of a share is left out of the accelerated list. */
  lemma DustIsNotClosed(capital: real)
    requires 0.0 < capital <= ZERO_THRESHOLD
    ensures FastTrades(FREE_OF_CHARGE, FlatBars(2), InAndOut(2), capital)
      != AllRecorded(Trades(MatcherOf(FREE_OF_CHARGE), FlatBars(2), InAndOut(2), capital))
  {
    Alternates(2, capital, 2);
    AcceleratedTradesAgree(FREE_OF_CHARGE, FlatBars(2), InAndOut(2), capital);
  }

  /** Two bars more than the arrays have room for, going in and out all the time, and a trade is lost. */
  lemma LongRunsLoseTrades(capital: real, total: nat)
    requires capital > 0.0 && total == 2 * MAX_TRADES + 3
    ensures FastTrades(FREE_OF_CHARGE, FlatBars(total), InAndOut(total), capital)
      != AllRecorded(Trades(MatcherOf(FREE_OF_CHARGE), FlatBars(total), InAndOut(total), capital))
  {
    Alternates(total, capital, total);
    AcceleratedTradesAgree(FREE_OF_CHARGE, FlatBars(total), InAndOut(total), capital);
  }
}
