/** What the equity curve and the daily returns of a backtest mean (ez/backtest/engine.py). */
module EquityLaws {
  import opened Reals
  import opened Matchers
  import opened Backtest
  import opened BacktestLaws

  function Grown(before: real, gain: real): real { before * (1.0 + gain) }

  lemma ReturnGrows(now: real, before: real)
    requires before > 0.0
    ensures now == Grown(before, Return(now, before))
  {
    var q := now / before;
    assert q * before == now;
    assert 1.0 + Return(now, before) == q;
  }

  /** A bar adds one point to each curve: its equity is the last one grown by its return, and the worth of the books
      when the bar was traded. */
  ghost predicate AddsPoint(s: Sim, r: Sim, bar: Bar) {
    && s.equity != [] && |r.equity| == |s.equity| + 1 && |r.daily| == |s.daily| + 1
    && r.equity[..|s.equity|] == s.equity && r.daily[..|s.daily|] == s.daily
    && var before, now := s.equity[|s.equity| - 1], r.equity[|s.equity|];
       && (before > 0.0 ==> now == Grown(before, r.daily[|s.daily|]))
       && (if Tradable(bar) then now == Worth(r.book, bar.price.value) else now == before)
  }

  lemma BarAddsPoint(s: Sim, i: nat, previous: Bar, bar: Bar, w: real)
    requires Solvent(s.book) && w >= 0.0 && s.equity != []
    ensures AddsPoint(s, NextBar(s, i, previous, bar, w), bar)
  {
    var before := s.equity[|s.equity| - 1];
    if before > 0.0 && Tradable(bar) {
      var book := Trading(s.book, OnBar(s.matcher, i, previous.rawClose), i, bar.open.value, w);
      ReturnGrows(Worth(book, bar.price.value), before);
    }
  }

  lemma LastPoint(m: Matcher, bars: seq<Bar>, weights: seq<real>, capital: real, n: nat)
    requires 2 <= n <= |bars| && capital >= 0.0 && NonNegative(weights)
    ensures AddsPoint(Simulated(m, bars, weights, capital, n - 1), Simulated(m, bars, weights, capital, n), bars[n - 1])
  {
    var s, w := Simulated(m, bars, weights, capital, n - 1), Weight(weights, n - 1);
    LastBarIsNext(m, bars, weights, capital, n);
    BarAddsPoint(s, n - 1, bars[n - 2], bars[n - 1], w);
  }

  lemma LastBarIsNext(m: Matcher, bars: seq<Bar>, weights: seq<real>, capital: real, n: nat)
    requires 2 <= n <= |bars| && capital >= 0.0 && NonNegative(weights)
    ensures Simulated(m, bars, weights, capital, n)
      == NextBar(Simulated(m, bars, weights, capital, n - 1), n - 1, bars[n - 2], bars[n - 1], Weight(weights, n - 1))
  {
  }

  /** Every point of the equity curve is the one before it grown by the return. */
  ghost predicate Compounds(equity: seq<real>, daily: seq<real>) {
    |equity| == |daily| && forall i | 1 <= i < |equity| ::
      equity[i - 1] > 0.0 ==> equity[i] == Grown(equity[i - 1], daily[i])
  }

  lemma PointCompounds(s: Sim, r: Sim, bar: Bar)
    requires AddsPoint(s, r, bar) && Compounds(s.equity, s.daily)
    ensures Compounds(r.equity, r.daily)
  {
    assert forall j | 0 <= j < |s.equity| ::
        r.equity[j] == r.equity[..|s.equity|][j] && r.daily[j] == r.daily[..|s.daily|][j];
  }

  lemma {:induction false} ReturnsCompound(m: Matcher, bars: seq<Bar>, weights: seq<real>, capital: real, n: nat)
    requires 1 <= n <= |bars| && capital >= 0.0 && NonNegative(weights)
    ensures Compounds(Simulated(m, bars, weights, capital, n).equity, Simulated(m, bars, weights, capital, n).daily)
  {
    if n > 1 {
      ReturnsCompound(m, bars, weights, capital, n - 1);
      LastPoint(m, bars, weights, capital, n);
      PointCompounds(Simulated(m, bars, weights, capital, n - 1), Simulated(m, bars, weights, capital, n), bars[n - 1]);
    }
  }

  /** What books that balance are worth at a price. */
  lemma MarkedToMarket(b: Book, capital: real, dust: real, price: real)
    requires Balanced(b, capital, dust)
    ensures Worth(b, price) - capital == SumPnl(b.trades) + b.partialPnl + Gain(price, b.entryPrice, b.shares,
        b.entryComm) - dust
  {
    Distribute(b.shares, price, -b.entryPrice);
  }

  /** The curve's distance from the capital is the recorded profit, the profit of the sold part of the open position,
      and what the rest is above its cost, less the written-off dust. */
  lemma EquityDecomposes(m: Matcher, bars: seq<Bar>, weights: seq<real>, capital: real, n: nat)
    requires 2 <= n <= |bars| && capital >= 0.0 && NonNegative(weights) && Tradable(bars[n - 1])
    ensures var s := Simulated(m, bars, weights, capital, n);
      s.equity[n - 1] - capital
        == SumPnl(s.book.trades) + s.book.partialPnl
           + Gain(bars[n - 1].price.value, s.book.entryPrice, s.book.shares, s.book.entryComm)
           - Dust(m, bars, weights, capital, n)
  {
    assert Balanced(Simulated(m, bars, weights, capital, n).book, capital, Dust(m, bars, weights, capital, n)) by {
      ProfitAndLossBalance(m, bars, weights, capital, n);
    }
    LastPoint(m, bars, weights, capital, n);
    MarkedToMarket(Simulated(m, bars, weights, capital, n).book, capital, Dust(m, bars, weights, capital, n),
                   bars[n - 1].price.value);
  }

  lemma PointIsNotNegative(s: Sim, r: Sim, bar: Bar)
    requires AddsPoint(s, r, bar) && Solvent(r.book) && (bar.price.Some? ==> bar.price.value >= 0.0)
    requires forall i | 0 <= i < |s.equity| :: s.equity[i] >= 0.0
    ensures forall i | 0 <= i < |r.equity| :: r.equity[i] >= 0.0
  {
    assert forall j | 0 <= j < |s.equity| :: r.equity[j] == r.equity[..|s.equity|][j];
    if Tradable(bar) { MulOrder(0.0, r.book.shares, bar.price.value); }
  }

  /** With prices that are not negative the equity never is. */
  lemma {:induction false} EquityIsNotNegative(m: Matcher, bars: seq<Bar>, weights: seq<real>, capital: real, n: nat)
    requires 1 <= n <= |bars| && capital >= 0.0 && NonNegative(weights)
    requires forall i | 0 <= i < |bars| :: bars[i].price.Some? ==> bars[i].price.value >= 0.0
    ensures forall i | 0 <= i < n :: Simulated(m, bars, weights, capital, n).equity[i] >= 0.0
  {
    if n > 1 {
      EquityIsNotNegative(m, bars, weights, capital, n - 1);
      LastPoint(m, bars, weights, capital, n);
      PointIsNotNegative(Simulated(m, bars, weights, capital, n - 1), Simulated(m, bars, weights, capital, n),
                         bars[n - 1]);
    }
  }
}
