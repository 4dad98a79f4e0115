/** The fast loop as written, and the choice between the two loops
    (`jit_simulate_loop` in ez/core/_jit_fill.py; `_simulate_jit`, `_simulate` in ez/backtest/engine.py). */
module FastEngine {
  import opened Matchers
  import opened MatcherObjects
  import opened Backtest
  import opened FastLoop
  import Engine

  method InlinedSale(f: Fast, c: Rates, i: nat, open: real, asked: real) returns (r: Fast)
    ensures r == FastSell(f, c, i, open, asked)
  {
    var (price, comm, net) := InlinedSell(c, open, asked);
    r := f;
    if asked > 0.0 {
      r := r.(cash := f.cash + net, shares := Undust(f.shares - asked));
      if f.shares > 0.0 && r.shares < ZERO_THRESHOLD && f.entryBar >= 0 {
        var pnl := Gain(price, f.entryPrice, f.shares, comm) - f.entryComm;
        if |f.trades| < MAX_TRADES {
          r := r.(trades := f.trades
                  + [FastTrade(f.entryBar, i, f.entryPrice, price, pnl, f.entryComm + comm, f.prevWeight)]);
        }
        r := r.(entryBar := -1, entryComm := 0.0);
      }
      r := r.(prevWeight := Ratio(r.shares * open, r.cash + r.shares * open));
    }
  }

  method InlinedPurchase(f: Fast, c: Rates, i: nat, open: real, add: real) returns (r: Fast)
    requires open > 0.0 && add > 0.0 && f.shares >= 0.0
    ensures r == FastBuy(f, c, i, open, add)
  {
    var (bought, price, comm) := InlinedBuy(c, open, add);
    r := f;
    if bought > 0.0 { r := BookPurchase(f, i, open, price, comm, bought, add); }
  }

  method BookPurchase(f: Fast, i: nat, open: real, price: real, comm: real, bought: real, add: real) returns (r: Fast)
    requires bought > 0.0 && f.shares >= 0.0
    ensures r == FastBookBuy(f, i, open, price, comm, bought, add)
  {
    r := f;
    if f.shares == 0.0 {
      r := r.(entryBar := i, entryPrice := price, entryComm := comm);
    } else {
      r := r.(entryPrice := (f.entryPrice * f.shares + price * bought) / (f.shares + bought));
      r := r.(entryComm := f.entryComm + comm);
    }
    r := r.(shares := f.shares + bought);
    r := r.(cash := f.cash - add);
    r := r.(prevWeight := Ratio(r.shares * open, r.cash + r.shares * open));
  }

  method FastBar(f: Fast, c: Rates, i: nat, open: real, w: real) returns (r: Fast)
    requires FastSolvent(f) && w >= 0.0 && open > 0.0
    ensures r == FastTrading(f, c, i, open, w)
  {
    r := f;
    var diff := w - f.prevWeight;
    if diff > WEIGHT_CHANGE_MIN || diff < -WEIGHT_CHANGE_MIN {
      match OrderFor(f.cash, f.shares, open, w) {
        case Reduce(asked) => r := InlinedSale(f, c, i, open, asked);
        case Add(add) => r := InlinedPurchase(f, c, i, open, add);
        case Hold =>
      }
    }
  }

  method RunFastBar(f: Fast, c: Rates, equity: array<real>, daily: array<real>, i: nat, bar: Bar, w: real,
                    ghost s: FastSim)
    returns (r: Fast)
    requires FastSolvent(f) && w >= 0.0 && (Tradable(bar) ==> bar.open.value > 0.0)
    requires equity != daily && 1 <= i < equity.Length == daily.Length && daily[i] == 0.0
    requires f == s.book && equity[..i] == s.equity && daily[..i] == s.daily
    modifies equity, daily
    ensures var t := FastNextBar(s, c, i, bar, w);
      r == t.book && equity[..i + 1] == t.equity && daily[..i + 1] == t.daily
    ensures forall j | i < j < daily.Length :: daily[j] == old(daily[j])
  {
    assert equity[i - 1] == s.equity[i - 1];
    r := f;
    if Tradable(bar) {
      r := FastBar(f, c, i, bar.open.value, w);
      equity[i] := FastWorth(r, bar.price.value);
      if equity[i - 1] > 0.0 { daily[i] := equity[i] / equity[i - 1] - 1.0; }
    } else {
      equity[i] := equity[i - 1];
    }
    assert equity[..i + 1] == s.equity + [equity[i]];
    assert daily[..i + 1] == s.daily + [daily[i]];
  }

  /** `jit_simulate_loop`; the parallel record arrays are one sequence of at most MAX_TRADES trades. */
  method RunFastLoop(c: Rates, bars: seq<Bar>, weights: seq<real>, capital: real)
    returns (equity: array<real>, daily: array<real>, f: Fast)
    requires bars != [] && |weights| == |bars| && capital >= 0.0 && NonNegative(weights) && PositiveOpens(bars)
    ensures fresh(equity) && fresh(daily)
    ensures var s := FastSimulated(c, bars, weights, capital, |bars|);
      equity[..] == s.equity && daily[..] == s.daily && f == s.book
  {
    var n := |bars|;
    equity, daily := new real[n](_ => 0.0), new real[n](_ => 0.0);
    equity[0] := capital;
    f := FastOpening(capital);
    ghost var s := FastSimulated(c, bars, weights, capital, 1);
    for i := 1 to n
      invariant s == FastSimulated(c, bars, weights, capital, i)
      invariant f == s.book && equity[..i] == s.equity && daily[..i] == s.daily
      invariant forall j | i <= j < n :: daily[j] == 0.0
    {
      f := RunFastBar(f, c, equity, daily, i, bars[i], weights[i], s);
      s := FastNextBar(s, c, i, bars[i], weights[i]);
    }
    assert equity[..n] == equity[..] && daily[..n] == daily[..];
  }

  method RecordFastTerminal(c: Rates, f: Fast, matcher: MatcherObject, bars: seq<Bar>, weights: seq<real>)
    returns (closing: seq<FastTrade>)
    requires bars != [] && matcher.Valid() && matcher.Value() == MatcherOf(c)
    ensures closing == FastTerminal(c, f, bars, weights)
  {
    closing := [];
    var last := |bars| - 1;
    if f.shares > ZERO_THRESHOLD && f.entryBar >= 0 && bars[last].price.Some? && bars[last].price.value > 0.0 {
      var fill := matcher.TrySell(bars[last].price.value, f.shares);
      if fill.shares > 0.0 {
        var pnl := Gain(fill.price, f.entryPrice, fill.shares, fill.commission) - f.entryComm;
        closing := [FastTrade(f.entryBar, last, f.entryPrice, fill.price, pnl, f.entryComm + fill.commission,
                              if f.entryBar < |weights| then weights[f.entryBar] else 0.0)];
      }
    }
  }

  /** Trade lists agree apart from the percentage, unless the fast loop ran out of record space or a
      position under 1e-10 shares was left open. */
  ghost predicate SameRecords(recorded: seq<FastTrade>, m: Matcher, bars: seq<Bar>, weights: seq<real>, capital: real)
    requires bars != [] && |weights| == |bars| && capital >= 0.0 && NonNegative(weights)
  {
    var b := Simulated(m, bars, weights, capital, |bars|).book;
    |b.trades| <= MAX_TRADES && !LeavesDust(b, bars) ==> recorded == AllRecorded(Trades(m, bars, weights, capital))
  }

  /** `_simulate`: base matchers with all-or-nothing signals take the fast loop, and no one can tell
      from the equity curve, the returns or the trades. */
  method Simulate(matcher: MatcherObject, bars: seq<Bar>, weights: seq<real>, capital: real)
    returns (equity: array<real>, trades: seq<FastTrade>, daily: array<real>)
    requires matcher.Valid() && bars != [] && capital >= 0.0 && NonNegative(weights) && |weights| == |bars|
    requires matcher.kind.BaseKind? && Binary(weights) ==> PositiveOpens(bars)
    modifies matcher.Repr
    ensures var s := Simulated(old(matcher.Value()), bars, weights, capital, |bars|);
      equity[..] == s.equity && daily[..] == s.daily
    ensures SameRecords(trades, old(matcher.Value()), bars, weights, capital)
    ensures !(matcher.kind.BaseKind? && Binary(weights)) ==>
      trades == AllRecorded(Trades(old(matcher.Value()), bars, weights, capital))
  {
    if matcher.kind.BaseKind? && Binary(weights) {
      var c := Rates(matcher.kind.slip, matcher.kind.rate, matcher.kind.sellRate, matcher.kind.minComm);
      var f;
      equity, daily, f := RunFastLoop(c, bars, weights, capital);
      var closing := RecordFastTerminal(c, f, matcher, bars, weights);
      trades := f.trades + closing;
      FastLoopRefines(c, bars, weights, capital, |bars|);
      AcceleratedTradesAgree(c, bars, weights, capital);
    } else {
      var recorded;
      equity, recorded, daily := Engine.SimulateBars(matcher, bars, weights, capital);
      trades := AllRecorded(recorded);
    }
  }
}
