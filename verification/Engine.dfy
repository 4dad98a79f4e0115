/** `_simulate_python` as the loop it is: matcher objects, arrays filled bar by bar, and the loop's
    variables kept in one record (ez/backtest/engine.py). */
module Engine {
  import opened Reals
  import opened Matchers
  import opened MatcherObjects
  import opened Options
  import opened Backtest

  /** Books a sale and, when it closes the position, the round trip. */
  method RecordSale(b: Book, i: nat, fill: Fill, price: real) returns (r: Book)
    requires fill.shares > 0.0
    ensures r == Reweigh(BookSale(b, i, fill), price)
  {
    r := b.(cash := b.cash + fill.net);
    r := r.(shares := Undust(b.shares - fill.shares));
    r := r.(cycleNet := b.cycleNet - fill.net);
    if b.shares > 0.0 && r.shares < ZERO_THRESHOLD && b.entry.Some? {
      var trade := RoundTrip(b, b.entry.value, i, fill, b.shares, CostBasis(b, b.shares));
      r := r.(trades := b.trades + [trade]);
      r := r.(entry := None, entryComm := 0.0, partialPnl := 0.0, partialComm := 0.0, peakShares := 0.0);
      r := r.(cycleNet := 0.0, cyclePeak := 0.0);
    } else if b.entry.Some? {
      r := r.(partialPnl := b.partialPnl + Gain(fill.price, b.entryPrice, fill.shares, fill.commission));
      r := r.(partialComm := b.partialComm + fill.commission);
    }
    r := r.(prevWeight := Ratio(r.shares * price, r.cash + r.shares * price));
  }

  /** Books a purchase into a new or an existing position. */
  method RecordBuy(b: Book, i: nat, fill: Fill, price: real) returns (r: Book)
    requires fill.shares > 0.0 && b.shares >= 0.0
    ensures r == Reweigh(BookBuy(b, i, fill), price)
  {
    r := b;
    if b.shares == 0.0 {
      r := r.(entry := Some(i), entryPrice := fill.price, entryComm := fill.commission);
      r := r.(partialPnl := 0.0, partialComm := 0.0, cycleNet := 0.0, cyclePeak := 0.0);
    } else {
      r := r.(entryComm := r.entryComm + fill.commission);
      r := r.(entryPrice := (b.entryPrice * b.shares + fill.price * fill.shares) / (b.shares + fill.shares));
    }
    r := r.(shares := r.shares + fill.shares);
    r := r.(peakShares := Max(r.peakShares, r.shares));
    r := r.(cash := r.cash + fill.net);
    r := r.(cycleNet := r.cycleNet - fill.net);
    if r.cycleNet > r.cyclePeak { r := r.(cyclePeak := r.cycleNet); }
    r := r.(prevWeight := Ratio(r.shares * price, r.cash + r.shares * price));
  }

  /** The order branch of one bar. */
  method ExecutePlan(b: Book, matcher: MatcherObject, i: nat, open: real, w: real) returns (r: Book)
    requires matcher.Valid() && Solvent(b) && w >= 0.0
    modifies matcher.Repr
    ensures r == Rebalance(b, old(matcher.Value()), i, open, w)
    ensures matcher.Value() == Rebalanced(b, old(matcher.Value()), open, w)
  {
    var plan := Plan(b, open, w);
    r := b;
    match plan {
      case Reduce(asked) =>
        var fill := matcher.TrySell(open, asked);
        if fill.shares > 0.0 { r := RecordSale(b, i, fill, open); }
      case Add(amount) =>
        var fill := matcher.TryBuy(open, amount);
        if fill.shares > 0.0 { r := RecordBuy(b, i, fill, open); }
      case Hold =>
    }
  }

  /** The matcher inside every market-rules wrapper. */
  method Unwrap(matcher: MatcherObject) returns (inside: MatcherObject)
    requires matcher.Valid()
    ensures inside.Valid() && inside.Value() == Unwrapped(matcher.Value())
  {
    inside := matcher;
    while inside.kind.RulesKind?
      invariant inside.Valid() && Unwrapped(inside.Value()) == Unwrapped(matcher.Value())
      decreases inside.Repr
    {
      inside := inside.inner;
    }
  }

  method RecordTerminal(b: Book, matcher: MatcherObject, bars: seq<Bar>) returns (trades: seq<Trade>)
    requires matcher.Valid() && bars != []
    ensures trades == Terminal(b, matcher.Value(), bars)
  {
    trades := [];
    var last := |bars| - 1;
    if b.shares > 0.0 && b.entry.Some? && bars[last].price.Some? && bars[last].price.value > 0.0 {
      var inside := Unwrap(matcher);
      var fill := inside.TrySell(bars[last].price.value, b.shares);
      if fill.shares > 0.0 {
        var basis := CostBasis(b, if b.peakShares > 0.0 then b.peakShares else fill.shares);
        trades := [RoundTrip(b, b.entry.value, last, fill, fill.shares, basis)];
      }
    }
  }

  method TradeBar(b: Book, matcher: MatcherObject, i: nat, previous: Bar, bar: Bar, w: real) returns (r: Book)
    requires matcher.Valid() && Solvent(b) && w >= 0.0 && Tradable(bar)
    modifies matcher.Repr
    ensures var ready := OnBar(old(matcher.Value()), i, previous.rawClose);
      r == Trading(b, ready, i, bar.open.value, w) && matcher.Value() == Traded(b, ready, bar.open.value, w)
  {
    matcher.BarStarts(i, previous.rawClose);
    r := b;
    if Abs(w - b.prevWeight) > WEIGHT_CHANGE_MIN {
      r := ExecutePlan(b, matcher, i, bar.open.value, w);
    }
  }

  /** The curves are written up to bar `i`, the returns still 0 from there on. */
  ghost predicate Written(equity: array<real>, daily: array<real>, i: nat, s: Sim)
    reads equity, daily
  {
    && i <= equity.Length == daily.Length && equity[..i] == s.equity && daily[..i] == s.daily
    && forall j | i <= j < daily.Length :: daily[j] == 0.0
  }

  /** Trades one bar and writes its equity and return. */
  method RunBar(b: Book, matcher: MatcherObject, equity: array<real>, daily: array<real>, i: nat,
                previous: Bar, bar: Bar, w: real, ghost s: Sim) returns (r: Book)
    requires matcher.Valid() && Solvent(b) && w >= 0.0
    requires equity != daily && 1 <= i < equity.Length && Written(equity, daily, i, s)
    requires b == s.book && matcher.Value() == s.matcher
    modifies matcher.Repr, equity, daily
    ensures var t := NextBar(s, i, previous, bar, w);
      r == t.book && matcher.Value() == t.matcher && Written(equity, daily, i + 1, t)
  {
    assert equity[i - 1] == s.equity[i - 1];
    if Tradable(bar) {
      r := TradeBar(b, matcher, i, previous, bar, w);
      equity[i] := Worth(r, bar.price.value);
      if equity[i - 1] > 0.0 { daily[i] := equity[i] / equity[i - 1] - 1.0; }
    } else {
      r := b;
      equity[i] := equity[i - 1];
      daily[i] := 0.0;
    }
    assert equity[..i + 1] == s.equity + [equity[i]];
    assert daily[..i + 1] == s.daily + [daily[i]];
  }

  lemma OneMoreBar(m: Matcher, bars: seq<Bar>, weights: seq<real>, capital: real, i: nat)
    requires 1 <= i < |bars| && capital >= 0.0 && NonNegative(weights)
    ensures Simulated(m, bars, weights, capital, i + 1)
      == NextBar(Simulated(m, bars, weights, capital, i), i, bars[i - 1], bars[i], Weight(weights, i))
  {
  }

  /** The bar loop. */
  method RunBars(matcher: MatcherObject, bars: seq<Bar>, weights: seq<real>, capital: real, equity: array<real>,
                 daily: array<real>)
    returns (book: Book)
    requires matcher.Valid() && bars != [] && capital >= 0.0 && NonNegative(weights)
    requires equity != daily && equity.Length == |bars|
      && Written(equity, daily, 1, Simulated(matcher.Value(), bars, weights, capital, 1))
    modifies matcher.Repr, equity, daily
    ensures var s := Simulated(old(matcher.Value()), bars, weights, capital, |bars|);
      equity[..] == s.equity && daily[..] == s.daily && matcher.Value() == s.matcher && book == s.book
  {
    book := Opening(capital);
    ghost var m, s := matcher.Value(), Simulated(matcher.Value(), bars, weights, capital, 1);
    for i := 1 to |bars|
      invariant s == Simulated(m, bars, weights, capital, i)
      invariant book == s.book && matcher.Value() == s.matcher && Written(equity, daily, i, s)
    {
      OneMoreBar(m, bars, weights, capital, i);
      book := RunBar(book, matcher, equity, daily, i, bars[i - 1], bars[i], Weight(weights, i), s);
      s := Simulated(m, bars, weights, capital, i + 1);
    }
    assert equity[..|bars|] == equity[..] && daily[..|bars|] == daily[..];
  }

  /** The bar loop and the virtual closing trade. */
  method SimulateBars(matcher: MatcherObject, bars: seq<Bar>, weights: seq<real>, capital: real)
    returns (equity: array<real>, trades: seq<Trade>, daily: array<real>)
    requires matcher.Valid() && bars != [] && capital >= 0.0 && NonNegative(weights)
    modifies matcher.Repr
    ensures fresh(equity) && fresh(daily)
    ensures var s := Simulated(old(matcher.Value()), bars, weights, capital, |bars|);
      && equity[..] == s.equity && daily[..] == s.daily && matcher.Value() == s.matcher
    ensures trades == Trades(old(matcher.Value()), bars, weights, capital)
  {
    var n := |bars|;
    equity, daily := new real[n](_ => 0.0), new real[n](_ => 0.0);
    equity[0] := capital;
    var book := RunBars(matcher, bars, weights, capital, equity, daily);
    var closing := RecordTerminal(book, matcher, bars);
    trades := book.trades + closing;
  }
}
