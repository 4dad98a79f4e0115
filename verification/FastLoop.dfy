/** The hand-inlined fast loop `jit_simulate_loop` and why it may stand in for the general one
    (ez/core/_jit_fill.py, `_simulate_jit` and `_simulate` in ez/backtest/engine.py). */
module FastLoop {
  import opened Reals
  import opened Matchers
  import opened Options
  import opened Backtest

  const MAX_TRADES := 100000

  datatype FastTrade = FastTrade(
    entryBar: int, exitBar: int, entryPrice: real, exitPrice: real, pnl: real, commission: real, weight: real)

  /** The fast loop's variables; `entryBar` is -1 when no position is open. */
  datatype Fast = Fast(
    cash: real, shares: real, prevWeight: real, entryBar: int, entryPrice: real, entryComm: real,
        trades: seq<FastTrade>)

  datatype Rates = Rates(slip: NonNeg, rate: NonNeg, sellRate: NonNeg, minComm: NonNeg)

  function MatcherOf(c: Rates): Matcher { Base(c.slip, c.rate, c.sellRate, c.minComm) }

  function FastReweigh(f: Fast, open: real): Fast {
    f.(prevWeight := Ratio(f.shares * open, f.cash + f.shares * open))
  }

  /** The inlined sale arithmetic: price, commission and proceeds. */
  function InlinedSell(c: Rates, open: real, asked: real): (real, real, real) {
    var price := Max(open * (1.0 - c.slip), 0.0);
    var value := asked * price;
    var comm := Min(Max(value * c.sellRate, c.minComm), value);
    (price, comm, value - comm)
  }

  function FastBookSale(f: Fast, i: nat, open: real, price: real, comm: real, net: real, asked: real): Fast {
    var shares := Undust(f.shares - asked);
    var sold := f.(cash := f.cash + net, shares := shares);
    FastReweigh(
      if f.shares > 0.0 && shares < ZERO_THRESHOLD && f.entryBar >= 0 then
        var trade := FastTrade(f.entryBar, i, f.entryPrice, price,
                               Gain(price, f.entryPrice, f.shares, comm) - f.entryComm, f.entryComm + comm,
                                   f.prevWeight);
        sold.(trades := if |f.trades| < MAX_TRADES then f.trades + [trade] else f.trades, entryBar := -1,
              entryComm := 0.0)
      else sold,
      open)
  }

  /** The inlined sale of `asked` shares. */
  function FastSell(f: Fast, c: Rates, i: nat, open: real, asked: real): Fast {
    var (price, comm, net) := InlinedSell(c, open, asked);
    if asked > 0.0 then FastBookSale(f, i, open, price, comm, net, asked) else f
  }

  function FastBookBuy(f: Fast, i: nat, open: real, price: real, comm: real, bought: real, add: real): Fast
    requires bought > 0.0 && f.shares >= 0.0
  {
    FastReweigh(
      (if f.shares == 0.0 then f.(entryBar := i, entryPrice := price, entryComm := comm)
       else f.(entryPrice := (f.entryPrice * f.shares + price * bought) / (f.shares + bought),
               entryComm := f.entryComm + comm))
      .(shares := f.shares + bought, cash := f.cash - add),
      open)
  }

  /** The inlined buy arithmetic: shares, price and commission; no shares when the commission eats the cash. */
  function InlinedBuy(c: Rates, open: real, add: real): (real, real, real)
    requires open > 0.0 && add > 0.0
  {
    var price := open * (1.0 + c.slip);
    var comm := Max(add * c.rate, c.minComm);
    MulOrder(1.0, 1.0 + c.slip, open);
    (if comm < add then (add - comm) / price else 0.0, price, comm)
  }

  /** The inlined purchase for `add` cash. */
  function FastBuy(f: Fast, c: Rates, i: nat, open: real, add: real): Fast
    requires open > 0.0 && add > 0.0 && f.shares >= 0.0
  {
    var (bought, price, comm) := InlinedBuy(c, open, add);
    if bought > 0.0 then FastBookBuy(f, i, open, price, comm, bought, add) else f
  }

  ghost predicate FastSolvent(f: Fast) { f.cash >= 0.0 && f.shares >= 0.0 }

  function FastTrading(f: Fast, c: Rates, i: nat, open: real, w: real): (r: Fast)
    requires FastSolvent(f) && w >= 0.0 && open > 0.0
    ensures FastSolvent(r)
  {
    if Abs(w - f.prevWeight) <= WEIGHT_CHANGE_MIN then f
    else match OrderFor(f.cash, f.shares, open, w)
      case Reduce(asked) => FastSell(f, c, i, open, asked)
      case Add(add) => FastBuy(f, c, i, open, add)
      case Hold => f
  }

  datatype FastSim = FastSim(book: Fast, equity: seq<real>, daily: seq<real>)

  function FastWorth(f: Fast, price: real): real { f.cash + f.shares * price }

  function FastNextBar(s: FastSim, c: Rates, i: nat, bar: Bar, w: real): (r: FastSim)
    requires FastSolvent(s.book) && w >= 0.0 && s.equity != [] && (Tradable(bar) ==> bar.open.value > 0.0)
    ensures FastSolvent(r.book) && |r.equity| == |s.equity| + 1 && |r.daily| == |s.daily| + 1
  {
    var before := s.equity[|s.equity| - 1];
    if Tradable(bar) then
      var book := FastTrading(s.book, c, i, bar.open.value, w);
      var now := FastWorth(book, bar.price.value);
      FastSim(book, s.equity + [now], s.daily + [Return(now, before)])
    else FastSim(s.book, s.equity + [before], s.daily + [0.0])
  }

  ghost predicate PositiveOpens(bars: seq<Bar>) {
    forall i | 0 <= i < |bars| :: Tradable(bars[i]) ==> bars[i].open.value > 0.0
  }

  function FastOpening(capital: real): Fast { Fast(capital, 0.0, 0.0, -1, 0.0, 0.0, []) }

  function FastSimulated(c: Rates, bars: seq<Bar>, weights: seq<real>, capital: real, n: nat): (s: FastSim)
    requires 1 <= n <= |bars| && |weights| == |bars| && capital >= 0.0 && NonNegative(weights) && PositiveOpens(bars)
    ensures FastSolvent(s.book) && |s.equity| == |s.daily| == n
  {
    if n == 1 then FastSim(FastOpening(capital), [capital], [0.0])
    else FastNextBar(FastSimulated(c, bars, weights, capital, n - 1), c, n - 1, bars[n - 1], weights[n - 1])
  }

  /** The closing trade as `_simulate_jit` rebuilds it from the loop's final state. */
  function FastTerminal(c: Rates, f: Fast, bars: seq<Bar>, weights: seq<real>): seq<FastTrade>
    requires bars != []
  {
    var last := |bars| - 1;
    if f.shares > ZERO_THRESHOLD && f.entryBar >= 0 && bars[last].price.Some? && bars[last].price.value > 0.0 then
      var fill := FillSell(MatcherOf(c), bars[last].price.value, f.shares);
      if fill.shares > 0.0 then
        [FastTrade(f.entryBar, last, f.entryPrice, fill.price,
                   Gain(fill.price, f.entryPrice, fill.shares, fill.commission) - f.entryComm,
                       f.entryComm + fill.commission,
                   if f.entryBar < |weights| then weights[f.entryBar] else 0.0)]
      else []
    else []
  }

  // ---- refinement ----------------------------------------------------------------------

  /** The fast state and the general book hold the same money and the same position. */
  ghost predicate Refines(f: Fast, b: Book) {
    && f.cash == b.cash && f.shares == b.shares && f.prevWeight == b.prevWeight
    && f.entryPrice == b.entryPrice && f.entryComm == b.entryComm
    && f.entryBar == if b.entry.Some? then b.entry.value else -1
  }

  /** The inlined arithmetic is the sell kernel's. */
  lemma InlinedSellIsKernel(c: Rates, open: real, asked: real)
    requires open > 0.0 && asked > 0.0
    ensures var (price, comm, net) := InlinedSell(c, open, asked);
      FillSellKernel(open, asked, c.sellRate, c.minComm, c.slip) == Fill(asked, price, comm, net) && net >= 0.0
  {
  }

  lemma BookSaleRefines(f: Fast, b: Book, i: nat, open: real, fill: Fill)
    requires Refines(f, b)
    ensures Refines(FastBookSale(f, i, open, fill.price, fill.commission, fill.net, fill.shares),
                    Reweigh(BookSale(b, i, fill), open))
  {
  }

  lemma SellRefines(f: Fast, b: Book, c: Rates, i: nat, open: real, asked: real)
    requires Refines(f, b) && Solvent(b) && open > 0.0
    ensures Refines(FastSell(f, c, i, open, asked), Sell(b, MatcherOf(c), i, open, asked))
  {
    if asked > 0.0 {
      InlinedSellIsKernel(c, open, asked);
      BookSaleRefines(f, b, i, open, FillSell(MatcherOf(c), open, asked));
    }
  }

  lemma BookBuyRefines(f: Fast, b: Book, i: nat, open: real, fill: Fill)
    requires Refines(f, b) && b.shares >= 0.0 && fill.shares > 0.0
    ensures Refines(FastBookBuy(f, i, open, fill.price, fill.commission, fill.shares, -fill.net),
                    Reweigh(BookBuy(b, i, fill), open))
  {
  }

  /** The inlined arithmetic is the buy kernel's. */
  lemma InlinedBuyIsKernel(c: Rates, open: real, add: real)
    requires open > 0.0 && add > 0.0
    ensures var fill := FillBuyKernel(open, add, c.rate, c.minComm, c.slip);
      var (bought, price, comm) := InlinedBuy(c, open, add);
      bought == fill.shares && (bought > 0.0 ==> price == fill.price && comm == fill.commission && fill.net == -add)
  {
  }

  lemma BuyRefines(f: Fast, b: Book, c: Rates, i: nat, open: real, add: real)
    requires Refines(f, b) && Solvent(b) && open > 0.0 && 0.0 < add <= b.cash
    ensures Refines(FastBuy(f, c, i, open, add), Buy(b, MatcherOf(c), i, open, add))
  {
    var fill := FillBuy(MatcherOf(c), open, add).0;
    InlinedBuyIsKernel(c, open, add);
    if fill.shares > 0.0 { BookBuyRefines(f, b, i, open, fill); }
  }

  lemma TradingRefines(f: Fast, b: Book, c: Rates, i: nat, open: real, w: real)
    requires Refines(f, b) && Solvent(b) && open > 0.0 && w >= 0.0
    ensures Refines(FastTrading(f, c, i, open, w), Trading(b, MatcherOf(c), i, open, w))
  {
    match Plan(b, open, w)
    case Reduce(asked) => SellRefines(f, b, c, i, open, asked);
    case Add(add) => BuyRefines(f, b, c, i, open, add);
    case Hold =>
  }

  ghost predicate RefinesSim(fast: FastSim, slow: Sim, c: Rates) {
    && Refines(fast.book, slow.book) && slow.matcher == MatcherOf(c)
    && fast.equity == slow.equity && fast.daily == slow.daily
  }

  lemma BaseStays(b: Book, c: Rates, open: real, w: real)
    requires Solvent(b) && w >= 0.0
    ensures Traded(b, MatcherOf(c), open, w) == MatcherOf(c)
  {
  }

  lemma NextBarRefines(fast: FastSim, slow: Sim, c: Rates, i: nat, previous: Bar, bar: Bar, w: real)
    requires RefinesSim(fast, slow, c) && Solvent(slow.book) && w >= 0.0 && slow.equity != []
    requires Tradable(bar) ==> bar.open.value > 0.0
    ensures RefinesSim(FastNextBar(fast, c, i, bar, w), NextBar(slow, i, previous, bar, w), c)
  {
    if Tradable(bar) {
      TradingRefines(fast.book, slow.book, c, i, bar.open.value, w);
      BaseStays(slow.book, c, bar.open.value, w);
      SameWorth(FastTrading(fast.book, c, i, bar.open.value, w), Trading(slow.book, MatcherOf(c), i, bar.open.value, w),
                bar.price.value);
    }
  }

  lemma SameWorth(f: Fast, b: Book, price: real)
    requires Refines(f, b)
    ensures FastWorth(f, price) == Worth(b, price)
  {
  }

  /** For every weight sequence both loops report the same equity and returns, and end alike. */
  lemma {:induction false} FastLoopRefines(c: Rates, bars: seq<Bar>, weights: seq<real>, capital: real, n: nat)
    requires 1 <= n <= |bars| && |weights| == |bars| && capital >= 0.0 && NonNegative(weights) && PositiveOpens(bars)
    ensures RefinesSim(FastSimulated(c, bars, weights, capital, n), Simulated(MatcherOf(c), bars, weights, capital, n),
                       c)
  {
    if n > 1 {
      FastLoopRefines(c, bars, weights, capital, n - 1);
      NextBarRefines(FastSimulated(c, bars, weights, capital, n - 1),
                     Simulated(MatcherOf(c), bars, weights, capital, n - 1),
                     c, n - 1, bars[n - 2], bars[n - 1], weights[n - 1]);
    }
  }

  // ---- all-or-nothing signals ----------------------------------------------------------

  predicate Binary(weights: seq<real>) {
    forall i | 0 <= i < |weights| :: weights[i] == 0.0 || weights[i] == 1.0
  }

  /** Nothing was ever sold in part: the book is flat, or everything is in the position. */
  ghost predicate AllInOrFlat(b: Book) {
    && b.partialPnl == 0.0 && b.partialComm == 0.0
    && (b.entry.None? ==> b.shares == 0.0 && b.prevWeight == 0.0)
    && (b.entry.Some? ==> b.shares > 0.0 && b.cash == 0.0 && b.prevWeight == 1.0)
  }

  function Recorded(t: Trade): FastTrade {
    FastTrade(t.entryBar, t.exitBar, t.entryPrice, t.exitPrice, t.pnl, t.commission, t.weight)
  }

  function AllRecorded(trades: seq<Trade>): seq<FastTrade> {
    seq(|trades|, i requires 0 <= i < |trades| => Recorded(trades[i]))
  }

  /** The fast loop stops recording once its arrays are full. */
  function Kept(trades: seq<Trade>): (r: seq<FastTrade>)
    ensures |r| == if |trades| <= MAX_TRADES then |trades| else MAX_TRADES
  {
    AllRecorded(if |trades| <= MAX_TRADES then trades else trades[..MAX_TRADES])
  }

  lemma KeptAppend(trades: seq<Trade>, t: Trade)
    ensures Kept(trades + [t]) == if |trades| < MAX_TRADES then Kept(trades) + [Recorded(t)] else Kept(trades)
  {
  }

  /** A full sale: the inlined record is the round trip. */
  lemma ExitRecorded(f: Fast, b: Book, i: nat, open: real, fill: Fill)
    requires Refines(f, b) && AllInOrFlat(b) && f.trades == Kept(b.trades) && b.entry.Some? && fill.shares == b.shares
    ensures var f' := FastBookSale(f, i, open, fill.price, fill.commission, fill.net, fill.shares);
      var b' := BookSale(b, i, fill);
      && f'.trades == Kept(b'.trades) && b'.entry == None && b'.shares == 0.0
      && b'.partialPnl == 0.0 && b'.partialComm == 0.0
  {
    KeptAppend(b.trades, RoundTrip(b, b.entry.value, i, fill, b.shares, CostBasis(b, b.shares)));
  }

  lemma EmptyBookHasNoWeight(b: Book, open: real)
    requires b.shares == 0.0
    ensures Reweigh(b, open).prevWeight == 0.0
  {
  }

  lemma FullBookHasWeightOne(b: Book, open: real)
    requires b.cash == 0.0 && b.shares > 0.0 && open > 0.0
    ensures Reweigh(b, open).prevWeight == 1.0
  {
    var value := b.shares * open;
    assert value > 0.0 && b.cash + value == value && value / value == 1.0;
  }

  lemma ExitAllAgrees(f: Fast, b: Book, c: Rates, i: nat, open: real)
    requires Refines(f, b) && Solvent(b) && AllInOrFlat(b) && f.trades == Kept(b.trades) && b.entry.Some? && open > 0.0
    ensures var f', b' := FastSell(f, c, i, open, f.shares), Sell(b, MatcherOf(c), i, open, b.shares);
      AllInOrFlat(b') && b'.entry == None && f'.trades == Kept(b'.trades)
  {
    var fill := FillSell(MatcherOf(c), open, b.shares);
    InlinedSellIsKernel(c, open, b.shares);
    ExitRecorded(f, b, i, open, fill);
    EmptyBookHasNoWeight(BookSale(b, i, fill), open);
  }

  lemma EnterAllAgrees(f: Fast, b: Book, c: Rates, i: nat, open: real)
    requires Refines(f, b) && Solvent(b) && AllInOrFlat(b) && f.trades == Kept(b.trades) && b.entry.None? && open > 0.0
      && b.cash > 0.0
    ensures var f', b' := FastBuy(f, c, i, open, f.cash), Buy(b, MatcherOf(c), i, open, b.cash);
      AllInOrFlat(b') && f'.trades == Kept(b'.trades) && (b'.entry == None || b'.entry == Some(i))
  {
    var fill := FillBuy(MatcherOf(c), open, b.cash).0;
    InlinedBuyIsKernel(c, open, b.cash);
    BuyKernelIsFair(open, b.cash, c.rate, c.minComm, c.slip);
    if fill.shares > 0.0 { FullBookHasWeightOne(BookBuy(b, i, fill), open); }
  }

  /** One bar of an all-or-nothing signal. */
  lemma BinaryBar(f: Fast, b: Book, c: Rates, i: nat, open: real, w: real)
    requires Refines(f, b) && Solvent(b) && AllInOrFlat(b) && f.trades == Kept(b.trades)
    requires open > 0.0 && (w == 0.0 || w == 1.0)
    ensures var f', b' := FastTrading(f, c, i, open, w), Trading(b, MatcherOf(c), i, open, w);
      && AllInOrFlat(b') && f'.trades == Kept(b'.trades)
      && (b'.entry.Some? ==> b'.entry == b.entry || (b'.entry.value == i && w == 1.0))
  {
    if b.entry.Some? {
      if w == 0.0 {
        MulOrder(0.0, b.shares, open);
        assert OrderFor(b.cash, b.shares, open, w) == Reduce(b.shares);
        ExitAllAgrees(f, b, c, i, open);
      }
    } else if w == 1.0 {
      assert b.shares * open == 0.0;
      if b.cash > 0.0 {
        assert OrderFor(b.cash, b.shares, open, w) == Add(b.cash);
        EnterAllAgrees(f, b, c, i, open);
      } else {
        assert OrderFor(b.cash, b.shares, open, w) == Hold;
      }
    }
  }

  /** All-or-nothing signals keep the book all-in or flat, and both loops record the same trades. */
  lemma {:induction false} BinaryRunsAgree(c: Rates, bars: seq<Bar>, weights: seq<real>, capital: real, n: nat)
    requires 1 <= n <= |bars| && |weights| == |bars| && capital >= 0.0 && NonNegative(weights) && PositiveOpens(bars)
    requires Binary(weights)
    ensures var fast := FastSimulated(c, bars, weights, capital, n);
      var slow := Simulated(MatcherOf(c), bars, weights, capital, n);
      && AllInOrFlat(slow.book) && fast.book.trades == Kept(slow.book.trades)
      && (slow.book.entry.Some? ==> slow.book.entry.value < n && weights[slow.book.entry.value] == 1.0)
  {
    if n > 1 {
      BinaryRunsAgree(c, bars, weights, capital, n - 1);
      FastLoopRefines(c, bars, weights, capital, n - 1);
      if Tradable(bars[n - 1]) {
        BinaryBar(FastSimulated(c, bars, weights, capital, n - 1).book,
                  Simulated(MatcherOf(c), bars, weights, capital, n - 1).book,
                  c, n - 1, bars[n - 1].open.value, weights[n - 1]);
      }
    } else {
      assert FastOpening(capital).trades == Kept([]);
    }
  }

  // ---- the accelerated simulation ------------------------------------------------------

  function FastTrades(c: Rates, bars: seq<Bar>, weights: seq<real>, capital: real): seq<FastTrade>
    requires bars != [] && |weights| == |bars| && capital >= 0.0 && NonNegative(weights) && PositiveOpens(bars)
  {
    var f := FastSimulated(c, bars, weights, capital, |bars|).book;
    f.trades + FastTerminal(c, f, bars, weights)
  }

  lemma TerminalsAgree(c: Rates, f: Fast, b: Book, bars: seq<Bar>, weights: seq<real>)
    requires bars != [] && Refines(f, b) && AllInOrFlat(b)
    requires b.entry.Some? ==> b.entry.value < |weights| && weights[b.entry.value] == 1.0
    ensures var slow := Terminal(b, MatcherOf(c), bars);
      FastTerminal(c, f, bars, weights) == if b.shares > ZERO_THRESHOLD then AllRecorded(slow) else []
  {
    var slow := Terminal(b, MatcherOf(c), bars);
    assert Unwrapped(MatcherOf(c)) == MatcherOf(c);
    assert slow != [] ==> AllRecorded(slow) == [Recorded(slow[0])];
    assert slow == [] ==> AllRecorded(slow) == [];
  }

  /** The run leaves a position open that only the general path closes: one of at most 1e-10 shares with a last
      price. */
  predicate LeavesDust(b: Book, bars: seq<Bar>)
    requires bars != []
  {
    var last := bars[|bars| - 1];
    0.0 < b.shares <= ZERO_THRESHOLD && last.price.Some? && last.price.value > 0.0
  }

  /** The general path closes whatever is open. */
  lemma OpenIsClosed(b: Book, c: Rates, bars: seq<Bar>)
    requires bars != [] && AllInOrFlat(b) && Solvent(b)
    ensures Terminal(b, MatcherOf(c), bars) == [] <==>
      b.shares == 0.0 || bars[|bars| - 1].price.None? || bars[|bars| - 1].price.value <= 0.0
  {
    assert Unwrapped(MatcherOf(c)) == MatcherOf(c);
    if bars[|bars| - 1].price.Some? {
      SellKernelIsFair(bars[|bars| - 1].price.value, b.shares, c.sellRate, c.minComm, c.slip);
    }
  }

  /** The accelerated trade list is the general one exactly when the record arrays did not overflow and no dust position
      was left open at a price. */
  lemma AcceleratedTradesAgree(c: Rates, bars: seq<Bar>, weights: seq<real>, capital: real)
    requires bars != [] && |weights| == |bars| && capital >= 0.0 && NonNegative(weights) && PositiveOpens(bars)
    requires Binary(weights)
    ensures var b := Simulated(MatcherOf(c), bars, weights, capital, |bars|).book;
      FastTrades(c, bars, weights, capital) == AllRecorded(Trades(MatcherOf(c), bars, weights, capital))
      <==> |b.trades| <= MAX_TRADES && !LeavesDust(b, bars)
  {
    var f := FastSimulated(c, bars, weights, capital, |bars|).book;
    var s := Simulated(MatcherOf(c), bars, weights, capital, |bars|);
    FastLoopRefines(c, bars, weights, capital, |bars|);
    BinaryRunsAgree(c, bars, weights, capital, |bars|);
    TerminalsAgree(c, f, s.book, bars, weights);
    OpenIsClosed(s.book, c, bars);
    JoinedLists(s.book.trades, Terminal(s.book, MatcherOf(c), bars), FastTerminal(c, f, bars, weights),
                s.book.shares > ZERO_THRESHOLD);
  }

  lemma JoinedLists(trades: seq<Trade>, closing: seq<Trade>, fastClosing: seq<FastTrade>, large: bool)
    requires |closing| <= 1 && fastClosing == if large then AllRecorded(closing) else []
    ensures Kept(trades) + fastClosing == AllRecorded(trades + closing)
      <==> |trades| <= MAX_TRADES && (large || closing == [])
  {
    if |trades| <= MAX_TRADES && (large || closing == []) {
      assert AllRecorded(trades + closing) == AllRecorded(trades) + AllRecorded(closing);
      assert AllRecorded([]) == [];
    } else {
      assert |Kept(trades) + fastClosing| < |AllRecorded(trades + closing)|;
    }
  }
}
