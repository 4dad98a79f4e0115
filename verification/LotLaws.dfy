/** What lot sizes do to the position of a backtest (ez/core/market_rules.py): when whole lots stay whole. */
module LotLaws {
  import opened Reals
  import opened Matchers
  import opened Options
  import opened Backtest
  import opened BacktestLaws
  import opened LotArithmetic

  function LotShares(k: int, lot: nat): real { k as real * lot as real }

  ghost predicate InLots(x: real, lot: nat) { exists k: int :: x == LotShares(k, lot) }

  /** The lot sizes of a stack, outermost first. */
  function LotsOf(m: Matcher): seq<Lot> {
    match m
    case Base(_, _, _, _) => []
    case Tax(inner, _) => LotsOf(inner)
    case Rules(inner, _, _, own, _, _, _) => if own > 0 then [own] + LotsOf(inner) else LotsOf(inner)
  }

  // ---- what a stack sells --------------------------------------------------------------

  /** Whole shares in real and in integer arithmetic. */
  lemma LotsOfWhole(n: nat, lot: Lot)
    ensures Lots(n as real, lot) == n / lot && WholeLots(n as real, lot) == Floored(n, lot) as real
  {
    var q, r := n / lot, n % lot;
    assert n == q * lot + r;
    var x := n as real / lot as real;
    assert x * lot as real == n as real;
    FloorAt(x, q, lot as real, r as real);
  }

  lemma FloorAt(x: real, q: int, lot: real, r: real)
    requires lot > 0.0 && 0.0 <= r < lot && x * lot == q as real * lot + r
    ensures x.Floor == q
  {
    if x < q as real { StrictlySameSigns(q as real - x, lot, q as real * lot - x * lot); }
    if x >= q as real + 1.0 { MulOrder(q as real + 1.0, x, lot); }
  }

  lemma InLotsOfWhole(n: nat, lot: Lot)
    ensures InLots(n as real, lot) <==> n % lot == 0
  {
    if n % lot == 0 {
      assert n == n / lot * lot;
      assert n as real == LotShares(n / lot, lot);
    }
    if InLots(n as real, lot) {
      var k: int :| n as real == LotShares(k, lot);
      WholeMultiple(n, k, lot);
    }
  }

  lemma WholeMultiple(n: nat, k: int, lot: nat)
    requires lot > 0 && n as real == LotShares(k, lot)
    ensures n % lot == 0
  {
    var product := k * lot;
    assert product as real == LotShares(k, lot);
    assert n == product;
    QuotientIs(n, lot, k);
  }

  /** Of a whole number of shares a stack sells nothing, or what rounding to its lots leaves. */
  lemma {:induction false} SellsFloored(m: Matcher, price: real, n: nat)
    ensures var sold := FillSell(m, price, n as real).shares; sold == 0.0 || sold == FlooredBy(n, LotsOf(m)) as real
  {
    match m
    case Base(_, _, _, _) =>
    case Tax(inner, _) => SellsFloored(inner, price, n);
    case Rules(inner, _, _, own, _, _, _) =>
      if own == 0 {
        SellsFloored(inner, price, n);
      } else {
        LotsOfWhole(n, own);
        FlooredFirst(n, own, LotsOf(inner));
        SellsFloored(inner, price, Floored(n, own));
      }
  }

  /** No wrapper of the stack refuses to sell what it bought on the same bar. */
  predicate Sellable(m: Matcher) {
    match m
    case Base(_, _, _, _) => true
    case Tax(inner, _) => Sellable(inner)
    case Rules(inner, tPlus1, _, _, bar, _, buyBar) => !(tPlus1 && buyBar == bar) && Sellable(inner)
  }

  /** A price at which no wrapper of the stack is at its lower limit. */
  ghost predicate Free(m: Matcher, price: real) {
    price > 0.0 &&
    match m
    case Base(_, _, _, _) => true
    case Tax(inner, _) => Free(inner, price)
    case Rules(inner, _, _, _, _, _, _) => !AtLowerLimit(m.limit, m.prevClose, price) && Free(inner, price)
  }

  lemma {:induction false} FreeAbove(m: Matcher, price: real, higher: real)
    requires Free(m, price) && price <= higher
    ensures Free(m, higher)
  {
    match m
    case Base(_, _, _, _) =>
    case Tax(inner, _) => FreeAbove(inner, price, higher);
    case Rules(inner, _, _, _, _, _, _) => FreeAbove(inner, price, higher);
  }

  lemma {:induction false} FreePrice(m: Matcher) returns (price: real)
    ensures Free(m, price)
  {
    match m
    case Base(_, _, _, _) => price := 1.0;
    case Tax(inner, _) => price := FreePrice(inner);
    case Rules(inner, _, _, _, _, _, _) =>
      var below := FreePrice(inner);
      price := Max(below, m.prevClose * (1.0 - m.limit) + 1.0);
      FreeAbove(inner, below, price);
  }

  /** When nothing stops the sale it is what rounding leaves. */
  lemma {:induction false} FreeSale(m: Matcher, price: real, n: nat)
    requires Sellable(m) && Free(m, price)
    ensures FillSell(m, price, n as real).shares == FlooredBy(n, LotsOf(m)) as real
  {
    match m
    case Base(_, _, _, _) => SellKernelIsFair(price, n as real, m.sellRate, m.minComm, m.slip);
    case Tax(inner, _) => FreeSale(inner, price, n);
    case Rules(inner, _, _, own, _, _, _) =>
      if own == 0 {
        FreeSale(inner, price, n);
        if n == 0 { NothingFloored(LotsOf(inner)); }
      } else {
        FlooredFirst(n, own, LotsOf(inner));
        FreeSale(inner, price, Floored(n, own));
        PassesOn(m, price, n, own);
      }
  }

  /** Unhindered market rules pass on what rounding to their own lot leaves. */
  lemma PassesOn(m: Matcher, price: real, n: nat, own: Lot)
    requires m.Rules? && m.lot == own && Sellable(m) && Free(m, price)
    ensures FillSell(m, price, n as real).shares
      == if Floored(n, own) == 0 then 0.0 else FillSell(m.inner, price, Floored(n, own) as real).shares
    ensures Floored(n, own) == 0 ==> FlooredBy(Floored(n, own), LotsOf(m.inner)) == 0
  {
    LotsOfWhole(n, own);
    NothingFloored(LotsOf(m.inner));
    if n / own > 0 { MulOrder(1.0, (n / own) as real, own as real); }
  }

  /** Every sale of whole lots, at whatever price, comes out in whole lots. */
  ghost predicate SalesKeepLots(m: Matcher, lot: nat) {
    forall price: real, k: int :: InLots(FillSell(m, price, LotShares(k, lot)).shares, lot)
  }

  lemma SellsWholeLots(m: Matcher, price: real, k: int, lot: Lot)
    requires KeepsLots(lot, LotsOf(m))
    ensures InLots(FillSell(m, price, LotShares(k, lot)).shares, lot)
  {
    assert 0.0 == LotShares(0, lot);
    if k < 0 {
      MulOrder(k as real, 0.0, lot as real);
      SaleIsFair(m, price, LotShares(k, lot));
    } else {
      var n: nat := k * lot;
      assert LotShares(k, lot) == n as real;
      assert Kept(k, lot, LotsOf(m));
      SellsFloored(m, price, n);
      InLotsOfWhole(FlooredBy(n, LotsOf(m)), lot);
    }
  }

  /** A stack of any depth keeps the outer lots in every sale exactly when rounding to its lot sizes does. */
  lemma SalesKeepLotsExactly(m: Matcher, lot: Lot)
    requires Sellable(m)
    ensures SalesKeepLots(m, lot) <==> KeepsLots(lot, LotsOf(m))
  {
    if KeepsLots(lot, LotsOf(m)) {
      forall price: real, k: int
        ensures InLots(FillSell(m, price, LotShares(k, lot)).shares, lot)
      {
        SellsWholeLots(m, price, k, lot);
      }
    } else {
      var k: nat :| !Kept(k, lot, LotsOf(m));
      var price := FreePrice(m);
      BrokenSale(m, price, lot, k);
    }
  }

  lemma BrokenSale(m: Matcher, price: real, lot: Lot, k: nat)
    requires Sellable(m) && Free(m, price) && !Kept(k, lot, LotsOf(m))
    ensures !InLots(FillSell(m, price, LotShares(k, lot)).shares, lot)
  {
    var n := k * lot;
    assert LotShares(k, lot) == n as real;
    FreeSale(m, price, n);
    InLotsOfWhole(FlooredBy(n, LotsOf(m)), lot);
  }

  // ---- the position of a run -----------------------------------------------------------

  lemma LotSharesAdd(j: int, k: int, lot: nat)
    ensures LotShares(j, lot) + LotShares(k, lot) == LotShares(j + k, lot)
    ensures LotShares(j, lot) - LotShares(k, lot) == LotShares(j - k, lot)
  {
  }

  /** Whole lots are either none or at least a share. */
  lemma LotsAreNotDust(k: int, lot: nat)
    requires lot > 0 && LotShares(k, lot) >= 0.0
    ensures k >= 0 && Undust(LotShares(k, lot)) == LotShares(k, lot)
    ensures LotShares(k, lot) < ZERO_THRESHOLD ==> LotShares(k, lot) == 0.0
  {
    if k > 0 { MulOrder(1.0, k as real, lot as real); }
    if k < 0 { MulOrder(k as real, -1.0, lot as real); }
  }

  lemma {:induction false} BuyKeepsLotSizes(m: Matcher, price: real, amount: real)
    ensures var m' := FillBuy(m, price, amount).1;
      LotsOf(m') == LotsOf(m) && (m.Rules? ==> m'.Rules? && m'.lot == m.lot && LotsOf(m'.inner) == LotsOf(m.inner))
  {
    match m
    case Base(_, _, _, _) =>
    case Tax(inner, _) => BuyKeepsLotSizes(inner, price, amount);
    case Rules(inner, _, _, _, _, _, _) => BuyKeepsLotSizes(inner, price, amount);
  }

  /** Market rules with a lot size on the outside, and a stack below whose rounding keeps it. */
  ghost predicate TradesLots(m: Matcher, lot: nat) { m.Rules? && m.lot == lot > 0 && KeepsLots(lot, LotsOf(m.inner)) }

  lemma BuysWholeLots(m: Matcher, price: real, amount: real, lot: nat)
    requires TradesLots(m, lot)
    ensures InLots(FillBuy(m, price, amount).0.shares, lot) && TradesLots(FillBuy(m, price, amount).1, lot)
  {
    BuyKeepsLotSizes(m, price, amount);
    assert 0.0 == LotShares(0, lot);
    if !(amount <= 0.0 || price <= 0.0 || AtUpperLimit(m.limit, m.prevClose, price)) {
      var fill := FillBuy(m.inner, price, amount).0;
      BuyIsFair(m.inner, price, amount);
      if fill.shares > 0.0 && Lots(fill.shares, lot) != 0 {
        RoundingIsFair(fill, lot, Bottom(m), amount);
        assert WholeLots(fill.shares, lot) == LotShares(Lots(fill.shares, lot), lot);
      }
    }
  }

  lemma SaleIsWholeLots(m: Matcher, price: real, asked: real, lot: nat)
    requires TradesLots(m, lot)
    ensures InLots(FillSell(m, price, asked).shares, lot)
  {
    assert 0.0 == LotShares(0, lot);
    SellsWholeLots(m.inner, price, Lots(asked, lot), lot);
    assert WholeLots(asked, lot) == LotShares(Lots(asked, lot), lot);
  }

  lemma LotsLeft(shares: real, sold: real, lot: nat)
    requires lot > 0 && InLots(shares, lot) && InLots(sold, lot) && sold <= shares
    ensures InLots(Undust(shares - sold), lot)
    ensures Undust(shares - sold) < ZERO_THRESHOLD ==> shares - sold == 0.0
  {
    var j: int :| sold == LotShares(j, lot);
    var k: int :| shares == LotShares(k, lot);
    LotSharesAdd(k, j, lot);
    LotsAreNotDust(k - j, lot);
  }

  lemma SellKeepsLots(b: Book, m: Matcher, i: nat, open: real, asked: real, lot: nat)
    requires Solvent(b) && TradesLots(m, lot) && InLots(b.shares, lot) && asked <= b.shares
    ensures InLots(Sell(b, m, i, open, asked).shares, lot)
    ensures FillSell(m, open, asked).shares > 0.0 ==> WrittenOff(b, FillSell(m, open, asked)) == 0.0
  {
    var fill := FillSell(m, open, asked);
    SaleIsFair(m, open, asked);
    SaleIsWholeLots(m, open, asked, lot);
    if fill.shares > 0.0 {
      LotsLeft(b.shares, fill.shares, lot);
      SaleLeaves(b, i, fill, open);
      NothingWrittenOff(b, fill);
    }
  }

  lemma NothingWrittenOff(b: Book, fill: Fill)
    requires Undust(b.shares - fill.shares) < ZERO_THRESHOLD ==> b.shares - fill.shares == 0.0
    ensures WrittenOff(b, fill) == 0.0
  {
  }

  lemma SaleLeaves(b: Book, i: nat, fill: Fill, open: real)
    ensures Reweigh(BookSale(b, i, fill), open).shares == Undust(b.shares - fill.shares)
  {
  }

  lemma AddKeepsLots(b: Book, m: Matcher, i: nat, open: real, amount: real, lot: nat)
    requires Solvent(b) && TradesLots(m, lot) && InLots(b.shares, lot) && amount <= b.cash
    ensures InLots(Buy(b, m, i, open, amount).shares, lot) && TradesLots(FillBuy(m, open, amount).1, lot)
  {
    var fill := FillBuy(m, open, amount).0;
    BuysWholeLots(m, open, amount, lot);
    var j: int :| fill.shares == LotShares(j, lot);
    var k: int :| b.shares == LotShares(k, lot);
    LotSharesAdd(k, j, lot);
  }

  /** At a price that is not positive no matcher fills anything. */
  lemma {:induction false} NothingFillsAtZero(m: Matcher, price: real, x: real)
    requires price <= 0.0
    ensures FillSell(m, price, x).shares == 0.0 && FillBuy(m, price, x).0.shares == 0.0
  {
    match m
    case Base(_, _, _, _) =>
    case Tax(inner, _) => NothingFillsAtZero(inner, price, x);
    case Rules(_, _, _, _, _, _, _) =>
  }

  lemma BarKeepsLots(b: Book, m: Matcher, i: nat, open: real, w: real, lot: nat)
    requires Solvent(b) && w >= 0.0 && TradesLots(m, lot) && InLots(b.shares, lot)
    ensures InLots(Trading(b, m, i, open, w).shares, lot) && TradesLots(Traded(b, m, open, w), lot)
    ensures BarDust(b, m, open, w) == 0.0
  {
    match Plan(b, open, w)
    case Reduce(asked) =>
      if open > 0.0 {
        PlanIsCovered(b, open, w);
        SellKeepsLots(b, m, i, open, asked, lot);
      } else {
        NothingFillsAtZero(m, open, asked);
      }
    case Add(amount) => AddKeepsLots(b, m, i, open, amount, lot);
    case Hold =>
  }

  /** Under market rules the position is always whole lots, and nothing is ever written off. */
  lemma {:induction false} PositionInWholeLots(m: Matcher, bars: seq<Bar>, weights: seq<real>, capital: real, n: nat,
                                               lot: nat)
    requires 1 <= n <= |bars| && capital >= 0.0 && NonNegative(weights) && TradesLots(m, lot)
    ensures var s := Simulated(m, bars, weights, capital, n); InLots(s.book.shares, lot) && TradesLots(s.matcher, lot)
    ensures Dust(m, bars, weights, capital, n) == 0.0
  {
    if n == 1 {
      assert 0.0 == LotShares(0, lot);
    } else {
      PositionInWholeLots(m, bars, weights, capital, n - 1, lot);
      if Tradable(bars[n - 1]) {
        var s := Simulated(m, bars, weights, capital, n - 1);
        BarKeepsLots(s.book, OnBar(s.matcher, n - 1, bars[n - 2].rawClose), n - 1,
                     bars[n - 1].open.value, Weight(weights, n - 1), lot);
      }
    }
  }

  // ---- runs that break lots ------------------------------------------------------------

  /** Market rules with nothing but these lots, around a base matcher without costs. */
  predicate Plain(m: Matcher, lots: seq<Lot>)
    decreases |lots|
  {
    if lots == [] then m == Base(0.0, 0.0, 0.0, 0.0)
    else m.Rules? && m.lot == lots[0] && !m.tPlus1 && m.limit == 0.0 && Plain(m.inner, lots[1..])
  }

  function Nested(lots: seq<Lot>): (m: Matcher)
    ensures Plain(m, lots)
  {
    if lots == [] then Base(0.0, 0.0, 0.0, 0.0) else Rules(Nested(lots[1..]), false, 0.0, lots[0], 0, 0.0, -1)
  }

  lemma {:induction false} PlainFacts(m: Matcher, lots: seq<Lot>)
    requires Plain(m, lots)
    ensures LotsOf(m) == lots && Sellable(m) && Free(m, 1.0)
    decreases |lots|
  {
    if lots != [] { PlainFacts(m.inner, lots[1..]); }
  }

  /** `k` shares at price 1, free of charge. */
  function FreeFill(k: nat): Fill { Fill(k as real, 1.0, 0.0, -(k as real)) }

  /** A purchase of a multiple of every lot is filled in full. */
  lemma {:induction false} PlainBuys(m: Matcher, lots: seq<Lot>, cash: nat)
    requires Plain(m, lots) && cash > 0 && MultipleOfAll(cash, lots)
    ensures FillBuy(m, 1.0, cash as real).0 == FreeFill(cash) && Plain(FillBuy(m, 1.0, cash as real).1, lots)
    decreases |lots|
  {
    if lots != [] {
      PlainBuys(m.inner, lots[1..], cash);
      WholeBuy(m, lots[0], cash);
    }
  }

  /** Market rules leave a purchase of whole lots as it is. */
  lemma WholeBuy(m: Matcher, own: Lot, cash: nat)
    requires m.Rules? && m.lot == own && m.limit == 0.0 && cash > 0 && cash % own == 0
    requires FillBuy(m.inner, 1.0, cash as real).0 == FreeFill(cash)
    ensures var (fill, after) := FillBuy(m, 1.0, cash as real);
      fill == FreeFill(cash) && after == m.(inner := FillBuy(m.inner, 1.0, cash as real).1, buyBar := m.bar)
  {
    MultiplesAdd(0, cash, own);
    LotsOfWhole(cash, own);
    assert cash / own != 0;
  }

  const FLAT_BAR := Bar(Some(1.0), Some(1.0), 1.0)

  /** Everything in at price 1, and then down to weight `w`. */
  function TwoTrades(lots: seq<Lot>, capital: nat, w: real, n: nat): Sim
    requires 1 <= n <= 3 && w >= 0.0
  {
    Simulated(Nested(lots), [FLAT_BAR, FLAT_BAR, FLAT_BAR], [0.0, 1.0, w], capital as real, n)
  }

  lemma AfterTheBuy(lots: seq<Lot>, capital: nat, w: real, n: nat)
    requires n == 2 && w >= 0.0 && capital > 0 && MultipleOfAll(capital, lots)
    ensures var s := TwoTrades(lots, capital, w, n);
      Plain(s.matcher, lots) && s.book.cash == 0.0 && s.book.shares == capital as real && s.book.prevWeight == 1.0
  {
    var m, b, fill := OnBar(Nested(lots), 1, 1.0), Opening(capital as real), FreeFill(capital);
    assert TwoTrades(lots, capital, w, n - 1) == Sim(b, Nested(lots), [capital as real], [0.0]);
    PlainBuys(m, lots, capital);
    assert Plan(b, 1.0, 1.0) == Add(capital as real);
    assert Trading(b, m, 1, 1.0, 1.0) == Reweigh(BookBuy(b, 1, fill), 1.0);
    assert Traded(b, m, 1.0, 1.0) == FillBuy(m, 1.0, capital as real).1;
    WholeWeight(capital as real);
    assert TwoTrades(lots, capital, w, n) == NextBar(Sim(b, Nested(lots), [capital as real], [0.0]), 1, FLAT_BAR,
                                                     FLAT_BAR, 1.0);
  }

  lemma WholeWeight(x: real)
    requires x > 0.0
    ensures Ratio(x * 1.0, 0.0 + x * 1.0) == 1.0
  {
  }

  lemma LastBar(lots: seq<Lot>, capital: nat, w: real, n: nat)
    requires w >= 0.0 && n == 2
    ensures var s := TwoTrades(lots, capital, w, n);
      TwoTrades(lots, capital, w, n + 1).book == Trading(s.book, OnBar(s.matcher, 2, 1.0), 2, 1.0, w)
  {
    assert TwoTrades(lots, capital, w, n + 1) == NextBar(TwoTrades(lots, capital, w, n), 2, FLAT_BAR, FLAT_BAR, w);
  }

  /** Going down from everything by `asked` shares, half of them at least. */
  lemma SaleFrom(b: Book, m: Matcher, lots: seq<Lot>, held: nat, w: real, asked: nat, sold: nat)
    requires Plain(m, lots) && Solvent(b) && b.cash == 0.0 && b.shares == held as real && b.prevWeight == 1.0
    requires 0 < asked < held <= 2 * asked && sold == FlooredBy(asked, lots) && 0 < sold <= asked
    requires w >= 0.0 && w * held as real == (held - asked) as real
    ensures Trading(b, OnBar(m, 2, 1.0), 2, 1.0, w).shares == (held - sold) as real
  {
    var ready := OnBar(m, 2, 1.0);
    PlainSale(ready, lots, asked);
    PlanToSell(b, w, held, asked);
    SoldAtOne(b, ready, w, asked, held, sold);
  }

  lemma PlainSale(m: Matcher, lots: seq<Lot>, asked: nat)
    requires Plain(m, lots)
    ensures FillSell(m, 1.0, asked as real).shares == FlooredBy(asked, lots) as real
  {
    PlainFacts(m, lots);
    FreeSale(m, 1.0, asked);
  }

  lemma PlanToSell(b: Book, w: real, held: nat, asked: nat)
    requires b.cash == 0.0 && b.shares == held as real && 0 < asked < held <= 2 * asked
    requires w >= 0.0 && w * held as real == (held - asked) as real
    ensures w <= 0.5 && Plan(b, 1.0, w) == Reduce(asked as real)
  {
    HalfAtMost(w, held as real, (held - asked) as real);
    PlanAtOne(b.shares, w, (held - asked) as real);
  }

  lemma SoldAtOne(b: Book, m: Matcher, w: real, asked: nat, held: nat, sold: nat)
    requires Solvent(b) && 0.0 <= w <= 0.5 && b.shares == held as real && b.prevWeight == 1.0
    requires Plan(b, 1.0, w) == Reduce(asked as real) && FillSell(m, 1.0, asked as real).shares == sold as real
      && 0 < sold < held
    ensures Trading(b, m, 2, 1.0, w).shares == (held - sold) as real
  {
    SaleLeaves(b, 2, FillSell(m, 1.0, asked as real), 1.0);
  }

  lemma HalfAtMost(w: real, whole: real, part: real)
    requires whole > 0.0 && w * whole == part && 2.0 * part <= whole
    ensures w <= 0.5
  {
    if w > 0.5 { StrictlySameSigns(w - 0.5, whole, (w - 0.5) * whole); }
  }

  lemma PlanAtOne(shares: real, w: real, target: real)
    requires w >= 0.0 && shares > 0.0 && w * shares == target < shares
    ensures OrderFor(0.0, shares, 1.0, w) == Reduce(shares - target)
  {
    PlanAt(shares, 1.0, w, shares, target);
    assert (shares - target) / 1.0 == shares - target;
    if w == 0.0 { assert target == 0.0; }
  }

  lemma PlanAt(shares: real, open: real, w: real, current: real, target: real)
    requires w >= 0.0 && shares > 0.0 && current == shares * open && w * current == target < current
    ensures OrderFor(0.0, shares, open, w) == Reduce(if w == 0.0 then shares else (current - target) / open)
  {
    assert 0.0 + current == current;
  }

  /** However it is traded, the position of any stack with these lot sizes, any costs, limits and taxes, stays in whole
      outer lots. */
  ghost predicate RunsKeepLots(lot: nat, lots: seq<Lot>) {
    forall m: Matcher, bars: seq<Bar>, weights: seq<real>, capital: real, n: nat |
      1 <= n <= |bars| && capital >= 0.0 && NonNegative(weights) && m.Rules? && m.lot == lot
        && LotsOf(m.inner) == lots ::
      InLots(Simulated(m, bars, weights, capital, n).book.shares, lot)
  }

  lemma BrokenRun(lot: Lot, lots: seq<Lot>, capital: nat, w: real, n: nat)
    requires w >= 0.0 && n == 3 && !InLots(TwoTrades([lot] + lots, capital, w, n).book.shares, lot)
    ensures !RunsKeepLots(lot, lots)
  {
    var m := Nested([lot] + lots);
    assert ([lot] + lots)[1..] == lots;
    PlainFacts(m.inner, lots);
    assert NonNegative([0.0, 1.0, w]);
    assert !InLots(Simulated(m, [FLAT_BAR, FLAT_BAR, FLAT_BAR], [0.0, 1.0, w], capital as real, n).book.shares, lot);
  }

  /** If `k` lots are not kept, selling them and a whole cycle more, of two cycles held, leaves a broken lot. */
  lemma BreaksALot(lot: Lot, lots: seq<Lot>, k: nat, n: nat)
    requires k < Product(lots) && !Kept(k, lot, lots) && n == 2
    ensures !RunsKeepLots(lot, lots)
  {
    var all, cycle := [lot] + lots, Product(lots) * lot;
    var held, asked := 2 * cycle, (k + Product(lots)) * lot;
    var sold := FlooredBy(asked, all);
    HeldFacts(lot, lots, k, cycle, asked);
    BrokenAgain(k, lot, lots);
    SoldFacts(lot, lots, k + Product(lots), asked, sold);
    var w := WeightLeft(held, asked);
    var left := BrokenPosition(all, held, w, asked, sold, n);
    DifferenceIsNoMultiple(held, sold, lot);
    InLotsOfWhole(left, lot);
    BrokenRun(lot, lots, held, w, n + 1);
  }

  lemma WeightLeft(held: nat, asked: nat) returns (w: real)
    requires asked <= held && held > 0
    ensures w >= 0.0 && w * held as real == (held - asked) as real
  {
    w := (held - asked) as real / held as real;
  }

  lemma BrokenPosition(lots: seq<Lot>, held: nat, w: real, asked: nat, sold: nat, n: nat) returns (left: nat)
    requires n == 2 && MultipleOfAll(held, lots) && 0 < asked < held <= 2 * asked && sold == FlooredBy(asked, lots)
      && 0 < sold <= asked
    requires w >= 0.0 && w * held as real == (held - asked) as real
    ensures left == held - sold && TwoTrades(lots, held, w, n + 1).book.shares == left as real
  {
    left := held - sold;
    var s := TwoTrades(lots, held, w, n);
    AfterTheBuy(lots, held, w, n);
    LastBar(lots, held, w, n);
    SaleFrom(s.book, s.matcher, lots, held, w, asked, sold);
  }

  lemma DifferenceIsNoMultiple(held: nat, sold: nat, lot: Lot)
    requires sold <= held && held % lot == 0 && sold % lot != 0
    ensures (held - sold) % lot != 0
  {
    if (held - sold) % lot == 0 { MultiplesAdd(sold, held - sold, lot); }
  }

  lemma HeldFacts(lot: Lot, lots: seq<Lot>, k: nat, cycle: nat, asked: nat)
    requires k < Product(lots) && cycle == Product(lots) * lot && asked == (k + Product(lots)) * lot
    ensures 0 < asked < 2 * cycle <= 2 * asked && MultipleOfAll(2 * cycle, [lot] + lots) && (2 * cycle) % lot == 0
  {
    var p := Product(lots);
    assert asked == k * lot + cycle;
    Stretch(k, p, lot);
    CycleFacts(2, lot, lots, p * 2, 2 * cycle);
    MultipleOfMore(2 * cycle, lot, lots);
  }

  lemma MultipleOfMore(t: nat, lot: Lot, lots: seq<Lot>)
    requires t % lot == 0 && MultipleOfAll(t, lots)
    ensures MultipleOfAll(t, [lot] + lots)
  {
    var all := [lot] + lots;
    forall i | 0 <= i < |all| ensures t % all[i] == 0 {
      if i > 0 { assert all[i] == lots[i - 1]; }
    }
  }

  lemma SoldFacts(lot: Lot, lots: seq<Lot>, k: nat, asked: nat, sold: nat)
    requires !Kept(k, lot, lots) && asked == k * lot && sold == FlooredBy(asked, [lot] + lots)
    ensures 0 < sold <= asked && sold % lot != 0
  {
    FlooredIs(asked, lot, k);
    FlooredFirst(asked, lot, lots);
    FlooredByBelow(asked, lots);
  }

  /** Nested lot sizes, however many, keep every run in whole outer lots exactly when rounding to them keeps whole
      lots. */
  lemma RunsKeepLotsExactly(lot: Lot, lots: seq<Lot>)
    ensures RunsKeepLots(lot, lots) <==> KeepsLots(lot, lots)
  {
    if KeepsLots(lot, lots) {
      forall m: Matcher, bars: seq<Bar>, weights: seq<real>, capital: real, n: nat |
        1 <= n <= |bars| && capital >= 0.0 && NonNegative(weights) && m.Rules? && m.lot == lot
          && LotsOf(m.inner) == lots
        ensures InLots(Simulated(m, bars, weights, capital, n).book.shares, lot)
      {
        PositionInWholeLots(m, bars, weights, capital, n, lot);
      }
    } else {
      FiniteCheck(lot, lots);
      var k: nat :| k < Product(lots) && !Kept(k, lot, lots);
      BreaksALot(lot, lots, k, 2);
    }
  }
}
