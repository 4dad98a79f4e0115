/** How much a bar of the backtest trades, and the weights a run reaches (ez/backtest/engine.py). */
module WeightLaws {
  import opened Reals
  import opened Matchers
  import opened Backtest

  // ---- any stack of matchers --------------------------------------------------------------

  /** What the position lacks of the weight at this price; negative when it has too much. */
  function Lacking(b: Book, price: real, w: real): real { Weighed(w, Worth(b, price)) - Weighed(b.shares, price) }

  /** No stack buys below the market. */
  lemma {:induction false} BuysAtMarket(m: Matcher, price: real, amount: real)
    ensures var f := FillBuy(m, price, amount).0; f.shares > 0.0 ==> f.price >= price > 0.0
  {
    match m
    case Base(slip, _, _, _) => if price > 0.0 { MulOrder(1.0, 1.0 + slip, price); }
    case Tax(inner, _) => BuysAtMarket(inner, price, amount);
    case Rules(inner, _, _, _, _, _, _) => BuysAtMarket(inner, price, amount);
  }

  /** What a purchase of the bar does to cash and position. */
  lemma BuyMoves(b: Book, m: Matcher, i: nat, open: real, amount: real)
    requires Solvent(b) && amount <= b.cash
    ensures var r, f := Buy(b, m, i, open, amount), FillBuy(m, open, amount).0;
      r.cash == b.cash + f.net && r.shares == b.shares + f.shares
  {
    BuyIsFair(m, open, amount);
  }

  /** What a sale does. */
  lemma SaleMoves(b: Book, m: Matcher, i: nat, open: real, asked: real)
    requires Solvent(b)
    ensures var r, f := Sell(b, m, i, open, asked), FillSell(m, open, asked);
      r.cash == b.cash + f.net && r.shares == if f.shares > 0.0 then Undust(b.shares - f.shares) else b.shares
  {
    SaleIsFair(m, open, asked);
  }

  /** A purchase that spends this much and adds this much stays within what was lacking. */
  predicate BuysWithin(spent: real, added: real, price: real, lacking: real) {
    added >= 0.0 && 0.0 <= spent <= lacking && Weighed(added, price) <= lacking
  }

  /** A sale that brings in cash and takes this much away stays within what was too much. */
  predicate SellsWithin(earned: real, taken: real, price: real, excess: real) {
    taken >= 0.0 && earned >= 0.0 && Weighed(taken, price) <= excess
  }

  /** A bar trades towards the weight and not past it: what it lacks bounds the cash a purchase spends and the position
      it adds, and what it has too much bounds the position a sale takes away, before dust is written off. */
  ghost predicate Towards(b: Book, r: Book, open: real, lacking: real) {
    || r == b
    || (lacking > 0.0 && BuysWithin(b.cash - r.cash, r.shares - b.shares, open, lacking))
    || (lacking < 0.0
        && exists left ::
             r.shares == Undust(left) && SellsWithin(r.cash - b.cash, b.shares - left, open, -lacking))
  }

  lemma FairBuyIsWithin(f: Fill, open: real, amount: real, lacking: real)
    requires FairBuy(f, amount) && (f.shares > 0.0 ==> f.price >= open > 0.0) && 0.0 < amount <= lacking
    ensures BuysWithin(-f.net, f.shares, open, lacking)
  {
    if f.shares > 0.0 {
      SmallerFactor(f.shares, open, f.price);
    } else {
      assert Weighed(0.0, open) == 0.0;
    }
  }

  lemma BuysTowards(b: Book, m: Matcher, i: nat, open: real, amount: real, lacking: real)
    requires Solvent(b) && amount <= b.cash && 0.0 < amount <= lacking
    ensures Towards(b, Buy(b, m, i, open, amount), open, lacking)
  {
    var f, r := FillBuy(m, open, amount).0, Buy(b, m, i, open, amount);
    BuyMoves(b, m, i, open, amount);
    BuyIsFair(m, open, amount);
    BuysAtMarket(m, open, amount);
    FairBuyIsWithin(f, open, amount, lacking);
    assert b.cash - r.cash == -f.net && r.shares - b.shares == f.shares;
  }

  lemma SellsTowards(b: Book, m: Matcher, i: nat, open: real, asked: real, lacking: real)
    requires Solvent(b) && Weighed(asked, open) == -lacking && lacking < 0.0
    ensures Towards(b, Sell(b, m, i, open, asked), open, lacking)
  {
    var f, r := FillSell(m, open, asked), Sell(b, m, i, open, asked);
    SaleMoves(b, m, i, open, asked);
    SaleIsFair(m, open, asked);
    if f.shares > 0.0 {
      FairSaleIsWithin(f, open, asked, -lacking);
      SoldWithin(b, r, f, open, -lacking);
    }
  }

  lemma FairSaleIsWithin(f: Fill, open: real, asked: real, excess: real)
    requires FairSale(f, open, asked) && f.shares > 0.0 && Weighed(asked, open) == excess
    ensures Weighed(f.shares, open) <= excess && f.net >= 0.0
  {
    MulOrder(f.shares, asked, open);
  }

  lemma SoldWithin(b: Book, r: Book, f: Fill, open: real, excess: real)
    requires excess > 0.0 && f.shares > 0.0 && f.net >= 0.0 && Weighed(f.shares, open) <= excess
    requires r.cash == b.cash + f.net && r.shares == Undust(b.shares - f.shares)
    ensures Towards(b, r, open, -excess)
  {
    var left := b.shares - f.shares;
    assert b.shares - left == f.shares;
  }

  /** What a bar orders, in terms of what the position lacks. */
  lemma OrderMeaning(b: Book, open: real, w: real) returns (asked: real)
    requires Solvent(b) && w >= 0.0
    ensures var lacking := Lacking(b, open, w);
      match Plan(b, open, w)
      case Add(amount) => lacking > 0.0 && amount == Min(lacking, b.cash) > 0.0
      case Reduce(shares) => lacking < 0.0 && b.shares > 0.0 && asked == shares && Weighed(asked, open) == -lacking
      case Hold => (lacking >= 0.0 || b.shares == 0.0) && (lacking <= 0.0 || b.cash == 0.0)
  {
    var whole, position := Weighed(w, Worth(b, open)), Weighed(b.shares, open);
    asked := PlanIs(b, open, w, whole, position);
  }

  /** The plan in terms of what the weight makes of the worth and of what the position is worth. */
  lemma PlanIs(b: Book, open: real, w: real, whole: real, position: real) returns (asked: real)
    requires Solvent(b) && w >= 0.0 && whole == Weighed(w, Worth(b, open)) && position == Weighed(b.shares, open)
    ensures match Plan(b, open, w)
      case Add(amount) => whole > position && amount == Min(whole - position, b.cash) > 0.0
      case Reduce(shares) =>
        whole < position && b.shares > 0.0 && asked == shares && Weighed(asked, open) == position - whole
      case Hold => (whole >= position || b.shares == 0.0) && (whole <= position || b.cash == 0.0)
  {
    OrderIs(b.cash, b.shares, open, w, whole, position);
    asked := if w == 0.0 then b.shares else Quotient(position - whole, open);
    if whole < position && b.shares > 0.0 {
      NoReductionAtZero(b.cash, b.shares, open, w);
      ReductionMeaning(b, open, w, asked, whole, position);
    }
  }

  function Quotient(x: real, d: real): real { if d == 0.0 then 0.0 else x / d }

  lemma OrderIs(cash: real, shares: real, open: real, w: real, whole: real, position: real)
    requires cash >= 0.0 && w >= 0.0 && position == shares * open && whole == (cash + position) * w
    ensures OrderFor(cash, shares, open, w)
      == if whole < position && shares > 0.0 then
           Reduce(if w == 0.0 then shares else Quotient(position - whole, open))
         else if whole > position && Min(whole - position, cash) > 0.0 then Add(Min(whole - position, cash))
         else Hold
  {
    NoReductionAtZero(cash, shares, open, w);
  }

  lemma ReductionMeaning(b: Book, open: real, w: real, asked: real, whole: real, position: real)
    requires whole == Weighed(w, Worth(b, open)) && position == Weighed(b.shares, open) && open != 0.0
    requires asked == if w == 0.0 then b.shares else Quotient(position - whole, open)
    ensures Weighed(asked, open) == position - whole
  {
    if w == 0.0 {
      assert whole == 0.0;
    } else {
      DividedBack(position - whole, open);
    }
  }

  lemma DividedBack(x: real, d: real)
    requires d != 0.0
    ensures Weighed(x / d, d) == x
  {
  }

  /** Whatever the stack of matchers, a bar stays where it is or trades towards the weight and not past it. */
  lemma TradingIsTowards(b: Book, m: Matcher, i: nat, open: real, w: real)
    requires Solvent(b) && w >= 0.0
    ensures Towards(b, Trading(b, m, i, open, w), open, Lacking(b, open, w))
  {
    var asked := OrderMeaning(b, open, w);
    if Triggers(b, w) {
      match Plan(b, open, w)
      case Add(amount) => BuysTowards(b, m, i, open, amount, Lacking(b, open, w));
      case Reduce(shares) => SellsTowards(b, m, i, open, asked, Lacking(b, open, w));
      case Hold =>
    }
  }

  /** After a trade the loop remembers the weight that was reached, not the one that was asked for. */
  predicate Remembers(r: Book, open: real) {
    if Worth(r, open) > 0.0 then Weighed(r.prevWeight, Worth(r, open)) == Weighed(r.shares, open)
    else r.prevWeight == 0.0
  }

  lemma TradingIsRemembered(b: Book, m: Matcher, i: nat, open: real, w: real)
    requires Solvent(b) && w >= 0.0
    ensures var r := Trading(b, m, i, open, w); r == b || Remembers(r, open)
  {
    if Triggers(b, w) {
      match Plan(b, open, w)
      case Add(amount) =>
        var f := FillBuy(m, open, amount).0;
        BuyIsFair(m, open, amount);
        if f.shares > 0.0 { ReweighRemembers(BookBuy(b, i, f), open); }
      case Reduce(shares) =>
        var f := FillSell(m, open, shares);
        if f.shares > 0.0 { ReweighRemembers(BookSale(b, i, f), open); }
      case Hold =>
    }
  }

  lemma ReweighRemembers(b: Book, open: real)
    ensures Remembers(Reweigh(b, open), open)
  {
    var worth, position := Worth(b, open), Weighed(b.shares, open);
    if worth > 0.0 { assert position / worth * worth == position; }
  }

  // ---- a base matcher trades what is lacking ---------------------------------------------

  /** The commission of a purchase and of a sale of this value. */
  function BuyFee(m: Matcher, amount: real): real
    requires m.Base?
  {
    Max(Weighed(amount, m.rate), m.minComm)
  }

  function SaleFee(m: Matcher, value: real): real
    requires m.Base?
  {
    Min(Max(Weighed(value, m.sellRate), m.minComm), value)
  }

  function SalePrice(m: Matcher, open: real): real
    requires m.Base?
  {
    Max(Weighed(open, 1.0 - m.slip), 0.0)
  }

  lemma BaseBuy(m: Matcher, open: real, amount: real)
    requires m.Base? && open > 0.0 && amount > 0.0
    ensures var f, fee := FillBuy(m, open, amount).0, BuyFee(m, amount);
      if fee >= amount then f.shares == 0.0
      else f.shares > 0.0 && f.net == -amount && Weighed(f.shares, Weighed(open, 1.0 + m.slip)) == amount - fee
  {
    var price := open * (1.0 + m.slip);
    MulOrder(1.0, 1.0 + m.slip, open);
    BuyIsFair(m, open, amount);
    var fee := BuyFee(m, amount);
    if fee < amount { Divided(amount - fee, price); }
  }

  lemma Divided(whole: real, price: real)
    requires price > 0.0 && whole > 0.0
    ensures whole / price * price == whole && whole / price > 0.0
  {
    var q := whole / price;
    if q <= 0.0 { MulOrder(q, 0.0, price); }
  }

  lemma BaseBuys(b: Book, m: Matcher, i: nat, open: real, amount: real) returns (bought: real)
    requires Solvent(b) && open > 0.0 && m.Base? && 0.0 < amount <= b.cash
    ensures Bought(b, m, open, Buy(b, m, i, open, amount), amount, bought)
  {
    BuyMoves(b, m, i, open, amount);
    BaseBuy(m, open, amount);
    bought := FillBuy(m, open, amount).0.shares;
  }

  lemma BaseSale(m: Matcher, open: real, asked: real, value: real)
    requires m.Base? && open > 0.0 && asked > 0.0 && value == Weighed(asked, SalePrice(m, open))
    ensures var f := FillSell(m, open, asked); f.shares == asked && f.net == value - SaleFee(m, value)
  {
  }

  lemma BaseSells(b: Book, m: Matcher, i: nat, open: real, asked: real)
    requires Solvent(b) && open > 0.0 && m.Base? && asked > 0.0
    ensures Sold(b, m, open, Sell(b, m, i, open, asked), asked)
  {
    SaleMoves(b, m, i, open, asked);
    BaseSale(m, open, asked, Weighed(asked, SalePrice(m, open)));
  }

  /** This much was spent, the fee included, for these shares; nothing when the fee eats it up. */
  ghost predicate Bought(b: Book, m: Matcher, open: real, r: Book, amount: real, bought: real)
    requires m.Base?
  {
    if BuyFee(m, amount) >= amount then r == b
    else
      && r.cash == b.cash - amount && r.shares == b.shares + bought
      && Weighed(bought, Weighed(open, 1.0 + m.slip)) == amount - BuyFee(m, amount)
  }

  /** These shares were sold, and what they brought in after the fee. */
  ghost predicate Sold(b: Book, m: Matcher, open: real, r: Book, sold: real)
    requires m.Base?
  {
    var value := Weighed(sold, SalePrice(m, open));
    r.shares == Undust(b.shares - sold) && r.cash == b.cash + value - SaleFee(m, value)
  }

  /** A triggered bar of a base matcher spends exactly what is lacking, or all the cash, unless the fee eats it up; and
      sells exactly what is too much. */
  lemma BaseTradesTheGap(b: Book, m: Matcher, i: nat, open: real, w: real) returns (traded: real)
    requires Solvent(b) && w >= 0.0 && open > 0.0 && m.Base? && Triggers(b, w)
    ensures var r, lacking := Trading(b, m, i, open, w), Lacking(b, open, w);
      if lacking > 0.0 && b.cash > 0.0 then Bought(b, m, open, r, Min(lacking, b.cash), traded)
      else if lacking < 0.0 && b.shares > 0.0 then Weighed(traded, open) == -lacking && Sold(b, m, open, r, traded)
      else r == b
  {
    traded := OrderMeaning(b, open, w);
    match Plan(b, open, w)
    case Add(amount) => traded := BaseBuys(b, m, i, open, amount);
    case Reduce(shares) =>
      if traded <= 0.0 { MulOrder(traded, 0.0, open); }
      BaseSells(b, m, i, open, shares);
    case Hold =>
  }

  // ---- without costs every weight is reached ---------------------------------------------

  const COSTLESS := Base(0.0, 0.0, 0.0, 0.0)

  /** The value that a weight makes of this worth; weights above 1 are not borrowed for. */
  function Goal(worth: real, w: real): real { Weighed(Min(w, 1.0), worth) }

  /** The position has this value, or is left out as dust, and the rest of the worth is cash. */
  predicate Reached(r: Book, price: real, worth: real, goal: real) {
    && r.cash == worth - goal
    && (Weighed(r.shares, price) == goal || (r.shares == 0.0 && goal < Weighed(ZERO_THRESHOLD, price)))
  }

  lemma SharesOfWorth(cash: real, position: real, worth: real, w: real, whole: real)
    requires cash >= 0.0 && position >= 0.0 && worth == cash + position && w >= 0.0 && whole == Weighed(w, worth)
    ensures w <= 1.0 ==> Goal(worth, w) == whole <= worth
    ensures w >= 1.0 ==> Goal(worth, w) == worth <= whole
  {
    if w <= 1.0 { MulOrder(w, 1.0, worth); } else { MulOrder(1.0, w, worth); }
  }

  /** A triggered bar without costs ends at the weight it was asked for. */
  lemma CostlessReaches(b: Book, i: nat, open: real, w: real)
    requires Solvent(b) && w >= 0.0 && open > 0.0 && Triggers(b, w)
    ensures var worth := Worth(b, open); Reached(Trading(b, COSTLESS, i, open, w), open, worth, Goal(worth, w))
  {
    var worth, goal := Worth(b, open), Goal(Worth(b, open), w);
    var position, whole := WorthParts(b, open, w, worth);
    var traded := BaseTradesTheGap(b, COSTLESS, i, open, w);
    CaseByCase(b, open, Trading(b, COSTLESS, i, open, w), worth, position, whole, goal, Lacking(b, open, w), traded);
  }

  lemma WorthParts(b: Book, open: real, w: real, worth: real) returns (position: real, whole: real)
    requires Solvent(b) && w >= 0.0 && open > 0.0 && worth == Worth(b, open)
    ensures position == Weighed(b.shares, open) >= 0.0 && worth == b.cash + position && whole >= 0.0
    ensures Lacking(b, open, w) == whole - position
    ensures (Goal(worth, w) == whole <= worth) || (Goal(worth, w) == worth <= whole)
  {
    position, whole := Weighed(b.shares, open), Weighed(w, worth);
    PositiveFactors(b.shares, open);
    PositiveFactors(w, worth);
    SharesOfWorth(b.cash, position, worth, w, whole);
  }

  lemma CaseByCase(b: Book, open: real, r: Book, worth: real, position: real, whole: real, goal: real, lacking: real,
                   traded: real)
    requires Solvent(b) && open > 0.0 && position == Weighed(b.shares, open) >= 0.0 && worth == b.cash + position
    requires (goal == whole <= worth) || (goal == worth <= whole)
    requires lacking == whole - position && whole >= 0.0
    requires if lacking > 0.0 && b.cash > 0.0 then Bought(b, COSTLESS, open, r, Min(lacking, b.cash), traded)
      else if lacking < 0.0 && b.shares > 0.0 then
        Weighed(traded, open) == -lacking && Sold(b, COSTLESS, open, r, traded)
      else r == b
    ensures Reached(r, open, worth, goal)
  {
    if lacking > 0.0 && b.cash > 0.0 {
      CostlessBuy(b, open, r, Min(lacking, b.cash), traded);
    } else if lacking < 0.0 && b.shares > 0.0 {
      CostlessSale(b, open, r, -lacking, traded);
    }
  }

  lemma CostlessBuy(b: Book, open: real, r: Book, amount: real, bought: real)
    requires open > 0.0 && amount > 0.0 && Bought(b, COSTLESS, open, r, amount, bought)
    ensures r.cash == b.cash - amount && Weighed(r.shares, open) == Weighed(b.shares, open) + amount
  {
    assert BuyFee(COSTLESS, amount) == 0.0 && Weighed(open, 1.0 + 0.0) == open;
    Distribute(open, b.shares, bought);
  }

  lemma CostlessSale(b: Book, open: real, r: Book, excess: real, sold: real)
    requires open > 0.0 && excess > 0.0 && Weighed(sold, open) == excess && Sold(b, COSTLESS, open, r, sold)
    ensures Reached(r, open, b.cash + Weighed(b.shares, open), Weighed(b.shares, open) - excess)
  {
    var left := b.shares - sold;
    assert SalePrice(COSTLESS, open) == open && SaleFee(COSTLESS, excess) == 0.0;
    Distribute(open, left, sold);
    assert Weighed(left, open) == Weighed(b.shares, open) - excess;
    if left < ZERO_THRESHOLD {
      StrictlySameSigns(ZERO_THRESHOLD - left, open, Weighed(ZERO_THRESHOLD - left, open));
      Distribute(open, ZERO_THRESHOLD - left, left);
    }
  }

  // ---- whole runs ------------------------------------------------------------------------

  lemma {:induction false} BaseStays(m: Matcher, bars: seq<Bar>, weights: seq<real>, capital: real, n: nat)
    requires m.Base? && 1 <= n <= |bars| && capital >= 0.0 && NonNegative(weights)
    ensures Simulated(m, bars, weights, capital, n).matcher == m
  {
    if n > 1 { BaseStays(m, bars, weights, capital, n - 1); }
  }

  /** Any bar of any run, whatever the stack of matchers, stays where it is or trades towards its weight and not past
      it; and it stays where it is unless the weight has moved by more than 0.001 from the one last reached. */
  lemma RunsTradeTowards(m: Matcher, bars: seq<Bar>, weights: seq<real>, capital: real, n: nat)
    requires 1 <= n < |bars| && capital >= 0.0 && NonNegative(weights)
    ensures var w, b := Weight(weights, n), Simulated(m, bars, weights, capital, n).book;
      var r := Simulated(m, bars, weights, capital, n + 1).book;
      && (!Tradable(bars[n]) || -0.001 <= w - b.prevWeight <= 0.001 ==> r == b)
      && (Tradable(bars[n]) ==> Towards(b, r, bars[n].open.value, Lacking(b, bars[n].open.value, w)))
      && (r != b ==> Remembers(r, bars[n].open.value))
  {
    var s, w := Simulated(m, bars, weights, capital, n), Weight(weights, n);
    if Tradable(bars[n]) {
      TradingIsTowards(s.book, OnBar(s.matcher, n, bars[n - 1].rawClose), n, bars[n].open.value, w);
      TradingIsRemembered(s.book, OnBar(s.matcher, n, bars[n - 1].rawClose), n, bars[n].open.value, w);
    }
  }

  /** In a run without costs every bar whose weight has moved by more than 0.001 ends at its weight, whatever happened
      before, and the equity is what that split earns until the bar's price. */
  lemma RunsReachWeights(bars: seq<Bar>, weights: seq<real>, capital: real, n: nat)
    requires 1 <= n < |bars| && capital >= 0.0 && NonNegative(weights)
    requires Tradable(bars[n]) && bars[n].open.value > 0.0
    ensures var w, b := Weight(weights, n), Simulated(COSTLESS, bars, weights, capital, n).book;
      var t, open := Simulated(COSTLESS, bars, weights, capital, n + 1), bars[n].open.value;
      && (Abs(w - b.prevWeight) > 0.001 ==> Reached(t.book, open, Worth(b, open), Goal(Worth(b, open), w)))
      && t.equity[n] == Worth(t.book, bars[n].price.value)
  {
    var s, w := Simulated(COSTLESS, bars, weights, capital, n), Weight(weights, n);
    BaseStays(COSTLESS, bars, weights, capital, n);
    NextOfBase(COSTLESS, bars, weights, capital, n);
    if Triggers(s.book, w) { CostlessReaches(s.book, n, bars[n].open.value, w); }
  }

  lemma NextOfBase(m: Matcher, bars: seq<Bar>, weights: seq<real>, capital: real, n: nat)
    requires m.Base? && 1 <= n < |bars| && capital >= 0.0 && NonNegative(weights) && Tradable(bars[n])
    ensures var s, t := Simulated(m, bars, weights, capital, n), Simulated(m, bars, weights, capital, n + 1);
      && t.book == Trading(s.book, m, n, bars[n].open.value, Weight(weights, n))
      && t.equity[n] == Worth(t.book, bars[n].price.value)
  {
    BaseStays(m, bars, weights, capital, n);
  }
}
