/** Exactly what a stack of matchers fills, from its settings, the price and the order alone (ez/core/matcher.py,
    ez/core/market_rules.py, ez/core/_jit_fill.py). */
module FillLaws {
  import opened Reals
  import opened Matchers

  // ---- what blocks an order --------------------------------------------------------------

  /** The price is up by the limit, or down by it, to within a millionth. */
  predicate UpBy(limit: real, prevClose: real, price: real) {
    limit > 0.0 && prevClose > 0.0 && price - prevClose >= Weighed(prevClose, limit) - 0.000001
  }

  predicate DownBy(limit: real, prevClose: real, price: real) {
    limit > 0.0 && prevClose > 0.0 && prevClose - price >= Weighed(prevClose, limit) - 0.000001
  }

  /** Some rules of the stack are at their upper limit at this price. */
  predicate LimitUp(m: Matcher, price: real) {
    match m
    case Base(_, _, _, _) => false
    case Tax(inner, _) => LimitUp(inner, price)
    case Rules(inner, _, limit, _, _, prevClose, _) => UpBy(limit, prevClose, price) || LimitUp(inner, price)
  }

  predicate LimitDown(m: Matcher, price: real) {
    match m
    case Base(_, _, _, _) => false
    case Tax(inner, _) => LimitDown(inner, price)
    case Rules(inner, _, limit, _, _, prevClose, _) => DownBy(limit, prevClose, price) || LimitDown(inner, price)
  }

  /** Some rules of the stack bought on this bar and sell on the next at the earliest. */
  predicate BoughtToday(m: Matcher) {
    match m
    case Base(_, _, _, _) => false
    case Tax(inner, _) => BoughtToday(inner)
    case Rules(inner, tPlus1, _, _, bar, _, buyBar) => (tPlus1 && buyBar == bar) || BoughtToday(inner)
  }

  function OfLots(k: int, lot: nat): real { k as real * lot as real }

  /** The most shares in whole lots that these shares hold; all of them without lots. */
  ghost predicate IsRounded(x: real, lot: nat, kept: real) {
    if lot == 0 then kept == x
    else
      && kept <= x
      && (exists k: int :: kept == OfLots(k, lot))
      && (forall k: int :: OfLots(k, lot) <= x ==> OfLots(k, lot) <= kept)
  }

  function Rounded(x: real, lot: nat): real { if lot == 0 then x else WholeLots(x, lot) }

  lemma RoundedIsGreatest(x: real, lot: nat)
    ensures IsRounded(x, lot, Rounded(x, lot))
  {
    if lot > 0 {
      var q, size := x / lot as real, lot as real;
      assert q * size == x;
      assert Rounded(x, lot) == OfLots(Lots(x, lot), lot);
      MulOrder(q.Floor as real, q, size);
      forall k: int | OfLots(k, lot) <= x ensures OfLots(k, lot) <= Rounded(x, lot) { LotsFit(k, q, size); }
    }
  }

  lemma LotsFit(k: int, q: real, size: real)
    requires size > 0.0 && k as real * size <= q * size
    ensures k as real * size <= q.Floor as real * size
  {
    Smaller(k as real, q, size);
    MulOrder(k as real, q.Floor as real, size);
  }

  lemma Smaller(a: real, b: real, c: real)
    requires c > 0.0 && a * c <= b * c
    ensures a <= b
  {
    if a > b {
      var product := (a - b) * c;
      StrictlySameSigns(a - b, c, product);
    }
  }

  /** A purchase is rounded by the wrappers from the innermost outwards, a sale from the outermost inwards. */
  function RoundedOutwards(m: Matcher, x: real): real {
    match m
    case Base(_, _, _, _) => x
    case Tax(inner, _) => RoundedOutwards(inner, x)
    case Rules(inner, _, _, lot, _, _, _) => Rounded(RoundedOutwards(inner, x), lot)
  }

  function RoundedInwards(m: Matcher, x: real): real {
    match m
    case Base(_, _, _, _) => x
    case Tax(inner, _) => RoundedInwards(inner, x)
    case Rules(inner, _, _, lot, _, _, _) => RoundedInwards(inner, Rounded(x, lot))
  }

  lemma RoundedBounds(x: real, lot: nat)
    requires x >= 0.0
    ensures 0.0 <= Rounded(x, lot) <= x && (lot > 0 ==> (Rounded(x, lot) == 0.0 <==> Lots(x, lot) == 0))
  {
    if lot > 0 {
      if x > 0.0 { WholeLotsBounds(x, lot); } else { assert x / lot as real == 0.0; }
    }
  }

  lemma {:induction false} OutwardsBounds(m: Matcher, x: real)
    requires x >= 0.0
    ensures 0.0 <= RoundedOutwards(m, x) <= x
  {
    match m
    case Base(_, _, _, _) =>
    case Tax(inner, _) => OutwardsBounds(inner, x);
    case Rules(inner, _, _, lot, _, _, _) =>
      OutwardsBounds(inner, x);
      RoundedBounds(RoundedOutwards(inner, x), lot);
  }

  // ---- purchases -------------------------------------------------------------------------

  /** The commission on this amount of money at the stack's rates. */
  function BuyCharge(m: Matcher, amount: real): real { Max(Weighed(amount, Bottom(m).rate), Bottom(m).minComm) }

  function BuyPrice(m: Matcher, price: real): real { Weighed(price, 1.0 + Bottom(m).slip) }

  /** The order cannot be filled at all, or its commission eats it up. */
  predicate BuyBlocked(m: Matcher, price: real, amount: real) {
    price <= 0.0 || amount <= 0.0 || LimitUp(m, price) || BuyCharge(m, amount) >= amount
  }

  /** A fill of `full` shares rounded by the stack: nothing when rounding leaves nothing, else at the slipped price,
      with the commission of the whole amount unless shares were cut off and that of their value if so. */
  ghost predicate BuysRounded(m: Matcher, price: real, amount: real, full: real, f: Fill) {
    && f.shares == RoundedOutwards(m, full)
    && (f.shares > 0.0 ==>
          && f.price == BuyPrice(m, price)
          && f.commission == BuyCharge(m, if f.shares == full then amount else Weighed(f.shares, f.price))
          && f.net == -(Weighed(f.shares, f.price) + f.commission))
    && (f.shares == 0.0 ==> f.net == 0.0 && f.commission == 0.0)
  }

  lemma BaseBuys(m: Matcher, price: real, amount: real) returns (full: real)
    requires m.Base?
    ensures var f := FillBuy(m, price, amount).0;
      if BuyBlocked(m, price, amount) then f.shares == 0.0 && f.net == 0.0 && f.commission == 0.0
      else full > 0.0 && Weighed(full, BuyPrice(m, price)) == amount - BuyCharge(m, amount)
           && BuysRounded(m, price, amount, full, f)
  {
    full := 0.0;
    if !BuyBlocked(m, price, amount) {
      var fillPrice, money := price * (1.0 + m.slip), amount - BuyCharge(m, amount);
      MulOrder(1.0, 1.0 + m.slip, price);
      assert BuyPrice(m, price) == fillPrice;
      full := money / fillPrice;
      assert full * fillPrice == money;
      if full <= 0.0 { MulOrder(full, 0.0, fillPrice); }
      assert Weighed(full, fillPrice) == money;
    }
  }

  /** Exactly what a purchase fills: nothing when it is blocked, else all the shares that the amount less its commission
      pays for at the slipped price, rounded to the wrappers' lots. */
  lemma {:induction false} BuyFillsExactly(m: Matcher, price: real, amount: real) returns (full: real)
    ensures var f := FillBuy(m, price, amount).0;
      if BuyBlocked(m, price, amount) then f.shares == 0.0 && f.net == 0.0 && f.commission == 0.0
      else full > 0.0 && Weighed(full, BuyPrice(m, price)) == amount - BuyCharge(m, amount)
           && BuysRounded(m, price, amount, full, f)
  {
    match m
    case Base(_, _, _, _) => full := BaseBuys(m, price, amount);
    case Tax(inner, _) => full := BuyFillsExactly(inner, price, amount);
    case Rules(inner, _, _, _, _, _, _) =>
      full := BuyFillsExactly(inner, price, amount);
      OwnLimitIs(m, price);
      if !BuyBlocked(m, price, amount) { RulesRound(m, price, amount, full, FillBuy(inner, price, amount).0); }
  }

  lemma OwnLimitIs(m: Matcher, price: real)
    requires m.Rules?
    ensures UpBy(m.limit, m.prevClose, price) == AtUpperLimit(m.limit, m.prevClose, price)
    ensures DownBy(m.limit, m.prevClose, price) == AtLowerLimit(m.limit, m.prevClose, price)
  {
    assert m.prevClose * (1.0 + m.limit) == m.prevClose + Weighed(m.prevClose, m.limit);
    assert m.prevClose * (1.0 - m.limit) == m.prevClose - Weighed(m.prevClose, m.limit);
  }

  lemma RulesRound(m: Matcher, price: real, amount: real, full: real, fill: Fill)
    requires m.Rules? && !BuyBlocked(m, price, amount) && full > 0.0
    requires fill == FillBuy(m.inner, price, amount).0 && BuysRounded(m.inner, price, amount, full, fill)
    ensures BuysRounded(m, price, amount, full, FillBuy(m, price, amount).0)
  {
    OutwardsBounds(m.inner, full);
    RoundedBounds(fill.shares, m.lot);
    OwnLimitIs(m, price);
    RulesFill(m, price, amount, fill);
    if m.lot > 0 && 0.0 < Rounded(fill.shares, m.lot) < fill.shares {
      CutIsRounded(m, price, amount, full, fill, Rounded(fill.shares, m.lot));
    }
  }

  /** What the rules make of the fill that they get. */
  lemma RulesFill(m: Matcher, price: real, amount: real, fill: Fill)
    requires m.Rules? && price > 0.0 && amount > 0.0 && !AtUpperLimit(m.limit, m.prevClose, price)
    requires fill == FillBuy(m.inner, price, amount).0 && fill.shares >= 0.0
    ensures var f, kept := FillBuy(m, price, amount).0, Rounded(fill.shares, m.lot);
      f == if kept == fill.shares then fill
           else if kept == 0.0 then NoFill(price)
           else CutFill(fill, kept, Bottom(m))
  {
    RoundedBounds(fill.shares, m.lot);
  }

  lemma CutIsRounded(m: Matcher, price: real, amount: real, full: real, fill: Fill, kept: real)
    requires m.Rules? && 0.0 < kept < fill.shares <= full && BuysRounded(m.inner, price, amount, full, fill)
    requires kept == RoundedOutwards(m, full)
    ensures BuysRounded(m, price, amount, full, CutFill(fill, kept, Bottom(m)))
  {
  }

  // ---- what a purchase leaves in the stack -----------------------------------------------

  /** Every rules wrapper of the stack remembers this bar as its last purchase. */
  predicate AllBought(m: Matcher) {
    match m
    case Base(_, _, _, _) => true
    case Tax(inner, _) => AllBought(inner)
    case Rules(inner, _, _, _, bar, _, buyBar) => bar == buyBar && AllBought(inner)
  }

  /** The same stack but for the bars of purchase. */
  predicate SameSettings(m: Matcher, r: Matcher) {
    match m
    case Base(_, _, _, _) => r == m
    case Tax(inner, tax) => r.Tax? && r.tax == tax && SameSettings(inner, r.inner)
    case Rules(inner, _, _, _, _, _, _) =>
      r.Rules? && r == m.(inner := r.inner, buyBar := r.buyBar) && SameSettings(inner, r.inner)
  }

  lemma {:induction false} SameAsItself(m: Matcher)
    ensures SameSettings(m, m)
  {
    match m
    case Base(_, _, _, _) =>
    case Tax(inner, _) => SameAsItself(inner);
    case Rules(inner, _, _, _, _, _, _) => SameAsItself(inner);
  }

  /** A purchase changes nothing of the stack but the bars of purchase: all of them when it is filled. */
  lemma {:induction false} BuyMarksStack(m: Matcher, price: real, amount: real)
    ensures var (f, r) := FillBuy(m, price, amount);
      SameSettings(m, r) && (f.shares > 0.0 ==> AllBought(r))
  {
    match m
    case Base(_, _, _, _) =>
    case Tax(inner, _) => BuyMarksStack(inner, price, amount);
    case Rules(inner, _, _, _, _, _, _) =>
      SameAsItself(inner);
      BuyMarksStack(inner, price, amount);
  }

  /** Market rules are asked by the wrapper around them unless its own limit or the order stops it first, and remember
      the bar when they fill something, even if a wrapper around them then rounds it away. */
  lemma RulesRemember(m: Matcher, price: real, amount: real)
    requires m.Rules?
    ensures var (f, r) := FillBuy(m, price, amount);
      && r.Rules? && r.buyBar == (if f.shares > 0.0 then m.bar else m.buyBar)
      && r.inner == if price <= 0.0 || amount <= 0.0 || UpBy(m.limit, m.prevClose, price) then m.inner
                    else FillBuy(m.inner, price, amount).1
  {
    OwnLimitIs(m, price);
    var full := BuyFillsExactly(m.inner, price, amount);
    if !BuyBlocked(m.inner, price, amount) {
      OutwardsBounds(m.inner, full);
      RoundedBounds(FillBuy(m.inner, price, amount).0.shares, m.lot);
    }
  }

  // ---- sales -----------------------------------------------------------------------------

  predicate SaleBlocked(m: Matcher, price: real, shares: real) {
    price <= 0.0 || shares <= 0.0 || LimitDown(m, price) || BoughtToday(m)
  }

  function SalePrice(m: Matcher, price: real): real { Max(Weighed(price, 1.0 - Bottom(m).slip), 0.0) }

  function SaleCharge(m: Matcher, value: real): real {
    Min(Max(Weighed(value, Bottom(m).sellRate), Bottom(m).minComm), value)
  }

  /** What is left of the proceeds after each tax of the stack on the value, never less than nothing. */
  function AfterTaxes(m: Matcher, value: real, proceeds: real): real {
    match m
    case Base(_, _, _, _) => proceeds
    case Tax(inner, tax) => Max(AfterTaxes(inner, value, proceeds) - Weighed(value, tax), 0.0)
    case Rules(inner, _, _, _, _, _, _) => AfterTaxes(inner, value, proceeds)
  }

  /** A sale of this many shares: at the slipped price, less the commission and the taxes. */
  ghost predicate SellsAll(m: Matcher, price: real, sold: real, value: real, f: Fill) {
    && f.shares == sold && f.price == SalePrice(m, price) && value == Weighed(sold, f.price)
    && f.net == AfterTaxes(m, value, value - SaleCharge(m, value)) && f.commission == value - f.net
  }

  lemma InwardsBounds(m: Matcher, x: real)
    requires x >= 0.0
    ensures 0.0 <= RoundedInwards(m, x) <= x
  {
    match m
    case Base(_, _, _, _) =>
    case Tax(inner, _) => InwardsBounds(inner, x);
    case Rules(inner, _, _, lot, _, _, _) =>
      RoundedBounds(x, lot);
      InwardsBounds(inner, Rounded(x, lot));
  }

  lemma InwardsOfNothing(m: Matcher)
    ensures RoundedInwards(m, 0.0) == 0.0
  {
    InwardsBounds(m, 0.0);
  }

  lemma BaseSells(m: Matcher, price: real, shares: real) returns (value: real)
    requires m.Base?
    ensures var f := FillSell(m, price, shares);
      if SaleBlocked(m, price, shares) then f.shares == 0.0 && f.net == 0.0 && f.commission == 0.0
      else SellsAll(m, price, shares, value, f)
  {
    value := shares * SalePrice(m, price);
  }

  lemma TaxedIs(fill: Fill, rate: real, tax: real)
    requires fill.shares > 0.0 && fill.shares * fill.price * rate == tax && fill.net >= 0.0
    ensures TaxFill(fill, rate).net == Max(fill.net - tax, 0.0)
    ensures TaxFill(fill, rate) == fill.(commission := fill.commission + fill.net - TaxFill(fill, rate).net,
                                         net := TaxFill(fill, rate).net)
  {
  }

  lemma TaxTakes(m: Matcher, price: real, sold: real, value: real, fill: Fill)
    requires m.Tax? && sold > 0.0 && SellsAll(m.inner, price, sold, value, fill) && fill.net >= 0.0
    ensures SellsAll(m, price, sold, value, TaxFill(fill, m.tax))
  {
    var tax := Weighed(value, m.tax);
    assert fill.shares * fill.price * m.tax == tax;
    TaxedIs(fill, m.tax, tax);
  }

  /** Exactly what a sale fills: nothing when it is blocked or rounding leaves nothing, else the shares rounded to the
      wrappers' lots at the slipped price, less the commission and the taxes. */
  lemma {:induction false} SaleFillsExactly(m: Matcher, price: real, shares: real) returns (value: real)
    ensures var f := FillSell(m, price, shares);
      if SaleBlocked(m, price, shares) || RoundedInwards(m, shares) == 0.0 then
        f.shares == 0.0 && f.net == 0.0 && f.commission == 0.0
      else SellsAll(m, price, RoundedInwards(m, shares), value, f)
  {
    match m
    case Base(_, _, _, _) => value := BaseSells(m, price, shares);
    case Tax(inner, _) =>
      value := SaleFillsExactly(inner, price, shares);
      if shares > 0.0 { InwardsBounds(inner, shares); }
      SaleIsFair(inner, price, shares);
      if !SaleBlocked(m, price, shares) && RoundedInwards(m, shares) != 0.0 {
        TaxTakes(m, price, RoundedInwards(m, shares), value, FillSell(inner, price, shares));
      }
    case Rules(inner, _, _, lot, _, _, _) =>
      OwnLimitIs(m, price);
      value := 0.0;
      if shares > 0.0 {
        RoundedBounds(shares, lot);
        InwardsOfNothing(inner);
        value := SaleFillsExactly(inner, price, Rounded(shares, lot));
      }
  }

  // ---- the bar ---------------------------------------------------------------------------

  /** What was bought is not sold on the same bar by a stack one of whose rules forbids it, at whatever price. */
  lemma BoughtIsNotSold(m: Matcher, price: real, amount: real, later: real, asked: real)
    requires FillBuy(m, price, amount).0.shares > 0.0 && Forbids(m)
    ensures FillSell(FillBuy(m, price, amount).1, later, asked).shares == 0.0
  {
    var r := FillBuy(m, price, amount).1;
    BuyMarksStack(m, price, amount);
    MarkedIsBought(m, r);
    var value := SaleFillsExactly(r, later, asked);
  }

  /** Some rules of the stack sell on the next bar at the earliest. */
  predicate Forbids(m: Matcher) {
    match m
    case Base(_, _, _, _) => false
    case Tax(inner, _) => Forbids(inner)
    case Rules(inner, tPlus1, _, _, _, _, _) => tPlus1 || Forbids(inner)
  }

  lemma {:induction false} MarkedIsBought(m: Matcher, r: Matcher)
    requires SameSettings(m, r) && AllBought(r) && Forbids(m)
    ensures BoughtToday(r)
  {
    match m
    case Base(_, _, _, _) =>
    case Tax(inner, _) => MarkedIsBought(inner, r.inner);
    case Rules(inner, tPlus1, _, _, _, _, _) => if !tPlus1 { MarkedIsBought(inner, r.inner); }
  }
}
