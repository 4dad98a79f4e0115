/** Order matching: the fill kernels, the matchers and their wrappers as values
    (ez/core/_jit_fill.py, ez/core/matcher.py, ez/core/market_rules.py). */
module Matchers {
  import opened Reals

  /** Rates and minimum commissions; the constructors refuse negative ones. */
  type NonNeg = r: real | r >= 0.0 witness 0.0

  /** `net` is the change of cash: negative for a buy, positive for a sale. */
  datatype Fill = Fill(shares: real, price: real, commission: real, net: real)

  const PRICE_EPSILON := 0.000001

  /** `floor(x / lot)` lots. */
  function Lots(x: real, lot: nat): int
    requires lot > 0
  {
    (x / lot as real).Floor
  }

  /** The shares in those lots. */
  function WholeLots(x: real, lot: nat): real
    requires lot > 0
  {
    Lots(x, lot) as real * lot as real
  }

  // ---- kernels -------------------------------------------------------------------------

  function FillBuyKernel(price: real, amount: real, rate: NonNeg, minComm: NonNeg, slip: NonNeg): Fill {
    if amount <= 0.0 || price <= 0.0 then Fill(0.0, price, 0.0, 0.0)
    else
      var fillPrice := price * (1.0 + slip);
      var comm := Max(amount * rate, minComm);
      if comm >= amount then Fill(0.0, fillPrice, 0.0, 0.0)
      else
        assert fillPrice >= price;
        Fill((amount - comm) / fillPrice, fillPrice, comm, -amount)
  }

  function FillSellKernel(price: real, shares: real, rate: NonNeg, minComm: NonNeg, slip: NonNeg): Fill {
    if shares <= 0.0 || price <= 0.0 then Fill(0.0, price, 0.0, 0.0)
    else
      var fillPrice := Max(price * (1.0 - slip), 0.0);
      var value := shares * fillPrice;
      var comm := Min(Max(value * rate, minComm), value);
      Fill(shares, fillPrice, comm, value - comm)
  }

  // ---- matcher stacks ------------------------------------------------------------------

  /** A simple matcher is a base matcher without slippage. Market rules carry the bar state. */
  datatype Matcher =
    | Base(slip: NonNeg, rate: NonNeg, sellRate: NonNeg, minComm: NonNeg)
    | Tax(inner: Matcher, tax: real)
    | Rules(inner: Matcher, tPlus1: bool, limit: NonNeg, lot: nat, bar: int, prevClose: real, buyBar: int)

  /** The matcher at the bottom of the stack. */
  function Bottom(m: Matcher): (b: Matcher)
    ensures b.Base?
  {
    match m
    case Base(_, _, _, _) => m
    case Tax(inner, _) => Bottom(inner)
    case Rules(inner, _, _, _, _, _, _) => Bottom(inner)
  }

  function OnBar(m: Matcher, bar: int, prevClose: real): Matcher {
    if m.Rules? then m.(bar := bar, prevClose := prevClose) else m
  }

  predicate AtUpperLimit(limit: real, prevClose: real, price: real) {
    limit > 0.0 && prevClose > 0.0 && price >= prevClose * (1.0 + limit) - PRICE_EPSILON
  }

  predicate AtLowerLimit(limit: real, prevClose: real, price: real) {
    limit > 0.0 && prevClose > 0.0 && price <= prevClose * (1.0 - limit) + PRICE_EPSILON
  }

  function NoFill(price: real): Fill { Fill(0.0, price, 0.0, 0.0) }

  /** A fill reduced to fewer shares; the commission floor of the bottom matcher still applies. */
  function CutFill(fill: Fill, actual: real, bottom: Matcher): Fill
    requires bottom.Base?
  {
    var value := actual * fill.price;
    var comm := Max(value * bottom.rate, bottom.minComm);
    Fill(actual, fill.price, comm, -(value + comm))
  }

  function RoundFill(fill: Fill, lot: nat, bottom: Matcher): Fill
    requires lot > 0 && bottom.Base?
  {
    if WholeLots(fill.shares, lot) < fill.shares then CutFill(fill, WholeLots(fill.shares, lot), bottom) else fill
  }

  /** A buy, with the matcher's state afterwards. */
  function FillBuy(m: Matcher, price: real, amount: real): (Fill, Matcher) {
    match m
    case Base(slip, rate, _, minComm) => (FillBuyKernel(price, amount, rate, minComm, slip), m)
    case Tax(inner, tax) =>
      var (fill, inner') := FillBuy(inner, price, amount);
      (fill, Tax(inner', tax))
    case Rules(inner, _, _, lot, _, _, _) =>
      if amount <= 0.0 || price <= 0.0 || AtUpperLimit(m.limit, m.prevClose, price) then (NoFill(price), m)
      else
        var (fill, inner') := FillBuy(inner, price, amount);
        if fill.shares <= 0.0 then (fill, m.(inner := inner'))
        else if lot > 0 && Lots(fill.shares, lot) == 0 then (NoFill(price), m.(inner := inner'))
        else
          (if lot > 0 then RoundFill(fill, lot, Bottom(m)) else fill, m.(inner := inner', buyBar := m.bar))
  }

  function TaxFill(fill: Fill, taxRate: real): Fill {
    if fill.shares <= 0.0 then fill
    else
      var tax := Min(fill.shares * fill.price * taxRate, Max(fill.net, 0.0));
      Fill(fill.shares, fill.price, fill.commission + tax, fill.net - tax)
  }

  function FillSell(m: Matcher, price: real, shares: real): Fill {
    match m
    case Base(slip, _, sellRate, minComm) => FillSellKernel(price, shares, sellRate, minComm, slip)
    case Tax(inner, tax) => TaxFill(FillSell(inner, price, shares), tax)
    case Rules(inner, tPlus1, _, lot, bar, _, buyBar) =>
      if shares <= 0.0 || price <= 0.0 || (tPlus1 && buyBar == bar) || AtLowerLimit(m.limit, m.prevClose, price)
        then NoFill(price)
      else if lot == 0 then FillSell(inner, price, shares)
      else if Lots(shares, lot) == 0 then NoFill(price)
      else FillSell(inner, price, WholeLots(shares, lot))
  }

  // ---- what every stack guarantees -----------------------------------------------------

  /** A buy spends no more than offered, and its cash is shares at the fill price plus commission. */
  ghost predicate FairBuy(f: Fill, amount: real) {
    && f.shares >= 0.0 && f.commission >= 0.0
    && (f.shares > 0.0 ==> f.price > 0.0 && f.net == -(f.shares * f.price + f.commission) && 0.0 < -f.net <= amount)
    && (f.shares == 0.0 ==> f.net == 0.0)
  }

  /** A sale sells no more than asked and returns shares at the fill price less charges, never negative. */
  ghost predicate FairSale(f: Fill, price: real, shares: real) {
    && 0.0 <= f.shares && (f.shares > 0.0 ==> f.shares <= shares && 0.0 <= f.price <= price && 0.0 < price)
    && f.net == f.shares * f.price - f.commission && f.net >= 0.0
    && (f.shares == 0.0 ==> f.net == 0.0)
  }

  /** What lot rounding needs of a fill: its value with the bottom matcher's charge stays affordable. */
  ghost predicate Affordable(f: Fill, bottom: Matcher, amount: real)
    requires bottom.Base?
  {
    f.shares > 0.0 ==> f.shares * f.price + Max(f.shares * f.price * bottom.rate, bottom.minComm) <= amount
  }

  lemma BuyKernelIsFair(price: real, amount: real, rate: NonNeg, minComm: NonNeg, slip: NonNeg)
    ensures var f := FillBuyKernel(price, amount, rate, minComm, slip);
      FairBuy(f, amount) && Affordable(f, Base(slip, rate, 0.0, minComm), amount)
      && (f.shares == 0.0 <==> price <= 0.0 || amount <= Max(Max(amount * rate, minComm), 0.0))
  {
    var f := FillBuyKernel(price, amount, rate, minComm, slip);
    if amount > 0.0 && price > 0.0 && Max(amount * rate, minComm) < amount {
      var fillPrice := price * (1.0 + slip);
      MulOrder(1.0, 1.0 + slip, price);
      assert f.shares * fillPrice == amount - f.commission;
      assert f.shares > 0.0;
      MulOrder(f.shares * f.price, amount, rate);
    }
  }

  lemma SmallerIsAffordable(actual: real, shares: real, price: real, rate: NonNeg, minComm: NonNeg, amount: real)
    requires 0.0 < actual <= shares && price > 0.0
    requires shares * price + Max(shares * price * rate, minComm) <= amount
    ensures 0.0 < actual * price && actual * price + Max(actual * price * rate, minComm) <= amount
    ensures Max(actual * price * rate, minComm) >= 0.0
  {
    MulOrder(actual, shares, price);
    MulOrder(actual * price, shares * price, rate);
  }

  lemma WholeLotsBounds(x: real, lot: nat)
    requires lot > 0 && x > 0.0
    ensures 0.0 <= WholeLots(x, lot) <= x
    ensures Lots(x, lot) != 0 ==> 0.0 < WholeLots(x, lot)
  {
    var q := x / lot as real;
    assert q * lot as real == x;
    MulOrder(q.Floor as real, q, lot as real);
    MulOrder(0.0, q.Floor as real, lot as real);
    if Lots(x, lot) != 0 { MulOrder(1.0, q.Floor as real, lot as real); }
  }

  lemma CutFillIsFair(fill: Fill, actual: real, bottom: Matcher, amount: real)
    requires bottom.Base? && 0.0 < actual <= fill.shares
    requires FairBuy(fill, amount) && Affordable(fill, bottom, amount)
    ensures FairBuy(CutFill(fill, actual, bottom), amount) && Affordable(CutFill(fill, actual, bottom), bottom, amount)
  {
    var value := CutValue(fill, actual, bottom, amount);
    CutFillFits(fill, actual, bottom, amount, value);
  }

  lemma CutValue(fill: Fill, actual: real, bottom: Matcher, amount: real) returns (value: real)
    requires bottom.Base? && 0.0 < actual <= fill.shares && fill.price > 0.0 && Affordable(fill, bottom, amount)
    ensures value == actual * fill.price > 0.0 && Max(value * bottom.rate, bottom.minComm) >= 0.0
    ensures value + Max(value * bottom.rate, bottom.minComm) <= amount
  {
    value := actual * fill.price;
    SmallerIsAffordable(actual, fill.shares, fill.price, bottom.rate, bottom.minComm, amount);
  }

  lemma CutFillFits(fill: Fill, actual: real, bottom: Matcher, amount: real, value: real)
    requires bottom.Base? && actual > 0.0 && fill.price > 0.0 && value == actual * fill.price > 0.0
    requires value + Max(value * bottom.rate, bottom.minComm) <= amount
      && Max(value * bottom.rate, bottom.minComm) >= 0.0
    ensures FairBuy(CutFill(fill, actual, bottom), amount) && Affordable(CutFill(fill, actual, bottom), bottom, amount)
  {
  }

  lemma RoundingIsFair(fill: Fill, lot: nat, bottom: Matcher, amount: real)
    requires lot > 0 && bottom.Base? && fill.shares > 0.0 && Lots(fill.shares, lot) != 0
    requires FairBuy(fill, amount) && Affordable(fill, bottom, amount)
    ensures var f := RoundFill(fill, lot, bottom);
      FairBuy(f, amount) && Affordable(f, bottom, amount) && f.shares == WholeLots(fill.shares, lot)
  {
    WholeLotsBounds(fill.shares, lot);
    CutFillIsFair(fill, WholeLots(fill.shares, lot), bottom, amount);
  }

  lemma {:induction false} BuyIsFair(m: Matcher, price: real, amount: real)
    ensures var f := FillBuy(m, price, amount).0;
      FairBuy(f, amount) && Affordable(f, Bottom(m), amount)
  {
    match m
    case Base(slip, rate, _, minComm) => BuyKernelIsFair(price, amount, rate, minComm, slip);
    case Tax(inner, _) => BuyIsFair(inner, price, amount);
    case Rules(inner, _, _, lot, _, _, _) =>
      if !(amount <= 0.0 || price <= 0.0 || AtUpperLimit(m.limit, m.prevClose, price)) {
        BuyIsFair(inner, price, amount);
        var fill := FillBuy(inner, price, amount).0;
        if fill.shares > 0.0 && lot > 0 && Lots(fill.shares, lot) != 0 {
          RoundingIsFair(fill, lot, Bottom(inner), amount);
        }
      }
  }

  lemma {:induction false} BuyKeepsBottom(m: Matcher, price: real, amount: real)
    ensures Bottom(FillBuy(m, price, amount).1) == Bottom(m)
  {
    match m
    case Base(_, _, _, _) =>
    case Tax(inner, _) => BuyKeepsBottom(inner, price, amount);
    case Rules(inner, _, _, _, _, _, _) => BuyKeepsBottom(inner, price, amount);
  }

  lemma SellKernelIsFair(price: real, shares: real, rate: NonNeg, minComm: NonNeg, slip: NonNeg)
    ensures var f := FillSellKernel(price, shares, rate, minComm, slip);
      FairSale(f, price, shares) && (shares > 0.0 && price > 0.0 ==> f.shares == shares)
  {
    if shares > 0.0 && price > 0.0 {
      MulOrder(1.0 - slip, 1.0, price);
      MulOrder(0.0, shares, Max(price * (1.0 - slip), 0.0));
    }
  }

  lemma TaxIsFair(fill: Fill, tax: real, price: real, shares: real)
    requires FairSale(fill, price, shares)
    ensures FairSale(TaxFill(fill, tax), price, shares)
  {
  }

  lemma {:induction false} SaleIsFair(m: Matcher, price: real, shares: real)
    ensures FairSale(FillSell(m, price, shares), price, shares)
    decreases m, 1
  {
    match m
    case Base(slip, _, sellRate, minComm) => SellKernelIsFair(price, shares, sellRate, minComm, slip);
    case Tax(inner, tax) =>
      SaleIsFair(inner, price, shares);
      TaxIsFair(FillSell(inner, price, shares), tax, price, shares);
    case Rules(inner, _, _, lot, _, _, _) =>
      if lot == 0 {
        SaleIsFair(inner, price, shares);
      } else if shares > 0.0 {
        WholeLotsBounds(shares, lot);
        SmallerSaleIsFair(inner, price, WholeLots(shares, lot), shares);
      }
  }

  lemma {:induction false} SmallerSaleIsFair(m: Matcher, price: real, fewer: real, shares: real)
    requires fewer <= shares
    ensures FairSale(FillSell(m, price, fewer), price, shares)
    decreases m, 2
  {
    SaleIsFair(m, price, fewer);
  }
}
