/** The matchers as the objects they are: wrappers hold the matcher they wrap, and market rules
    update their bar state in place (ez/core/matcher.py, ez/core/market_rules.py). */
module MatcherObjects {
  import opened Matchers

  datatype Kind =
    | BaseKind(slip: NonNeg, rate: NonNeg, sellRate: NonNeg, minComm: NonNeg)
    | TaxKind(tax: real)
    | RulesKind(tPlus1: bool, limit: NonNeg, lot: nat)

  class MatcherObject {
    const kind: Kind
    const inner: MatcherObject?
    var bar: int
    var prevClose: real
    var buyBar: int
    ghost const Repr: set<MatcherObject>

    ghost predicate Valid()
      decreases Repr
    {
      && this in Repr
      && (kind.BaseKind? <==> inner == null)
      && (inner != null ==> inner in Repr && this !in inner.Repr && inner.Repr < Repr && inner.Valid())
    }

    /** The stack as a value. */
    ghost function Value(): Matcher
      requires Valid()
      reads Repr
      decreases Repr
    {
      match kind
      case BaseKind(slip, rate, sellRate, minComm) => Base(slip, rate, sellRate, minComm)
      case TaxKind(tax) => Tax(inner.Value(), tax)
      case RulesKind(tPlus1, limit, lot) => Rules(inner.Value(), tPlus1, limit, lot, bar, prevClose, buyBar)
    }

    constructor BaseMatcher(slip: NonNeg, rate: NonNeg, sellRate: NonNeg, minComm: NonNeg)
      ensures Valid() && fresh(Repr) && Value() == Base(slip, rate, sellRate, minComm)
    {
      kind, inner := BaseKind(slip, rate, sellRate, minComm), null;
      bar, prevClose, buyBar := -1, 0.0, -1;
      Repr := {this};
    }

    constructor SellSideTax(wrapped: MatcherObject, tax: real)
      requires wrapped.Valid()
      ensures Valid() && fresh(Repr - wrapped.Repr) && Value() == Tax(wrapped.Value(), tax)
    {
      kind, inner := TaxKind(tax), wrapped;
      bar, prevClose, buyBar := -1, 0.0, -1;
      Repr := {this} + wrapped.Repr;
    }

    constructor MarketRules(wrapped: MatcherObject, tPlus1: bool, limit: NonNeg, lot: nat)
      requires wrapped.Valid()
      ensures Valid() && fresh(Repr - wrapped.Repr)
      ensures Value() == Rules(wrapped.Value(), tPlus1, limit, lot, -1, 0.0, -1)
    {
      kind, inner := RulesKind(tPlus1, limit, lot), wrapped;
      bar, prevClose, buyBar := -1, 0.0, -1;
      Repr := {this} + wrapped.Repr;
    }

    /** Walks the wrappers down to the base matcher. */
    method FindBase() returns (base: MatcherObject)
      requires Valid()
      ensures base.Valid() && base.kind.BaseKind? && base.Value() == Bottom(Value())
    {
      base := this;
      while base.inner != null
        invariant base.Valid() && base.Repr <= Repr && Bottom(base.Value()) == Bottom(Value())
        decreases base.Repr
      {
        base := base.inner;
      }
    }

    method BarStarts(barIndex: int, previousClose: real)
      requires Valid()
      modifies this
      ensures Value() == OnBar(old(Value()), barIndex, previousClose)
    {
      if kind.RulesKind? {
        bar := barIndex;
        prevClose := previousClose;
        assert inner.Value() == old(inner.Value());
      }
    }

    method TryBuy(price: real, amount: real) returns (fill: Fill)
      requires Valid()
      modifies Repr
      ensures (fill, Value()) == FillBuy(old(Value()), price, amount)
      decreases Repr, 1
    {
      match kind {
        case BaseKind(slip, rate, _, minComm) =>
          fill := FillBuyKernel(price, amount, rate, minComm, slip);
        case TaxKind(_) =>
          fill := inner.TryBuy(price, amount);
        case RulesKind(_, _, _) =>
          fill := BuyUnderRules(price, amount);
      }
    }

    method RoundToLots(whole: Fill) returns (fill: Fill)
      requires Valid() && kind.RulesKind? && kind.lot > 0
      ensures fill == RoundFill(whole, kind.lot, Bottom(Value()))
    {
      if WholeLots(whole.shares, kind.lot) < whole.shares {
        var base := FindBase();
        fill := CutFill(whole, WholeLots(whole.shares, kind.lot), Base(0.0, base.kind.rate, 0.0, base.kind.minComm));
      } else {
        fill := whole;
      }
    }

    method BuyUnderRules(price: real, amount: real) returns (fill: Fill)
      requires Valid() && kind.RulesKind?
      modifies Repr
      ensures (fill, Value()) == FillBuy(old(Value()), price, amount)
      decreases Repr, 0
    {
      if amount <= 0.0 || price <= 0.0 { return NoFill(price); }
      if AtUpperLimit(kind.limit, prevClose, price) { return NoFill(price); }
      BuyKeepsBottom(inner.Value(), price, amount);
      fill := inner.TryBuy(price, amount);
      if fill.shares <= 0.0 { return; }
      if kind.lot > 0 {
        if Lots(fill.shares, kind.lot) == 0 { return NoFill(price); }
        fill := RoundToLots(fill);
      }
      buyBar := bar;
      assert inner.Value() == FillBuy(old(inner.Value()), price, amount).1;
    }

    method TrySell(price: real, shares: real) returns (fill: Fill)
      requires Valid()
      ensures fill == FillSell(Value(), price, shares)
      decreases Repr
    {
      match kind {
        case BaseKind(slip, _, sellRate, minComm) =>
          fill := FillSellKernel(price, shares, sellRate, minComm, slip);
        case TaxKind(taxRate) =>
          fill := inner.TrySell(price, shares);
          fill := TaxFill(fill, taxRate);
        case RulesKind(tPlus1, limit, lot) =>
          if shares <= 0.0 || price <= 0.0 { return NoFill(price); }
          if tPlus1 && buyBar == bar { return NoFill(price); }
          if AtLowerLimit(limit, prevClose, price) { return NoFill(price); }
          if lot == 0 {
            fill := inner.TrySell(price, shares);
          } else if Lots(shares, lot) == 0 {
            fill := NoFill(price);
          } else {
            fill := inner.TrySell(price, WholeLots(shares, lot));
          }
      }
    }
  }
}
