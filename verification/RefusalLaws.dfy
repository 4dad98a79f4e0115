/** Exactly which orders the gate refuses, and by which rule (ez/live/risk.py, ez/live/capital_policy.py). */
module RefusalLaws {
  import opened Options
  import opened Reals
  import opened Ledger
  import opened Orders
  import opened CapitalPolicy
  import opened KeySums
  import opened RiskGate
  import opened RiskLaws

  /** The price of a symbol, 0 when there is none. */
  function PriceOf(prices: map<string, real>, s: string): real { if s in prices then prices[s] else 0.0 }

  // ---- the rules, told of the portfolio after the order ------------------------------------

  /** What the order leaves of each symbol. */
  function LeftOf(holdings: map<string, int>, o: Order, s: string): int {
    var next := Held(holdings, s) + (if s != o.symbol then 0 else if o.side.Buy? then o.shares else -o.shares);
    if s == o.symbol && next < 0 then 0 else next
  }

  /** The stage whose limits count: the kill switch takes real money back to paper. */
  function StageInForce(p: Policy): Stage {
    if p.killSwitch && p.currentStage != ReadOnly then PaperSim else p.currentStage
  }

  ghost predicate HasCaps(g: Setting) { g.policy.Some? && StageInForce(g.policy.value) in g.policy.value.limits }

  ghost function CapsInForce(g: Setting): StageLimits
    requires HasCaps(g)
  {
    g.policy.value.limits[StageInForce(g.policy.value)]
  }

  /** The order and the equity have a price. */
  predicate Weighable(g: Setting, o: Order) { PriceOf(g.prices, o.symbol) > 0.0 && g.equity > 0.0 }

  predicate Above(x: real, cap: real) { x > cap + TOLERANCE }

  /** `x` is more than this share of the equity. */
  predicate AboveShare(g: Setting, x: real, cap: Option<real>) {
    cap.Some? && x > Weighed(cap.value + TOLERANCE, g.equity)
  }

  /** Some position left is worth more than this share of the equity. */
  ghost predicate SomeAboveShare(g: Setting, o: Order, holdings: map<string, int>, cap: Option<real>) {
    cap.Some?
    && (cap.value + TOLERANCE < 0.0
        || exists s :: AboveShare(g, Value(LeftOf(holdings, o, s), PriceOf(g.prices, s)), cap))
  }

  /** What the rules compare: the notional; what the order leaves of its symbol and of the exposure, and whether that is
      too much of the equity; whether some position left is; and the turnover that the equity allows. */
  datatype Figures = Figures(notional: real, left: real, exposure: real, heavy: bool, concentrated: bool, levered: bool,
                             turnover: Option<real>)

  ghost function FiguresOf(g: Setting, o: Order, holdings: map<string, int>): Figures {
    var left := Value(LeftOf(holdings, o, o.symbol), PriceOf(g.prices, o.symbol));
    var exposure := Exposure(ApplyDelta(holdings, o.symbol, Delta(o)), g.prices);
    Figures(o.shares as real * PriceOf(g.prices, o.symbol), left, exposure,
            AboveShare(g, left, g.config.maxPositionWeight), SomeAboveShare(g, o, holdings, g.config.maxConcentration),
            AboveShare(g, exposure, g.config.maxGrossExposure),
            if g.config.maxDailyTurnover.Some? && g.equity > 0.0
            then Some(Weighed(g.equity, g.config.maxDailyTurnover.value)) else None)
  }

  /** With these figures the order breaks this rule. */
  ghost predicate BreaksAt(rule: Rule, g: Setting, o: Order, dayNotional: real, x: Figures) {
    match rule
    case KillSwitchDowngrade => g.policy.Some? && g.policy.value.killSwitch && !g.paperBroker
    case ReadOnlyBlocks => g.policy.Some? && g.policy.value.currentStage == ReadOnly
    case PaperStageNeedsPaperBroker => g.policy.Some? && g.policy.value.currentStage == PaperSim && !g.paperBroker
    case NotWhitelisted => HasCaps(g) && CapsInForce(g).allowed.Some? && o.symbol !in CapsInForce(g).allowed.value
    case CapitalPerDay => HasCaps(g) && Above(dayNotional + x.notional, CapsInForce(g).maxCapitalPerDay)
    case PositionValue => HasCaps(g) && o.side.Buy? && Above(x.left, CapsInForce(g).maxPositionValue)
    case TotalExposure => HasCaps(g) && o.side.Buy? && Above(x.exposure, CapsInForce(g).maxGrossExposure)
    case KillSwitch => g.config.killSwitch
    case OrderNotional => g.config.maxOrderNotional.Some? && Above(x.notional, g.config.maxOrderNotional.value)
    case DailyTurnover => x.turnover.Some? && Above(dayNotional + x.notional, x.turnover.value)
    case PositionWeight => o.side.Buy? && Weighable(g, o) && x.heavy
    case Concentration => Weighable(g, o) && x.concentrated
    case GrossExposure => o.side.Buy? && Weighable(g, o) && x.levered
  }

  /** The order in which the rules speak. */
  function Turn(rule: Rule): nat {
    match rule
    case KillSwitchDowngrade => 0
    case ReadOnlyBlocks => 1
    case PaperStageNeedsPaperBroker => 2
    case NotWhitelisted => 3
    case CapitalPerDay => 4
    case PositionValue => 5
    case TotalExposure => 6
    case KillSwitch => 7
    case OrderNotional => 8
    case DailyTurnover => 9
    case PositionWeight => 10
    case Concentration => 11
    case GrossExposure => 12
  }

  // ---- the figures the gate compares -------------------------------------------------------

  lemma LeftIsHeld(holdings: map<string, int>, o: Order, s: string)
    ensures Held(ApplyDelta(holdings, o.symbol, Delta(o)), s) == LeftOf(holdings, o, s)
  {
    HeldAfter(holdings, o.symbol, Delta(o), s);
  }

  /** A long position that grows is worth what it was and the notional. */
  lemma BoughtValue(held: int, shares: int, price: real)
    requires held >= 0 && shares > 0 && price >= 0.0
    ensures Value(held + shares, price) == held as real * price + shares as real * price
    ensures Value(held, price) == held as real * price
  {
    Distribute(price, held as real, shares as real);
    assert price == 0.0 ==> held as real * price == 0.0 && shares as real * price == 0.0;
  }

  lemma WeightIsShare(shares: int, price: real, equity: real, share: real)
    requires equity > 0.0
    ensures WeightOf(shares, price, equity) > share <==> Value(shares, price) > Weighed(share, equity)
  {
    QuotientAbove(Value(shares, price), equity, share);
  }

  lemma QuotientAbove(x: real, d: real, share: real)
    requires d > 0.0
    ensures x / d > share <==> x > Weighed(share, d)
  {
    QuotientTimes(x, d);
    ProductAbove(x / d, d, share, x);
  }

  lemma QuotientTimes(x: real, d: real)
    requires d > 0.0
    ensures Weighed(x / d, d) == x
  {
  }

  lemma ProductAbove(q: real, d: real, share: real, x: real)
    requires d > 0.0 && x == Weighed(q, d)
    ensures q > share <==> x > Weighed(share, d)
  {
    if q > share {
      StrictlySameSigns(q - share, d, (q - share) * d);
    } else {
      MulOrder(q, share, d);
    }
  }

  /** The weights of a portfolio, as shares of the equity, are its values. */
  lemma {:induction false} SharesAddUp(keys: set<string>, w: string -> real, v: string -> real, equity: real)
    requires forall s :: v(s) == Weighed(w(s), equity)
    ensures SumOver(keys, v) == Weighed(SumOver(keys, w), equity)
    decreases |keys|
  {
    if keys == {} {
      SumOfNothing(w);
      SumOfNothing(v);
    } else {
      var k :| k in keys;
      TakeOut(keys, w, k);
      TakeOut(keys, v, k);
      SharesAddUp(keys - {k}, w, v, equity);
      AddedShares(SumOver(keys - {k}, w), w(k), equity);
    }
  }

  lemma AddedShares(a: real, b: real, equity: real)
    ensures Weighed(a + b, equity) == Weighed(a, equity) + Weighed(b, equity)
  {
  }

  /** Gross exposure is the exposure as a share of the equity. */
  lemma GrossIsShare(holdings: map<string, int>, prices: map<string, real>, equity: real, share: real)
    requires equity > 0.0
    ensures GrossExposureOf(holdings, prices, equity) > share <==> Exposure(holdings, prices) > Weighed(share, equity)
  {
    var w, v := WeightIn(holdings, prices, equity), ValueIn(holdings, prices);
    forall s ensures v(s) == Weighed(w(s), equity) {
      QuotientTimes(Value(Held(holdings, s), PriceOf(prices, s)), equity);
    }
    SharesAddUp(holdings.Keys, w, v, equity);
    ProductAbove(GrossExposureOf(holdings, prices, equity), equity, share, Exposure(holdings, prices));
  }

  /** Some weight is above the share exactly when the greatest is. */
  lemma GreatestIsShare(holdings: map<string, int>, prices: map<string, real>, equity: real, share: real)
    requires equity > 0.0
    ensures MaxWeight(holdings, prices, equity) > share
      <==> share < 0.0 || exists s :: Value(Held(holdings, s), PriceOf(prices, s)) > Weighed(share, equity)
  {
    var w, most := WeightIn(holdings, prices, equity), MaxWeight(holdings, prices, equity);
    assert IsGreatest(holdings.Keys, w, most);
    if most > share && share >= 0.0 {
      var s :| s in holdings.Keys && w(s) == most;
      WeightAbove(holdings, prices, equity, share, s);
    }
    if s :| Value(Held(holdings, s), PriceOf(prices, s)) > Weighed(share, equity) && share >= 0.0 {
      WeightAbove(holdings, prices, equity, share, s);
      assert s !in holdings ==> w(s) == 0.0;
    }
  }

  lemma WeightAbove(holdings: map<string, int>, prices: map<string, real>, equity: real, share: real, s: string)
    requires equity > 0.0
    ensures WeightIn(holdings, prices, equity)(s) > share
      <==> Value(Held(holdings, s), PriceOf(prices, s)) > Weighed(share, equity)
  {
    WeightIsShare(Held(holdings, s), PriceOf(prices, s), equity, share);
  }

  // ---- the verdict on one order ------------------------------------------------------------

  /** A purchase of so many shares, in a symbol that is not short and has no negative price. */
  predicate Lengthens(g: Setting, o: Order, holdings: map<string, int>) {
    o.shares > 0 && Held(holdings, o.symbol) >= 0 && PriceOf(g.prices, o.symbol) >= 0.0
  }

  /** Where a stage caps positions, purchases are of that kind: the policy adds the notional to the value before. */
  ghost predicate Sound(g: Setting, o: Order, holdings: map<string, int>) {
    o.side.Buy? && HasCaps(g) ==> Lengthens(g, o, holdings)
  }

  /** `f` is the first rule broken of those whose turn is in this range, if any. */
  ghost predicate FirstOf(f: Option<Rule>, from: nat, to: nat, g: Setting, o: Order, dayNotional: real, x: Figures) {
    match f
    case None => forall rule | from <= Turn(rule) < to :: !BreaksAt(rule, g, o, dayNotional, x)
    case Some(first) =>
      && from <= Turn(first) < to && BreaksAt(first, g, o, dayNotional, x)
      && forall rule | from <= Turn(rule) < Turn(first) :: !BreaksAt(rule, g, o, dayNotional, x)
  }

  lemma BoughtFigures(g: Setting, o: Order, holdings: map<string, int>, notional: real)
    requires Lengthens(g, o, holdings) && o.side.Buy? && notional == o.shares as real * PriceOf(g.prices, o.symbol)
    ensures Value(LeftOf(holdings, o, o.symbol), PriceOf(g.prices, o.symbol))
      == Held(holdings, o.symbol) as real * PriceOf(g.prices, o.symbol) + notional
    ensures Exposure(ApplyDelta(holdings, o.symbol, Delta(o)), g.prices) == Exposure(holdings, g.prices) + notional
  {
    BoughtValue(Held(holdings, o.symbol), o.shares, PriceOf(g.prices, o.symbol));
    ExposureAfter(holdings, g.prices, o.symbol, Delta(o));
    HeldAfter(holdings, o.symbol, Delta(o), o.symbol);
  }

  lemma CapitalExactly(g: Setting, o: Order, p: Policy, notional: real, positionValue: real, exposure: real,
                       dayNotional: real, x: Figures)
    requires g.policy == Some(p) && x.notional == notional
    requires o.side.Buy? && HasCaps(g) ==> x.left == positionValue + notional && x.exposure == exposure + notional
    ensures FirstOf(CheckOrder(p, o.symbol, o.side, notional, positionValue, exposure, dayNotional, g.paperBroker),
                    0, 7, g, o, dayNotional, x)
  {
  }

  /** The figures the gate looks at say the same as those of the portfolio. */
  ghost predicate SameVerdicts(g: Setting, o: Order, after: Metrics, x: Figures) {
    && (Exceeds(if o.symbol in after.weights then after.weights[o.symbol] else 0.0, g.config.maxPositionWeight)
        <==> x.heavy)
    && (Exceeds(after.maxWeight, g.config.maxConcentration) <==> x.concentrated)
    && (Exceeds(after.gross, g.config.maxGrossExposure) <==> x.levered)
  }

  lemma RulesExactly(g: Setting, o: Order, notional: real, dayNotional: real, after: Metrics, x: Figures)
    requires x.notional == notional && (Weighable(g, o) ==> SameVerdicts(g, o, after, x))
    requires x.turnover == if g.config.maxDailyTurnover.Some? && g.equity > 0.0
      then Some(Weighed(g.equity, g.config.maxDailyTurnover.value)) else None
    ensures FirstOf(RejectFailure(g, o, notional, dayNotional, after), 7, 13, g, o, dayNotional, x)
  {
  }

  lemma WeightRule(g: Setting, o: Order, holdings: map<string, int>)
    requires Weighable(g, o)
    ensures var cap, shown := g.config.maxPositionWeight,
        MetricsOf(ApplyDelta(holdings, o.symbol, Delta(o)), g.prices, g.equity).weights;
      Exceeds(if o.symbol in shown then shown[o.symbol] else 0.0, cap)
      <==> AboveShare(g, Value(LeftOf(holdings, o, o.symbol), PriceOf(g.prices, o.symbol)), cap)
  {
    var after, cap := ApplyDelta(holdings, o.symbol, Delta(o)), g.config.maxPositionWeight;
    ShownWeight(after, g.prices, g.equity, o.symbol);
    LeftIsHeld(holdings, o, o.symbol);
    if cap.Some? {
      WeightIsShare(Held(after, o.symbol), PriceOf(g.prices, o.symbol), g.equity, cap.value + TOLERANCE);
    }
  }

  lemma ConcentrationRule(g: Setting, o: Order, holdings: map<string, int>)
    requires Weighable(g, o)
    ensures Exceeds(MetricsOf(ApplyDelta(holdings, o.symbol, Delta(o)), g.prices, g.equity).maxWeight,
                    g.config.maxConcentration)
      <==> SomeAboveShare(g, o, holdings, g.config.maxConcentration)
  {
    var after, cap := ApplyDelta(holdings, o.symbol, Delta(o)), g.config.maxConcentration;
    if cap.Some? {
      GreatestIsShare(after, g.prices, g.equity, cap.value + TOLERANCE);
      forall s ensures Held(after, s) == LeftOf(holdings, o, s) { LeftIsHeld(holdings, o, s); }
    }
  }

  lemma GrossRule(g: Setting, o: Order, holdings: map<string, int>)
    requires Weighable(g, o)
    ensures var after := ApplyDelta(holdings, o.symbol, Delta(o));
      Exceeds(MetricsOf(after, g.prices, g.equity).gross, g.config.maxGrossExposure)
      <==> AboveShare(g, Exposure(after, g.prices), g.config.maxGrossExposure)
  {
    var after, cap := ApplyDelta(holdings, o.symbol, Delta(o)), g.config.maxGrossExposure;
    if cap.Some? { GrossIsShare(after, g.prices, g.equity, cap.value + TOLERANCE); }
  }

  lemma VerdictsAgree(g: Setting, o: Order, holdings: map<string, int>, x: Figures)
    requires Weighable(g, o) && x == FiguresOf(g, o, holdings)
    ensures SameVerdicts(g, o, MetricsOf(ApplyDelta(holdings, o.symbol, Delta(o)), g.prices, g.equity), x)
  {
    WeightRule(g, o, holdings);
    ConcentrationRule(g, o, holdings);
    GrossRule(g, o, holdings);
  }

  lemma OneAfterAnother(f: Option<Rule>, f': Option<Rule>, from: nat, middle: nat, to: nat, g: Setting, o: Order,
                        dayNotional: real, x: Figures)
    requires from <= middle <= to && FirstOf(f, from, middle, g, o, dayNotional, x)
    requires FirstOf(f', middle, to, g, o, dayNotional, x)
    ensures FirstOf(if f.Some? then f else f', from, to, g, o, dayNotional, x)
  {
  }

  lemma NoPolicyNoRule(g: Setting, o: Order, dayNotional: real, x: Figures)
    requires g.policy.None?
    ensures FirstOf(None, 0, 7, g, o, dayNotional, x)
  {
  }

  lemma CapitalHalf(g: Setting, o: Order, state: Gate, notional: real, exposure: real, x: Figures)
    requires Sound(g, o, state.holdings) && x == FiguresOf(g, o, state.holdings) && notional == x.notional
    requires exposure == Exposure(state.holdings, g.prices)
    ensures FirstOf(CapitalFailure(g, o, notional, state.holdings, state.notional, exposure), 0, 7, g, o,
                    state.notional, x)
  {
    if g.policy.Some? {
      var positionValue := Held(state.holdings, o.symbol) as real * PriceOf(g.prices, o.symbol);
      CapitalIsCheck(g, o, notional, state.holdings, state.notional, exposure, positionValue);
      FiguresBefore(g, o, state.holdings, positionValue, x);
      CapitalExactly(g, o, g.policy.value, notional, positionValue, exposure, state.notional, x);
    } else {
      NoPolicyNoRule(g, o, state.notional, x);
    }
  }

  lemma CapitalIsCheck(g: Setting, o: Order, notional: real, holdings: map<string, int>, dayNotional: real,
                       exposure: real, positionValue: real)
    requires g.policy.Some? && positionValue == Held(holdings, o.symbol) as real * PriceOf(g.prices, o.symbol)
    ensures CapitalFailure(g, o, notional, holdings, dayNotional, exposure)
      == CheckOrder(g.policy.value, o.symbol, o.side, notional, positionValue, exposure, dayNotional, g.paperBroker)
  {
  }

  lemma FiguresBefore(g: Setting, o: Order, holdings: map<string, int>, positionValue: real, x: Figures)
    requires Sound(g, o, holdings) && x == FiguresOf(g, o, holdings)
    requires positionValue == Held(holdings, o.symbol) as real * PriceOf(g.prices, o.symbol)
    ensures o.side.Buy? && HasCaps(g) ==>
              x.left == positionValue + x.notional && x.exposure == Exposure(holdings, g.prices) + x.notional
  {
    if o.side.Buy? && HasCaps(g) { BoughtFigures(g, o, holdings, x.notional); }
  }

  lemma RulesHalf(g: Setting, o: Order, state: Gate, notional: real, after: Metrics, x: Figures)
    requires x == FiguresOf(g, o, state.holdings) && notional == x.notional
    requires after == MetricsOf(ApplyDelta(state.holdings, o.symbol, Delta(o)), g.prices, g.equity)
    ensures FirstOf(RejectFailure(g, o, notional, state.notional, after), 7, 13, g, o, state.notional, x)
  {
    if Weighable(g, o) { VerdictsAgree(g, o, state.holdings, x); }
    RulesExactly(g, o, notional, state.notional, after, x);
  }

  /** An order is refused if and only if it breaks a rule, and then by the first rule it breaks. */
  lemma RefusedExactly(g: Setting, o: Order, state: Gate)
    requires Sound(g, o, state.holdings)
    ensures FirstOf(Failure(g, o, state), 0, 13, g, o, state.notional, FiguresOf(g, o, state.holdings))
    ensures forall rule :: 0 <= Turn(rule) < 13
  {
    var notional, x, exposure := NotionalOf(g, o), FiguresOf(g, o, state.holdings), Exposure(state.holdings, g.prices);
    var after := MetricsOf(ApplyDelta(state.holdings, o.symbol, Delta(o)), g.prices, g.equity);
    NotionalIs(g, o, state.holdings);
    CapitalHalf(g, o, state, notional, exposure, x);
    RulesHalf(g, o, state, notional, after, x);
    OneAfterAnother(CapitalFailure(g, o, notional, state.holdings, state.notional, exposure),
                    RejectFailure(g, o, notional, state.notional, after), 0, 7, 13, g, o, state.notional, x);
    FailureIs(g, o, state, notional, exposure, after);
  }

  lemma NotionalIs(g: Setting, o: Order, holdings: map<string, int>)
    ensures NotionalOf(g, o) == FiguresOf(g, o, holdings).notional
  {
  }

  lemma FailureIs(g: Setting, o: Order, state: Gate, notional: real, exposure: real, after: Metrics)
    requires notional == NotionalOf(g, o) && exposure == Exposure(state.holdings, g.prices)
    requires after == MetricsOf(ApplyDelta(state.holdings, o.symbol, Delta(o)), g.prices, g.equity)
    ensures var capital := CapitalFailure(g, o, notional, state.holdings, state.notional, exposure);
      Failure(g, o, state) == if capital.Some? then capital else RejectFailure(g, o, notional, state.notional, after)
  {
  }

  /** A sale is refused only by the kill switches, the stage, its whitelist, the order cap, a budget of the day, or
      because some position left is worth more than the concentration cap allows. */
  lemma SaleIsRefusedOnlyBy(g: Setting, o: Order, state: Gate)
    requires Sound(g, o, state.holdings) && o.side.Sell? && Failure(g, o, state).Some?
    ensures var rule := Failure(g, o, state).value;
      || rule in {KillSwitchDowngrade, ReadOnlyBlocks, PaperStageNeedsPaperBroker, NotWhitelisted, CapitalPerDay,
                  KillSwitch, OrderNotional, DailyTurnover}
      || (rule == Concentration && SomeAboveShare(g, o, state.holdings, g.config.maxConcentration))
  {
    RefusedExactly(g, o, state);
  }

  // ---- the verdicts of a whole list ----------------------------------------------------------

  lemma {:induction false} JudgeNext(g: Setting, orders: seq<Order>, o: Order, state: Gate)
    ensures JudgeAll(g, orders + [o], state) == Judge(g, o, JudgeAll(g, orders, state))
    decreases |orders|
  {
    if orders == [] {
      assert [] + [o] == [o] && [o][1..] == [];
      assert JudgeAll(g, [o], state) == JudgeAll(g, [], Judge(g, o, state));
    } else {
      assert (orders + [o])[1..] == orders[1..] + [o];
      JudgeNext(g, orders[1..], o, Judge(g, orders[0], state));
    }
  }

  /** The order is accepted, counted and carried out; a position that is gone is no longer listed. */
  ghost predicate Passes(g: Setting, o: Order, before: Gate, after: Gate) {
    && after.accepted == before.accepted + [o] && after.refused == before.refused
    && after.notional == before.notional + o.shares as real * PriceOf(g.prices, o.symbol)
    && (forall s :: Held(after.holdings, s) == LeftOf(before.holdings, o, s))
    && (o.symbol in after.holdings <==> LeftOf(before.holdings, o, o.symbol) > 0)
  }

  /** The order is noted as refused by this rule, and nothing else happens. */
  predicate IsRefused(o: Order, rule: Rule, before: Gate, after: Gate) {
    after == before.(refused := before.refused + [Refusal(o, rule)])
  }

  lemma JudgedExactly(g: Setting, o: Order, before: Gate) returns (verdict: Option<Rule>)
    requires Sound(g, o, before.holdings)
    ensures FirstOf(verdict, 0, 13, g, o, before.notional, FiguresOf(g, o, before.holdings))
    ensures var after := Judge(g, o, before);
      if verdict.None? then Passes(g, o, before, after) else IsRefused(o, verdict.value, before, after)
  {
    verdict := Failure(g, o, before);
    RefusedExactly(g, o, before);
    AdmittedPasses(g, o, before);
  }

  lemma AdmittedPasses(g: Setting, o: Order, before: Gate)
    ensures Passes(g, o, before, Admit(g, o, before))
  {
    forall s ensures Held(ApplyDelta(before.holdings, o.symbol, Delta(o)), s) == LeftOf(before.holdings, o, s) {
      LeftIsHeld(before.holdings, o, s);
    }
  }

  /** The gate goes through the orders one after another: each is refused by the first rule it breaks beside those
      accepted before it, or it breaks none and is accepted, counted and carried out. */
  lemma EachIsJudged(g: Setting, orders: seq<Order>, i: nat, holdings: map<string, int>)
    returns (before: Gate, verdict: Option<Rule>)
    requires i < |orders| && Sound(g, orders[i], Evaluate(g, orders[..i], holdings).holdings)
    ensures before == Evaluate(g, orders[..i], holdings)
    ensures FirstOf(verdict, 0, 13, g, orders[i], before.notional, FiguresOf(g, orders[i], before.holdings))
    ensures var after := Evaluate(g, orders[..i + 1], holdings);
      if verdict.None? then Passes(g, orders[i], before, after)
      else IsRefused(orders[i], verdict.value, before, after)
  {
    before := Evaluate(g, orders[..i], holdings);
    assert orders[..i + 1] == orders[..i] + [orders[i]];
    JudgeNext(g, orders[..i], orders[i], Gate([], [], 0.0, holdings));
    verdict := JudgedExactly(g, orders[i], before);
  }
}
