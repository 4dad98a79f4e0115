/** What the sequential gate guarantees about any list of orders (ez/live/risk.py, ez/live/capital_policy.py). */
module RiskLaws {
  import opened Options
  import opened Reals
  import opened Events
  import opened Ledger
  import opened Orders
  import opened CapitalPolicy
  import opened KeySums
  import opened RiskGate

  // ---- one order changes the figures of one symbol ---------------------------------------

  lemma HeldAfter(holdings: map<string, int>, symbol: string, delta: int, s: string)
    ensures Held(ApplyDelta(holdings, symbol, delta), s)
         == if s != symbol then Held(holdings, s) else if Held(holdings, s) + delta > 0 then Held(holdings, s) + delta
           else 0
    ensures ApplyDelta(holdings, symbol, delta).Keys - {symbol} == holdings.Keys - {symbol}
  {
  }

  /** Two sums that differ at one key only. */
  lemma SumChanges(before: set<string>, f: string -> real, after: set<string>, g: string -> real, s: string)
    requires before - {s} == after - {s} && (forall k | k in before - {s} :: f(k) == g(k) && f(k) >= 0.0)
    requires (s !in before ==> f(s) == 0.0) && (s !in after ==> g(s) == 0.0)
    ensures SumOver(after, g) == SumOver(before, f) - f(s) + g(s)
  {
    SumGrows(before - {s}, f, after - {s}, g);
    SumGrows(after - {s}, g, before - {s}, f);
    if s in before { TakeOut(before, f, s); } else { assert before - {s} == before; }
    if s in after { TakeOut(after, g, s); } else { assert after - {s} == after; }
  }

  lemma ExposureAfter(holdings: map<string, int>, prices: map<string, real>, symbol: string, delta: int)
    ensures var after := ApplyDelta(holdings, symbol, delta);
      Exposure(after, prices)
        == Exposure(holdings, prices) - ValueIn(holdings, prices)(symbol) + ValueIn(after, prices)(symbol)
  {
    var after := ApplyDelta(holdings, symbol, delta);
    var f, g := ValueIn(holdings, prices), ValueIn(after, prices);
    forall k | k in holdings.Keys - {symbol} ensures f(k) == g(k) && f(k) >= 0.0 {
      HeldAfter(holdings, symbol, delta, k);
      ValueIsNotNegative(Held(holdings, k), PriceOf(prices, k));
    }
    HeldAfter(holdings, symbol, delta, symbol);
    SumChanges(holdings.Keys, f, after.Keys, g, symbol);
  }

  lemma GrossAfter(holdings: map<string, int>, prices: map<string, real>, equity: real, symbol: string, delta: int)
    ensures var after := ApplyDelta(holdings, symbol, delta);
      GrossExposureOf(after, prices, equity)
        == GrossExposureOf(holdings, prices, equity) - WeightIn(holdings, prices, equity)(symbol)
          + WeightIn(after, prices, equity)(symbol)
  {
    var after := ApplyDelta(holdings, symbol, delta);
    var f, g := WeightIn(holdings, prices, equity), WeightIn(after, prices, equity);
    forall k | k in holdings.Keys - {symbol} ensures f(k) == g(k) && f(k) >= 0.0 {
      HeldAfter(holdings, symbol, delta, k);
      WeightIsNotNegative(Held(holdings, k), PriceOf(prices, k), equity);
    }
    HeldAfter(holdings, symbol, delta, symbol);
    SumChanges(holdings.Keys, f, after.Keys, g, symbol);
  }

  lemma ValueIsNotNegative(shares: int, price: real)
    ensures Value(shares, price) >= 0.0
  {
    if shares > 0 && price > 0.0 { MulOrder(0.0, shares as real, price); }
  }

  lemma LargerPositionIsWorthMore(a: int, b: int, price: real)
    requires a <= b
    ensures Value(a, price) <= Value(b, price)
  {
    if price > 0.0 { MulOrder(a as real, b as real, price); ValueIsNotNegative(b, price); }
  }

  lemma WeightIsNotNegative(shares: int, price: real, equity: real)
    ensures WeightOf(shares, price, equity) >= 0.0
  {
    ValueIsNotNegative(shares, price);
    if equity > 0.0 { SmallerQuotient(0.0, Value(shares, price), equity); }
  }

  lemma LargerPositionWeighsMore(a: int, b: int, price: real, equity: real)
    requires a <= b
    ensures WeightOf(a, price, equity) <= WeightOf(b, price, equity)
  {
    LargerPositionIsWorthMore(a, b, price);
    if equity > 0.0 { SmallerQuotient(Value(a, price), Value(b, price), equity); }
  }

  lemma SmallerQuotient(x: real, y: real, d: real)
    requires x <= y && d > 0.0
    ensures x / d <= y / d
  {
  }

  /** Buying adds at most the order's notional to the position's value. */
  lemma BuyAddsItsNotional(held: int, shares: int, price: real)
    requires shares > 0 && price > 0.0
    ensures Value(held + shares, price) <= Value(held, price) + shares as real * price
    ensures held + shares > 0 ==> Value(held + shares, price) == held as real * price + shares as real * price
  {
    Distribute(price, held as real, shares as real);
    MulOrder(0.0, shares as real, price);
    if held <= 0 { MulOrder(held as real, 0.0, price); }
  }

  // ---- the limits --------------------------------------------------------------------------

  /** `x` has not risen above where it was, except to somewhere within the cap. */
  predicate Within(x: real, start: real, cap: Option<real>) {
    x <= start || cap.None? || x <= cap.value + TOLERANCE
  }

  /** The limits the capital policy sets, if any. */
  function StageCaps(g: Setting): Option<StageLimits> {
    if g.policy.Some? && EffectiveStage(g.policy.value) in g.policy.value.limits
    then Some(g.policy.value.limits[EffectiveStage(g.policy.value)]) else None
  }

  ghost predicate BudgetsHold(g: Setting, state: Gate) {
    state.accepted != [] ==>
      && (g.config.maxDailyTurnover.Some? && g.equity > 0.0 ==>
            state.notional <= g.equity * g.config.maxDailyTurnover.value + TOLERANCE)
      && (StageCaps(g).Some? ==> state.notional <= StageCaps(g).value.maxCapitalPerDay + TOLERANCE)
  }

  ghost predicate PositionsHold(g: Setting, start: map<string, int>, holdings: map<string, int>) {
    forall s ::
      && Within(WeightIn(holdings, g.prices, g.equity)(s), WeightIn(start, g.prices, g.equity)(s),
                g.config.maxPositionWeight)
      && (StageCaps(g).Some? ==>
            Within(ValueIn(holdings, g.prices)(s), ValueIn(start, g.prices)(s),
                   Some(StageCaps(g).value.maxPositionValue)))
  }

  ghost predicate ExposuresHold(g: Setting, start: map<string, int>, holdings: map<string, int>) {
    && Within(GrossExposureOf(holdings, g.prices, g.equity), GrossExposureOf(start, g.prices, g.equity),
              g.config.maxGrossExposure)
    && (StageCaps(g).Some? ==>
          Within(Exposure(holdings, g.prices), Exposure(start, g.prices), Some(StageCaps(g).value.maxGrossExposure)))
  }

  /** No weight has changed, or every weight is within the concentration cap. */
  ghost predicate ConcentrationHolds(g: Setting, start: map<string, int>, holdings: map<string, int>) {
    var w := WeightIn(holdings, g.prices, g.equity);
    || g.config.maxConcentration.None?
    || (forall s :: w(s) == WeightIn(start, g.prices, g.equity)(s))
    || (forall s :: w(s) > 0.0 ==> w(s) <= g.config.maxConcentration.value + TOLERANCE)
  }

  ghost predicate LimitsHold(g: Setting, start: map<string, int>, state: Gate) {
    && BudgetsHold(g, state) && PositionsHold(g, start, state.holdings)
    && ExposuresHold(g, start, state.holdings) && ConcentrationHolds(g, start, state.holdings)
  }

  // ---- one order ---------------------------------------------------------------------------

  lemma AdmittedWithinBudgets(g: Setting, o: Order, state: Gate)
    requires Failure(g, o, state).None?
    ensures BudgetsHold(g, Admit(g, o, state))
  {
  }

  /** A free order, or one that cannot be weighed, changes no figure. */
  lemma UnpricedChangesNothing(g: Setting, o: Order, holdings: map<string, int>, s: string)
    requires PriceOf(g.prices, o.symbol) <= 0.0
    ensures var after := ApplyDelta(holdings, o.symbol, Delta(o));
      && ValueIn(after, g.prices)(s) == ValueIn(holdings, g.prices)(s)
      && WeightIn(after, g.prices, g.equity)(s) == WeightIn(holdings, g.prices, g.equity)(s)
  {
    HeldAfter(holdings, o.symbol, Delta(o), s);
  }

  /** A sale raises no figure. */
  lemma SaleRaisesNothing(g: Setting, o: Order, holdings: map<string, int>, s: string)
    requires o.side.Sell? && o.shares > 0
    ensures var after := ApplyDelta(holdings, o.symbol, Delta(o));
      && ValueIn(after, g.prices)(s) <= ValueIn(holdings, g.prices)(s)
      && WeightIn(after, g.prices, g.equity)(s) <= WeightIn(holdings, g.prices, g.equity)(s)
  {
    HeldAfter(holdings, o.symbol, Delta(o), s);
    var before, now := Held(holdings, s), Held(ApplyDelta(holdings, o.symbol, Delta(o)), s);
    if now <= before {
      LargerPositionIsWorthMore(now, before, PriceOf(g.prices, s));
      LargerPositionWeighsMore(now, before, PriceOf(g.prices, s), g.equity);
    }
  }

  /** What the capital policy has checked of a buy. */
  lemma CapitalSays(p: Policy, symbol: string, notional: real, positionValue: real, exposure: real, dayNotional: real,
                    paperBroker: bool)
    requires CheckOrder(p, symbol, Buy, notional, positionValue, exposure, dayNotional, paperBroker).None?
      && EffectiveStage(p) in p.limits
    ensures positionValue + notional <= p.limits[EffectiveStage(p)].maxPositionValue + TOLERANCE
    ensures exposure + notional <= p.limits[EffectiveStage(p)].maxGrossExposure + TOLERANCE
  {
  }

  /** What the gate's own rules have checked of a buy. */
  lemma RulesSay(g: Setting, o: Order, notional: real, dayNotional: real, after: Metrics)
    requires RejectFailure(g, o, notional, dayNotional, after).None? && o.side.Buy? && PriceOf(g.prices, o.symbol) > 0.0
      && g.equity > 0.0
    ensures !Exceeds(if o.symbol in after.weights then after.weights[o.symbol] else 0.0, g.config.maxPositionWeight)
    ensures !Exceeds(after.gross, g.config.maxGrossExposure)
  {
  }

  lemma BothAgree(g: Setting, o: Order, state: Gate)
    requires Failure(g, o, state).None?
    ensures CapitalFailure(g, o, NotionalOf(g, o), state.holdings, state.notional,
                           Exposure(state.holdings, g.prices)).None?
    ensures RejectFailure(g, o, NotionalOf(g, o), state.notional,
                          MetricsOf(ApplyDelta(state.holdings, o.symbol, Delta(o)), g.prices, g.equity)).None?
  {
  }

  /** A buy the capital policy lets through stays within the stage's caps. */
  lemma BoughtWithinStageCaps(g: Setting, o: Order, holdings: map<string, int>, dayNotional: real, notional: real,
                              exposure: real)
    requires CapitalFailure(g, o, notional, holdings, dayNotional, exposure).None? && StageCaps(g).Some?
    requires o.side.Buy? && o.shares > 0 && PriceOf(g.prices, o.symbol) > 0.0
    requires notional == NotionalOf(g, o) && exposure == Exposure(holdings, g.prices)
    ensures var after := ApplyDelta(holdings, o.symbol, Delta(o));
      && Within(ValueIn(after, g.prices)(o.symbol), 0.0, Some(StageCaps(g).value.maxPositionValue))
      && Exposure(after, g.prices) <= StageCaps(g).value.maxGrossExposure + TOLERANCE
  {
    var held, price := Held(holdings, o.symbol), PriceOf(g.prices, o.symbol);
    var linear, before, now := held as real * price, Value(held, price), Value(held + o.shares, price);
    assert now <= before + notional && (held + o.shares > 0 ==> now == linear + notional) by {
      BuyAddsItsNotional(held, o.shares, price);
    }
    CapitalAgrees(g, o, notional, holdings, dayNotional, exposure, linear);
    StageCapsAfter(g, o, holdings);
    BoughtArithmetic(before, now, linear, notional, exposure,
                     Exposure(ApplyDelta(holdings, o.symbol, Delta(o)), g.prices),
                     StageCaps(g).value, held + o.shares > 0);
  }

  lemma CapitalAgrees(g: Setting, o: Order, notional: real, holdings: map<string, int>, dayNotional: real,
                      exposure: real, positionValue: real)
    requires CapitalFailure(g, o, notional, holdings, dayNotional, exposure).None? && o.side.Buy? && StageCaps(g).Some?
    requires positionValue == Held(holdings, o.symbol) as real * PriceOf(g.prices, o.symbol)
    ensures positionValue + notional <= StageCaps(g).value.maxPositionValue + TOLERANCE
    ensures exposure + notional <= StageCaps(g).value.maxGrossExposure + TOLERANCE
  {
    CapitalSays(g.policy.value, o.symbol, notional, positionValue, exposure, dayNotional, g.paperBroker);
  }

  lemma BoughtArithmetic(before: real, after: real, linear: real, notional: real, exposure: real, exposureAfter: real,
                         caps: StageLimits, long: bool)
    requires linear + notional <= caps.maxPositionValue + TOLERANCE
      && exposure + notional <= caps.maxGrossExposure + TOLERANCE
    requires after <= before + notional && exposureAfter <= exposure - before + after
      && (long ==> after == linear + notional)
    ensures long ==> after <= caps.maxPositionValue + TOLERANCE
    ensures exposureAfter <= caps.maxGrossExposure + TOLERANCE
  {
  }

  lemma StageCapsAfter(g: Setting, o: Order, holdings: map<string, int>)
    requires o.side.Buy? && o.shares > 0
    ensures var after := ApplyDelta(holdings, o.symbol, Delta(o));
      && ValueIn(after, g.prices)(o.symbol)
           == (if Held(holdings, o.symbol) + o.shares > 0
               then Value(Held(holdings, o.symbol) + o.shares, PriceOf(g.prices, o.symbol)) else 0.0)
      && Exposure(after, g.prices) <= Exposure(holdings, g.prices)
           - Value(Held(holdings, o.symbol), PriceOf(g.prices, o.symbol)) + Value(Held(holdings, o.symbol) + o.shares,
               PriceOf(g.prices, o.symbol))
  {
    HeldAfter(holdings, o.symbol, Delta(o), o.symbol);
    ExposureAfter(holdings, g.prices, o.symbol, Delta(o));
    ValueIsNotNegative(Held(holdings, o.symbol) + o.shares, PriceOf(g.prices, o.symbol));
  }

  /** An admitted, priced buy leaves its symbol's weight and the gross exposure within their caps. */
  lemma BoughtWithinWeights(g: Setting, o: Order, state: Gate)
    requires Failure(g, o, state).None? && o.side.Buy? && PriceOf(g.prices, o.symbol) > 0.0
    ensures var after := ApplyDelta(state.holdings, o.symbol, Delta(o));
      && Within(WeightIn(after, g.prices, g.equity)(o.symbol), 0.0, g.config.maxPositionWeight)
      && Within(GrossExposureOf(after, g.prices, g.equity), 0.0, g.config.maxGrossExposure)
  {
    var after := ApplyDelta(state.holdings, o.symbol, Delta(o));
    if g.equity <= 0.0 {
      NoWeights(after.Keys, WeightIn(after, g.prices, g.equity));
    } else {
      BothAgree(g, o, state);
      RulesSay(g, o, NotionalOf(g, o), state.notional, MetricsOf(after, g.prices, g.equity));
      ShownWeight(after, g.prices, g.equity, o.symbol);
    }
  }

  /** A weight the metrics leave out is 0. */
  lemma ShownWeight(holdings: map<string, int>, prices: map<string, real>, equity: real, s: string)
    ensures var shown := MetricsOf(holdings, prices, equity).weights;
      (if s in shown then shown[s] else 0.0) == WeightIn(holdings, prices, equity)(s)
  {
    WeightIsNotNegative(Held(holdings, s), PriceOf(prices, s), equity);
  }

  /** An admitted, priced order leaves every weight within the concentration cap. */
  lemma AdmittedWithinConcentration(g: Setting, o: Order, state: Gate)
    requires Failure(g, o, state).None? && PriceOf(g.prices, o.symbol) > 0.0
    ensures var after := ApplyDelta(state.holdings, o.symbol, Delta(o));
      forall s :: Within(WeightIn(after, g.prices, g.equity)(s), 0.0, g.config.maxConcentration)
  {
    var after := ApplyDelta(state.holdings, o.symbol, Delta(o));
    GreatestWithinConcentration(g, o, state);
    WeightsBelow(after, g.prices, g.equity, g.config.maxConcentration);
  }

  lemma GreatestWithinConcentration(g: Setting, o: Order, state: Gate)
    requires Failure(g, o, state).None? && PriceOf(g.prices, o.symbol) > 0.0
    ensures var after := ApplyDelta(state.holdings, o.symbol, Delta(o));
      g.equity > 0.0 ==> Within(MaxWeight(after, g.prices, g.equity), 0.0, g.config.maxConcentration)
  {
  }

  lemma WeightsBelow(holdings: map<string, int>, prices: map<string, real>, equity: real, cap: Option<real>)
    requires equity > 0.0 ==> Within(MaxWeight(holdings, prices, equity), 0.0, cap)
    ensures forall s :: Within(WeightIn(holdings, prices, equity)(s), 0.0, cap)
  {
    var w := WeightIn(holdings, prices, equity);
    forall s ensures Within(w(s), 0.0, cap) {
      if s in holdings && equity > 0.0 { WeightBelowGreatest(holdings, prices, equity, s); }
    }
  }

  lemma WeightBelowGreatest(holdings: map<string, int>, prices: map<string, real>, equity: real, s: string)
    requires s in holdings
    ensures WeightIn(holdings, prices, equity)(s) <= MaxWeight(holdings, prices, equity)
  {
    assert IsGreatest(holdings.Keys, WeightIn(holdings, prices, equity), MaxWeight(holdings, prices, equity));
  }

  // ---- each limit is kept --------------------------------------------------------------------

  lemma PositionsKept(g: Setting, start: map<string, int>, o: Order, state: Gate)
    requires Failure(g, o, state).None? && o.shares > 0 && PositionsHold(g, start, state.holdings)
    ensures PositionsHold(g, start, ApplyDelta(state.holdings, o.symbol, Delta(o)))
  {
    var after := ApplyDelta(state.holdings, o.symbol, Delta(o));
    var w, w0, v, v0 := WeightIn(after, g.prices, g.equity), WeightIn(start, g.prices, g.equity),
        ValueIn(after, g.prices), ValueIn(start, g.prices);
    forall s
      ensures Within(w(s), w0(s), g.config.maxPositionWeight)
      ensures StageCaps(g).Some? ==> Within(v(s), v0(s), Some(StageCaps(g).value.maxPositionValue))
    {
      WeightIsNotNegative(Held(start, s), PriceOf(g.prices, s), g.equity);
      ValueIsNotNegative(Held(start, s), PriceOf(g.prices, s));
      assert Within(WeightIn(state.holdings, g.prices, g.equity)(s), w0(s), g.config.maxPositionWeight);
      HeldAfter(state.holdings, o.symbol, Delta(o), s);
      if o.side.Sell? {
        SaleRaisesNothing(g, o, state.holdings, s);
      } else if PriceOf(g.prices, o.symbol) <= 0.0 {
        UnpricedChangesNothing(g, o, state.holdings, s);
      } else {
        BoughtWithinWeights(g, o, state);
        BothAgree(g, o, state);
        if StageCaps(g).Some? {
          BoughtWithinStageCaps(g, o, state.holdings, state.notional, NotionalOf(g, o),
                                Exposure(state.holdings, g.prices));
        }
      }
    }
  }

  lemma ExposuresKept(g: Setting, start: map<string, int>, o: Order, state: Gate)
    requires Failure(g, o, state).None? && o.shares > 0 && ExposuresHold(g, start, state.holdings)
    ensures ExposuresHold(g, start, ApplyDelta(state.holdings, o.symbol, Delta(o)))
  {
    ExposureAfter(state.holdings, g.prices, o.symbol, Delta(o));
    GrossAfter(state.holdings, g.prices, g.equity, o.symbol, Delta(o));
    if o.side.Sell? {
      SaleRaisesNothing(g, o, state.holdings, o.symbol);
    } else if PriceOf(g.prices, o.symbol) <= 0.0 {
      UnpricedChangesNothing(g, o, state.holdings, o.symbol);
    } else {
      BoughtWithinWeights(g, o, state);
      GrossIsNotNegative(start, g.prices, g.equity);
      BothAgree(g, o, state);
      if StageCaps(g).Some? {
        BoughtWithinStageCaps(g, o, state.holdings, state.notional, NotionalOf(g, o),
                              Exposure(state.holdings, g.prices));
      }
    }
  }

  lemma GrossIsNotNegative(holdings: map<string, int>, prices: map<string, real>, equity: real)
    ensures GrossExposureOf(holdings, prices, equity) >= 0.0
  {
    var w := WeightIn(holdings, prices, equity);
    forall k | k in holdings.Keys
      ensures w(k) >= 0.0
    {
      WeightIsNotNegative(Held(holdings, k), PriceOf(prices, k), equity);
    }
    SumGrows({}, w, holdings.Keys, w);
  }

  lemma ConcentrationKept(g: Setting, start: map<string, int>, o: Order, state: Gate)
    requires Failure(g, o, state).None? && ConcentrationHolds(g, start, state.holdings)
    ensures ConcentrationHolds(g, start, ApplyDelta(state.holdings, o.symbol, Delta(o)))
  {
    var after := ApplyDelta(state.holdings, o.symbol, Delta(o));
    var w, w', cap := WeightIn(after, g.prices, g.equity), WeightIn(state.holdings, g.prices, g.equity),
        g.config.maxConcentration;
    if PriceOf(g.prices, o.symbol) > 0.0 {
      AdmittedWithinConcentration(g, o, state);
      forall s | cap.Some? && w(s) > 0.0 ensures w(s) <= cap.value + TOLERANCE { assert Within(w(s), 0.0, cap); }
    } else {
      forall s ensures w(s) == w'(s) { UnpricedChangesNothing(g, o, state.holdings, s); }
    }
  }

  lemma JudgeKeepsLimits(g: Setting, start: map<string, int>, o: Order, state: Gate)
    requires o.shares > 0 && LimitsHold(g, start, state)
    ensures LimitsHold(g, start, Judge(g, o, state))
  {
    if Failure(g, o, state).None? {
      AdmittedWithinBudgets(g, o, state);
      PositionsKept(g, start, o, state);
      ExposuresKept(g, start, o, state);
      ConcentrationKept(g, start, o, state);
    }
  }

  lemma {:induction false} AllKeepLimits(g: Setting, start: map<string, int>, orders: seq<Order>, state: Gate)
    requires (forall o | o in orders :: o.shares > 0) && LimitsHold(g, start, state)
    ensures LimitsHold(g, start, JudgeAll(g, orders, state))
    decreases |orders|
  {
    if orders != [] {
      assert orders[0] in orders;
      JudgeKeepsLimits(g, start, orders[0], state);
      AllKeepLimits(g, start, orders[1..], Judge(g, orders[0], state));
    }
  }

  /** Whatever the orders, the budgets of the day are kept, no position and no exposure ends above where it
      started except within its cap, and weights that change at all end within the concentration cap. */
  lemma GateKeepsLimits(g: Setting, orders: seq<Order>, holdings: map<string, int>)
    requires forall o | o in orders :: o.shares > 0
    ensures LimitsHold(g, holdings, Evaluate(g, orders, holdings))
  {
    AllKeepLimits(g, holdings, orders, Gate([], [], 0.0, holdings));
  }

  // ---- every order is sorted out ---------------------------------------------------------------

  function OrdersOf(refused: seq<Refusal>): seq<Order>
  {
    seq(|refused|, i requires 0 <= i < |refused| => refused[i].order)
  }

  /** The notional of a list of orders, and the holdings once they are all carried out. */
  function TotalNotional(g: Setting, orders: seq<Order>): real {
    if orders == [] then 0.0 else TotalNotional(g, orders[..|orders| - 1]) + NotionalOf(g, orders[|orders| - 1])
  }

  function Projected(holdings: map<string, int>, orders: seq<Order>): map<string, int> {
    if orders == [] then holdings
    else var last := orders[|orders| - 1];
      ApplyDelta(Projected(holdings, orders[..|orders| - 1]), last.symbol, Delta(last))
  }

  ghost predicate Accounted(g: Setting, start: map<string, int>, seen: seq<Order>, state: Gate) {
    && multiset(state.accepted) + multiset(OrdersOf(state.refused)) == multiset(seen)
    && state.notional == TotalNotional(g, state.accepted)
    && state.holdings == Projected(start, state.accepted)
  }

  lemma JudgeAccounts(g: Setting, start: map<string, int>, seen: seq<Order>, o: Order, state: Gate)
    requires Accounted(g, start, seen, state)
    ensures Accounted(g, start, seen + [o], Judge(g, o, state))
  {
    var f := Failure(g, o, state);
    if f.Some? {
      RefusalAccounts(g, start, seen, o, state, f.value);
    } else {
      AdmissionAccounts(g, start, seen, o, state);
    }
  }

  lemma RefusalAccounts(g: Setting, start: map<string, int>, seen: seq<Order>, o: Order, state: Gate, rule: Rule)
    requires Accounted(g, start, seen, state)
    ensures Accounted(g, start, seen + [o], state.(refused := state.refused + [Refusal(o, rule)]))
  {
    assert OrdersOf(state.refused + [Refusal(o, rule)]) == OrdersOf(state.refused) + [o];
    OneMore(state.accepted, OrdersOf(state.refused), seen, o);
  }

  lemma AdmissionAccounts(g: Setting, start: map<string, int>, seen: seq<Order>, o: Order, state: Gate)
    requires Accounted(g, start, seen, state)
    ensures Accounted(g, start, seen + [o], Admit(g, o, state))
  {
    var accepted, refused := state.accepted, OrdersOf(state.refused);
    assert (accepted + [o])[..|accepted|] == accepted;
    assert multiset(accepted + [o]) + multiset(refused) == multiset(seen + [o]) by {
      OneMore(accepted, refused, seen, o);
    }
  }

  lemma OneMore(a: seq<Order>, b: seq<Order>, seen: seq<Order>, o: Order)
    requires multiset(a) + multiset(b) == multiset(seen)
    ensures multiset(a + [o]) + multiset(b) == multiset(seen + [o])
    ensures multiset(a) + multiset(b + [o]) == multiset(seen + [o])
  {
  }

  lemma {:induction false} AllAccounted(g: Setting, start: map<string, int>, seen: seq<Order>, orders: seq<Order>,
                                        state: Gate)
    requires Accounted(g, start, seen, state)
    ensures Accounted(g, start, seen + orders, JudgeAll(g, orders, state))
    decreases |orders|
  {
    if orders == [] {
      assert seen + orders == seen;
    } else {
      JudgeAccounts(g, start, seen, orders[0], state);
      AllAccounted(g, start, seen + [orders[0]], orders[1..], Judge(g, orders[0], state));
      assert seen + [orders[0]] + orders[1..] == seen + orders;
    }
  }

  /** Every order is either accepted or refused, once; the gate's running figures are those of the
      accepted orders carried out one after another. */
  lemma GateSortsOut(g: Setting, orders: seq<Order>, holdings: map<string, int>)
    ensures Accounted(g, holdings, orders, Evaluate(g, orders, holdings))
  {
    AllAccounted(g, holdings, [], orders, Gate([], [], 0.0, holdings));
    assert [] + orders == orders;
  }

  /** What an accepted order has passed, wherever it stood in the list. */
  ghost predicate Cleared(g: Setting, o: Order) {
    && !g.config.killSwitch
    && !Exceeds(NotionalOf(g, o), g.config.maxOrderNotional)
    && (g.policy.Some? ==>
          && RealEnough(g)
          && (StageCaps(g).Some? && StageCaps(g).value.allowed.Some? ==> o.symbol in StageCaps(g).value.allowed.value))
  }

  ghost predicate RealEnough(g: Setting)
    requires g.policy.Some?
  {
    !g.policy.value.currentStage.ReadOnly?
      && (g.paperBroker || (!g.policy.value.killSwitch && !g.policy.value.currentStage.PaperSim?))
  }

  lemma {:induction false} AcceptedAreCleared(g: Setting, orders: seq<Order>, state: Gate)
    requires forall o | o in state.accepted :: Cleared(g, o)
    ensures forall o | o in JudgeAll(g, orders, state).accepted :: Cleared(g, o)
    decreases |orders|
  {
    if orders != [] { AcceptedAreCleared(g, orders[1..], Judge(g, orders[0], state)); }
  }
}
