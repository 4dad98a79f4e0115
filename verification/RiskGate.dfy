/** The sequential pre-trade risk gate, ez/live/risk.py. */
module RiskGate {
  import opened Options
  import opened Reals
  import opened Ledger
  import opened Orders
  import opened CapitalPolicy
  import opened KeySums

  datatype Config = Config(
    killSwitch: bool, maxOrderNotional: Option<real>, maxPositionWeight: Option<real>, maxDailyTurnover: Option<real>,
    maxConcentration: Option<real>, maxGrossExposure: Option<real>)

  /** What the gate is configured with and looks at. */
  datatype Setting = Setting(config: Config, policy: Option<Policy>, paperBroker: bool, prices: map<string, real>,
                             equity: real)

  datatype Refusal = Refusal(order: Order, rule: Rule)

  datatype Gate = Gate(accepted: seq<Order>, refused: seq<Refusal>, notional: real, holdings: map<string, int>)

  function PriceOf(prices: map<string, real>, symbol: string): real { if symbol in prices then prices[symbol] else 0.0 }

  function Delta(o: Order): int { if o.side.Buy? then o.shares else -o.shares }

  function ApplyDelta(holdings: map<string, int>, symbol: string, delta: int): map<string, int> {
    var next := Held(holdings, symbol) + delta;
    if next > 0 then holdings[symbol := next] else holdings - {symbol}
  }

  /** The value of a long, priced position; 0 for any other. */
  function Value(shares: int, price: real): real {
    if shares <= 0 || price <= 0.0 then 0.0 else shares as real * price
  }

  function ValueIn(holdings: map<string, int>, prices: map<string, real>): string -> real {
    (s: string) => Value(Held(holdings, s), PriceOf(prices, s))
  }

  function WeightIn(holdings: map<string, int>, prices: map<string, real>, equity: real): string -> real {
    (s: string) => WeightOf(Held(holdings, s), PriceOf(prices, s), equity)
  }

  function WeightOf(shares: int, price: real, equity: real): real {
    if equity <= 0.0 then 0.0 else Value(shares, price) / equity
  }

  ghost function Exposure(holdings: map<string, int>, prices: map<string, real>): real {
    SumOver(holdings.Keys, ValueIn(holdings, prices))
  }

  ghost function GrossExposureOf(holdings: map<string, int>, prices: map<string, real>, equity: real): real {
    SumOver(holdings.Keys, WeightIn(holdings, prices, equity))
  }

  ghost function MaxWeight(holdings: map<string, int>, prices: map<string, real>, equity: real): real {
    Greatest(holdings.Keys, WeightIn(holdings, prices, equity))
  }

  /** The portfolio figures the rules compare. */
  datatype Metrics = Metrics(gross: real, maxWeight: real, weights: map<string, real>)

  ghost function MetricsOf(holdings: map<string, int>, prices: map<string, real>, equity: real): Metrics {
    var w := WeightIn(holdings, prices, equity);
    Metrics(GrossExposureOf(holdings, prices, equity), MaxWeight(holdings, prices, equity),
            Positive(holdings.Keys, w))
  }

  ghost function Positive(keys: set<string>, w: string -> real): map<string, real> {
    map s | s in keys && w(s) > 0.0 :: w(s)
  }

  function CapitalFailure(g: Setting, o: Order, notional: real, holdings: map<string, int>, dayNotional: real,
                          exposure: real): Option<Rule>
  {
    if g.policy.None? then None
    else CheckOrder(g.policy.value, o.symbol, o.side, notional,
                    Held(holdings, o.symbol) as real * PriceOf(g.prices, o.symbol),
                    exposure, dayNotional, g.paperBroker)
  }

  predicate Exceeds(x: real, cap: Option<real>) { cap.Some? && x > cap.value + TOLERANCE }

  function RejectFailure(g: Setting, o: Order, notional: real, dayNotional: real, after: Metrics): Option<Rule> {
    var c := g.config;
    if c.killSwitch then Some(KillSwitch)
    else if Exceeds(notional, c.maxOrderNotional) then Some(OrderNotional)
    else if c.maxDailyTurnover.Some? && g.equity > 0.0
      && dayNotional + notional > g.equity * c.maxDailyTurnover.value + TOLERANCE
      then Some(DailyTurnover)
    else if PriceOf(g.prices, o.symbol) <= 0.0 || g.equity <= 0.0 then None
    else if o.side.Buy? && Exceeds(if o.symbol in after.weights then after.weights[o.symbol] else 0.0,
                                   c.maxPositionWeight)
      then Some(PositionWeight)
    else if Exceeds(after.maxWeight, c.maxConcentration) then Some(Concentration)
    else if o.side.Buy? && Exceeds(after.gross, c.maxGrossExposure) then Some(GrossExposure)
    else None
  }

  function NotionalOf(g: Setting, o: Order): real { o.shares as real * PriceOf(g.prices, o.symbol) }

  /** The capital policy speaks first. */
  ghost function Failure(g: Setting, o: Order, state: Gate): Option<Rule> {
    var notional := NotionalOf(g, o);
    var capital := CapitalFailure(g, o, notional, state.holdings, state.notional, Exposure(state.holdings, g.prices));
    if capital.Some? then capital
    else RejectFailure(g, o, notional, state.notional,
                       MetricsOf(ApplyDelta(state.holdings, o.symbol, Delta(o)), g.prices, g.equity))
  }

  function Admit(g: Setting, o: Order, state: Gate): Gate {
    Gate(state.accepted + [o], state.refused, state.notional + NotionalOf(g, o),
         ApplyDelta(state.holdings, o.symbol, Delta(o)))
  }

  ghost function Judge(g: Setting, o: Order, state: Gate): Gate {
    var f := Failure(g, o, state);
    if f.Some? then state.(refused := state.refused + [Refusal(o, f.value)]) else Admit(g, o, state)
  }

  ghost function JudgeAll(g: Setting, orders: seq<Order>, state: Gate): Gate
    decreases |orders|
  {
    if orders == [] then state else JudgeAll(g, orders[1..], Judge(g, orders[0], state))
  }

  ghost function Evaluate(g: Setting, orders: seq<Order>, holdings: map<string, int>): Gate {
    JudgeAll(g, orders, Gate([], [], 0.0, holdings))
  }

  // ---- the gate as the code has it -------------------------------------------------------

  /** One step of a walk over a dict's keys that adds up `f`. */
  lemma AddKey(rest: set<string>, f: string -> real, s: string, total: real, whole: real)
    requires s in rest && total + SumOver(rest, f) == whole
    ensures total + f(s) + SumOver(rest - {s}, f) == whole
  {
    TakeOut(rest, f, s);
  }

  method TotalExposureOf(holdings: map<string, int>, prices: map<string, real>) returns (total: real)
    ensures total == Exposure(holdings, prices)
  {
    total := 0.0;
    ghost var f, whole := ValueIn(holdings, prices), Exposure(holdings, prices);
    var rest := holdings.Keys;
    while rest != {}
      invariant rest <= holdings.Keys
      invariant total + SumOver(rest, f) == whole
    {
      var s :| s in rest;
      AddKey(rest, f, s, total, whole);
      rest := rest - {s};
      total := total + Value(holdings[s], PriceOf(prices, s));
    }
    SumOfNothing(f);
  }

  lemma NoEquity(holdings: map<string, int>, prices: map<string, real>, equity: real)
    requires equity <= 0.0
    ensures MetricsOf(holdings, prices, equity) == Metrics(0.0, 0.0, map[])
  {
    NoWeights(holdings.Keys, WeightIn(holdings, prices, equity));
  }

  method PortfolioMetrics(holdings: map<string, int>, prices: map<string, real>, equity: real) returns (m: Metrics)
    ensures m == MetricsOf(holdings, prices, equity)
  {
    ghost var w, whole := WeightIn(holdings, prices, equity), GrossExposureOf(holdings, prices, equity);
    if equity <= 0.0 {
      NoEquity(holdings, prices, equity);
      return Metrics(0.0, 0.0, map[]);
    }
    var weights: map<string, real>, gross, greatest := map[], 0.0, 0.0;
    var rest := holdings.Keys;
    ghost var done: set<string> := {};
    while rest != {}
      invariant done + rest == holdings.Keys && done !! rest
      invariant Measured(done, rest, w, weights, gross, greatest, whole)
    {
      var s :| s in rest;
      var weight := WeightOf(holdings[s], PriceOf(prices, s), equity);
      NextMetrics(done, rest, s, w, weights, gross, greatest, weight, whole);
      rest, done := rest - {s}, done + {s};
      gross := gross + weight;
      if weight <= 0.0 { continue; }
      weights := weights[s := weight];
      greatest := Max(greatest, weight);
    }
    AllMeasured(holdings, prices, equity, done, rest, weights, gross, greatest);
    m := Metrics(gross, greatest, weights);
  }

  /** When every holding has been measured the figures are those of the portfolio. */
  lemma AllMeasured(holdings: map<string, int>, prices: map<string, real>, equity: real, done: set<string>,
                    rest: set<string>, weights: map<string, real>, gross: real, greatest: real)
    requires done + rest == holdings.Keys && rest == {}
    requires Measured(done, rest, WeightIn(holdings, prices, equity), weights, gross, greatest,
                      GrossExposureOf(holdings, prices, equity))
    ensures Metrics(gross, greatest, weights) == MetricsOf(holdings, prices, equity)
  {
    var w := WeightIn(holdings, prices, equity);
    assert done == holdings.Keys;
    SumOfNothing(w);
    GreatestIsUnique(done, w, greatest);
  }

  /** The figures of the keys in `done`; `rest` still has to be added. */
  ghost predicate Measured(done: set<string>, rest: set<string>, w: string -> real, weights: map<string, real>,
                           gross: real, greatest: real, whole: real)
  {
    gross + SumOver(rest, w) == whole && IsGreatest(done, w, greatest) && weights == Positive(done, w)
  }

  lemma NextMetrics(done: set<string>, rest: set<string>, s: string, w: string -> real, weights: map<string, real>,
                    gross: real, greatest: real, weight: real, whole: real)
    requires Measured(done, rest, w, weights, gross, greatest, whole) && s in rest && s !in done && weight == w(s)
    ensures weight <= 0.0 ==> Measured(done + {s}, rest - {s}, w, weights, gross + weight, greatest, whole)
    ensures weight > 0.0 ==> Measured(done + {s}, rest - {s}, w, weights[s := weight], gross + weight,
                                      Max(greatest, weight), whole)
  {
    AddKey(rest, w, s, gross, whole);
    NextWeight(done, s, w, greatest);
  }

  /** The running figures when one more key has been looked at. */
  lemma NextWeight(done: set<string>, s: string, w: string -> real, greatest: real)
    requires s !in done && IsGreatest(done, w, greatest)
    ensures IsGreatest(done + {s}, w, Max(greatest, w(s)))
    ensures Positive(done + {s}, w) == if w(s) > 0.0 then Positive(done, w)[s := w(s)] else Positive(done, w)
  {
    var m := Max(greatest, w(s));
    if m != 0.0 && m == greatest && m != w(s) {
      var k :| k in done && w(k) == m;
      assert k in done + {s};
    }
  }

  lemma {:induction false} NoWeights(keys: set<string>, w: string -> real)
    requires forall k | k in keys :: w(k) == 0.0
    ensures SumOver(keys, w) == 0.0 && Greatest(keys, w) == 0.0
    decreases |keys|
  {
    if keys != {} {
      var k :| k in keys;
      TakeOut(keys, w, k);
      NoWeights(keys - {k}, w);
    }
  }

  method EvaluateOrders(g: Setting, orders: seq<Order>, holdings: map<string, int>) returns (state: Gate)
    ensures state == Evaluate(g, orders, holdings)
  {
    state := Gate([], [], 0.0, holdings);
    for i := 0 to |orders|
      invariant JudgeAll(g, orders[i..], state) == Evaluate(g, orders, holdings)
    {
      var o := orders[i];
      assert orders[i..][1..] == orders[i + 1..];
      var f := JudgeOrder(g, o, state);
      state := if f.Some? then state.(refused := state.refused + [Refusal(o, f.value)]) else Admit(g, o, state);
    }
  }

  method JudgeOrder(g: Setting, o: Order, state: Gate) returns (f: Option<Rule>)
    ensures f == Failure(g, o, state)
  {
    var notional := NotionalOf(g, o);
    var metrics := PortfolioMetrics(ApplyDelta(state.holdings, o.symbol, Delta(o)), g.prices, g.equity);
    var exposure := TotalExposureOf(state.holdings, g.prices);
    f := CapitalFailure(g, o, notional, state.holdings, state.notional, exposure);
    if f.None? { f := RejectFailure(g, o, notional, state.notional, metrics); }
  }
}
