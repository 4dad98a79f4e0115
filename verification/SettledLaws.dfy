/** How close to the minimum the descent of ez/live/optimizer_allocator.py is when it stops because no weight moves by
    more than 1e-9. */
module SettledLaws {
  import opened Reals
  import opened Simplex
  import opened Refill
  import opened Allocator
  import opened GradientLaws
  import opened DescentLaws

  const SETTLED := 0.000000001

  predicate Within(x: seq<real>, bound: real) { forall i | 0 <= i < |x| :: -bound <= x[i] <= bound }

  // ---- small vectors -------------------------------------------------------------------

  /** A small vector along the way between two vectors that are not negative. */
  lemma SmallAlong(x: seq<real>, p: seq<real>, y: seq<real>, bound: real, total: real)
    requires |x| == |p| == |y| && Within(x, bound) && total == Sum(y) + Sum(p)
    requires forall i | 0 <= i < |p| :: p[i] >= 0.0 && y[i] >= 0.0
    ensures -Weighed(bound, total) <= Dot(x, Minus(y, p)) <= Weighed(bound, total)
  {
    var a, b := Sum(p), Sum(y);
    assert Dot(x, Minus(y, p)) == Dot(x, y) - Dot(x, p) by {
      var e := WayTo(p, y);
      DotPlus(x, p, e);
    }
    DotBetween(x, p, bound, a);
    DotBetween(x, y, bound, b);
    WeighedSum(bound, b, a, total);
  }

  lemma {:induction false} SmallRow(row: seq<real>, d: seq<real>, most: real, bound: real)
    requires |row| == |d| && Within(row, most) && Within(d, bound) && most >= 0.0 && bound >= 0.0
    ensures -Repeated(|d|, Weighed(most, bound)) <= Dot(row, d) <= Repeated(|d|, Weighed(most, bound))
  {
    if d != [] {
      SmallRow(row[1..], d[1..], most, bound);
      assert Dot(row, d) == Weighed(row[0], d[0]) + Dot(row[1..], d[1..]);
      SmallProduct(row[0], d[0], most, bound);
    }
  }

  lemma SmallProduct(a: real, b: real, most: real, bound: real)
    requires -most <= a <= most && -bound <= b <= bound
    ensures -Weighed(most, bound) <= Weighed(a, b) <= Weighed(most, bound)
  {
    var gap := (most - a) * (bound + b) + (most + a) * (bound - b);
    PositiveFactors(most - a, bound + b);
    PositiveFactors(most + a, bound - b);
    assert gap == 2.0 * (most * bound) - 2.0 * (a * b);
    var sum := (most - a) * (bound - b) + (most + a) * (bound + b);
    PositiveFactors(most - a, bound - b);
    PositiveFactors(most + a, bound + b);
    assert sum == 2.0 * (most * bound) + 2.0 * (a * b);
  }

  lemma RowWithin(sigma: seq<seq<real>>, i: nat, top: real)
    requires Symmetric(sigma) && Semidefinite(sigma) && i < |sigma| && top == MaxDiagonal(sigma, |sigma|)
    ensures Within(sigma[i], top)
  {
    forall k | 0 <= k < |sigma| ensures -top <= sigma[i][k] <= top { CovarianceBelowVariance(sigma, i, k); }
  }

  /** What a small move does to the risk gradient. */
  lemma SmallRisk(sigma: seq<seq<real>>, d: seq<real>, bound: real, top: real)
    requires Symmetric(sigma) && Semidefinite(sigma) && |d| == |sigma| > 0 && Within(d, bound) && bound >= 0.0
    requires top == MaxDiagonal(sigma, |sigma|)
    ensures Within(Times(sigma, d), Repeated(|d|, Weighed(top, bound)))
  {
    TopIsNotNegative(sigma);
    forall i | 0 <= i < |d|
      ensures -Repeated(|d|, Weighed(top, bound)) <= Times(sigma, d)[i] <= Repeated(|d|, Weighed(top, bound))
    {
      RowWithin(sigma, i, top);
      SmallRow(sigma[i], d, top, bound);
    }
  }

  // ---- one round -----------------------------------------------------------------------

  /** From a clipped vector no feasible way leads towards what was clipped. */
  lemma NoWayBack(v: seq<real>, u: seq<real>, lowering: real, p: seq<real>, y: seq<real>)
    requires |v| == |u| == |y| && lowering >= 0.0 && InBox(y, u)
    requires p == Clipped(v, u, lowering) && (lowering > 0.0 ==> Sum(y) <= Sum(p))
    ensures Dot(Minus(p, v), Minus(y, p)) >= 0.0
  {
    var e := Minus(y, p);
    assert Plus(p, e) == y;
    ClippedIsNearer(v, u, lowering, p, y);
    DistanceAfter(v, p, e, Minus(p, v));
  }

  /** What is clipped away is the move and the step down the gradient. */
  lemma ResidualAlong(w: seq<real>, t: seq<real>, sigma: seq<seq<real>>, aversion: real, step: real, p: seq<real>,
                      e: seq<real>, slope: real)
    requires |w| == |t| == |p| == |e| && Square(sigma, |w|) && slope == Dot(Gradient(w, t, sigma, aversion), e)
    ensures Dot(Minus(p, Candidate(w, t, sigma, aversion, step)), e) == Dot(Minus(p, w), e) + Weighed(step, slope)
  {
    var v, g := Candidate(w, t, sigma, aversion, step), Gradient(w, t, sigma, aversion);
    CandidateIsStep(w, t, sigma, aversion, step);
    assert Minus(p, v) == Plus(Minus(p, w), Scaled(step, g));
    ScaledAlong(g, step, e, slope);
    DotOfPlus(Minus(p, w), Scaled(step, g), e);
  }

  lemma DotOfPlus(a: seq<real>, b: seq<real>, e: seq<real>)
    requires |a| == |b| == |e|
    ensures Dot(Plus(a, b), e) == Dot(a, e) + Dot(b, e)
  {
    DotSwap(Plus(a, b), e);
    DotSwap(a, e);
    DotSwap(b, e);
    DotPlus(e, a, b);
  }

  /** The gradient after a move, along a way. */
  lemma SlopeAfter(w: seq<real>, p: seq<real>, t: seq<real>, sigma: seq<seq<real>>, aversion: real, e: seq<real>)
    requires |w| == |p| == |t| == |e| && Square(sigma, |w|)
    ensures Dot(Gradient(p, t, sigma, aversion), e)
      == Dot(Gradient(w, t, sigma, aversion), e) + Dot(Minus(p, w), e) + Weighed(aversion, Form(sigma, e, Minus(p, w)))
  {
    var d := WayTo(w, p);
    var before, more, after := Form(sigma, e, w), Form(sigma, e, d), Form(sigma, e, p);
    assert after == before + more by {
      TimesPlus(sigma, w, d);
      DotPlus(e, Times(sigma, w), Times(sigma, d));
    }
    assert Dot(Minus(p, t), e) == Dot(Minus(w, t), e) + Dot(d, e) by { FarEndAlong(w, p, t, e); }
    SlopeParts(w, e, t, sigma, aversion);
    SlopeParts(p, e, t, sigma, aversion);
    WeighedSum(aversion, before, more, after);
  }

  lemma FarEndAlong(w: seq<real>, p: seq<real>, t: seq<real>, e: seq<real>)
    requires |w| == |p| == |t| == |e|
    ensures Dot(Minus(p, t), e) == Dot(Minus(w, t), e) + Dot(Minus(p, w), e)
  {
    assert Minus(p, t) == Plus(Minus(w, t), Minus(p, w));
    DotOfPlus(Minus(w, t), Minus(p, w), e);
  }

  /** How far the objective of a projected step can lie above that of other weights: by the moves times the way to
      them. */
  function Excess(n: nat, load: real, bound: real, total: real): real
  {
    Weighed(Weighed(n as real + 4.0, load), Weighed(bound, total))
  }

  lemma SlopeBound(step: real, load: real, slope: real, along: real, risk: real, aversion: real, after: real, n: nat,
                   top: real, bound: real, total: real)
    requires load == Weighed(aversion, top) && aversion >= 0.0 && top >= 0.0 && Rate(step, load)
    requires along + Weighed(step, slope) >= 0.0 && after == slope + along + Weighed(aversion, risk)
    requires -Weighed(bound, total) <= along <= Weighed(bound, total)
    requires -Weighed(Repeated(n, Weighed(top, bound)), total) <= risk
      <= Weighed(Repeated(n, Weighed(top, bound)), total)
    ensures after >= -Excess(n, load, bound, total)
  {
    var small := Weighed(bound, total);
    assert slope >= -(along + 4.0 * Weighed(load, along)) by { SlopeFromResidual(step, load, slope, along); }
    assert Weighed(load, along) <= Weighed(load, small) by { UpShareOrder(load, along, small, aversion, top); }
    assert -Weighed(aversion, risk) <= Weighed(n as real, Weighed(load, small)) by {
      RiskShare(aversion, risk, n, top, bound, total, load, small);
    }
    ExcessSplits(n, load, small);
  }

  lemma SlopeFromResidual(step: real, load: real, slope: real, along: real)
    requires Rate(step, load) && along + Weighed(step, slope) >= 0.0
    ensures slope >= -(along + 4.0 * Weighed(load, along))
  {
    var whole := 1.0 + 4.0 * load;
    var gap := along + Weighed(step, slope);
    Distribute(whole, along, step * slope);
    assert whole * (step * slope) == (step * whole) * slope;
    if whole <= 0.0 { MulOrder(whole, 0.0, step); }
    PositiveFactors(whole, gap);
    Distribute(along, 1.0, 4.0 * load);
  }

  lemma UpShareOrder(load: real, x: real, y: real, aversion: real, top: real)
    requires load == Weighed(aversion, top) && aversion >= 0.0 && top >= 0.0 && x <= y
    ensures Weighed(load, x) <= Weighed(load, y)
  {
    UpShare(aversion, top);
    SmallerFactor(load, x, y);
  }

  lemma RiskShare(aversion: real, risk: real, n: nat, top: real, bound: real, total: real, load: real, small: real)
    requires aversion >= 0.0 && load == Weighed(aversion, top) && small == Weighed(bound, total)
    requires -Weighed(Repeated(n, Weighed(top, bound)), total) <= risk
    ensures -Weighed(aversion, risk) <= Weighed(n as real, Weighed(load, small))
  {
    var unit := Weighed(top, bound);
    var most := Weighed(Repeated(n, unit), total);
    RepeatedIsProduct(n, unit);
    SmallerFactor(aversion, -most, risk);
    ProductOfFive(aversion, n as real, top, bound, total);
  }

  lemma ProductOfFive(a: real, n: real, top: real, bound: real, total: real)
    ensures a * -((n * (top * bound)) * total) == -(n * ((a * top) * (bound * total)))
  {
    var x, y := top * bound, bound * total;
    assert x * total == top * y;
    assert (n * x) * total == n * (x * total);
    assert a * (n * (top * y)) == n * (a * (top * y));
    assert a * (top * y) == (a * top) * y;
  }

  lemma ExcessSplits(n: nat, load: real, small: real)
    ensures Weighed(Weighed(n as real + 4.0, load), small) == Weighed(n as real, Weighed(load, small))
      + 4.0 * Weighed(load, small)
  {
    var x := load * small;
    assert ((n as real + 4.0) * load) * small == (n as real + 4.0) * x;
  }

  /** The step is one over 1 + 4 * load. */
  predicate Rate(step: real, load: real) { step > 0.0 && step * (1.0 + 4.0 * load) == 1.0 }

  lemma StepRate(top: real, aversion: real, load: real)
    requires top >= 0.0 && aversion >= 0.0 && load == Weighed(aversion, top)
    ensures Rate(StepFor(top, aversion), load)
  {
    UpShare(aversion, top);
    assert aversion * top * 4.0 == 4.0 * load;
    StepFacts(top, aversion);
    OneOver(1.0 + 4.0 * load);
  }

  lemma OneOver(whole: real)
    requires whole >= 1.0
    ensures 1.0 / whole * whole == 1.0
  {
  }

  /** From the end of a projected step that moves no weight by more than `bound`, the gradient falls towards no other
      weights in the box with no larger sum by more than the excess. */
  lemma NearlyUphill(w: seq<real>, p: seq<real>, y: seq<real>, t: seq<real>, sigma: seq<seq<real>>, aversion: real,
                     step: real, slope: real, u: seq<real>, bound: real, top: real, load: real, total: real)
    requires |w| == |t| == |p| == |y| == |u| == |sigma| > 0 && Symmetric(sigma) && Semidefinite(sigma)
    requires aversion >= 0.0 && load == Weighed(aversion, top) && top == MaxDiagonal(sigma, |sigma|)
    requires Rate(step, load) && slope == Dot(Gradient(w, t, sigma, aversion), Minus(y, p))
    requires Dot(Minus(p, w), Minus(y, p)) + Weighed(step, slope) >= 0.0
    requires InBox(p, u) && InBox(y, u) && bound >= 0.0 && Within(Minus(p, w), bound) && total == Sum(y) + Sum(p)
    ensures Dot(Gradient(p, t, sigma, aversion), Minus(y, p)) >= -Excess(|w|, load, bound, total)
  {
    var d, e := Minus(p, w), Minus(y, p);
    var along, risk, after := Dot(d, e), Form(sigma, e, d), Dot(Gradient(p, t, sigma, aversion), e);
    assert after == slope + along + Weighed(aversion, risk) by { SlopeAfter(w, p, t, sigma, aversion, e); }
    SmallMoves(sigma, u, p, y, d, bound, top, total, along, risk);
    TopIsNotNegative(sigma);
    SlopeBound(step, load, slope, along, risk, aversion, after, |w|, top, bound, total);
  }

  /** The gradient where a projected step started, along a way from its end. */
  lemma StepResidual(w: seq<real>, t: seq<real>, sigma: seq<seq<real>>, u: seq<real>, aversion: real, lowering: real,
                     step: real, p: seq<real>, y: seq<real>) returns (slope: real)
    requires |w| == |t| == |u| == |y| && Square(sigma, |w|) && lowering >= 0.0
    requires p == Clipped(Candidate(w, t, sigma, aversion, step), u, lowering)
    requires InBox(y, u) && (lowering > 0.0 ==> Sum(y) <= Sum(p))
    ensures InBox(p, u) && slope == Dot(Gradient(w, t, sigma, aversion), Minus(y, p))
    ensures Dot(Minus(p, w), Minus(y, p)) + Weighed(step, slope) >= 0.0
  {
    slope := Dot(Gradient(w, t, sigma, aversion), Minus(y, p));
    NoWayBack(Candidate(w, t, sigma, aversion, step), u, lowering, p, y);
    ResidualAlong(w, t, sigma, aversion, step, p, Minus(y, p), slope);
  }

  /** The objective at `r` is above that at `y` by no more than `excess`. */
  ghost predicate NearlyBelow(r: seq<real>, y: seq<real>, t: seq<real>, sigma: seq<seq<real>>, aversion: real,
                              excess: real)
    requires |r| == |t| == |y| && Square(sigma, |r|)
  {
    Objective(r, t, sigma, aversion) <= Objective(y, t, sigma, aversion) + excess
  }

  /** A projected step that moves no weight by more than `bound` ends, for any other weights in the box with no larger
      sum, at most the excess above their objective. */
  lemma ProjectedIsNearlyBest(w: seq<real>, t: seq<real>, sigma: seq<seq<real>>, u: seq<real>, aversion: real,
                              lowering: real, step: real, p: seq<real>, y: seq<real>, bound: real, top: real,
                              load: real, total: real, excess: real)
    requires |w| == |t| == |u| == |y| == |sigma| > 0 && Symmetric(sigma) && Semidefinite(sigma)
    requires aversion >= 0.0 && top == MaxDiagonal(sigma, |sigma|) && load == Weighed(aversion, top)
    requires Rate(step, load) && lowering >= 0.0 && total == Sum(y) + Sum(p)
    requires p == Clipped(Candidate(w, t, sigma, aversion, step), u, lowering)
    requires InBox(y, u) && (lowering > 0.0 ==> Sum(y) <= Sum(p)) && bound >= 0.0 && Within(Minus(p, w), bound)
    requires excess == Excess(|w|, load, bound, total)
    ensures NearlyBelow(p, y, t, sigma, aversion, excess)
  {
    var slope := StepResidual(w, t, sigma, u, aversion, lowering, step, p, y);
    NearlyUphill(w, p, y, t, sigma, aversion, step, slope, u, bound, top, load, total);
    AboveExcess(p, y, t, sigma, aversion, excess);
  }

  lemma SmallMoves(sigma: seq<seq<real>>, u: seq<real>, p: seq<real>, y: seq<real>, d: seq<real>, bound: real,
                   top: real, total: real, along: real, risk: real)
    requires |p| == |y| == |u| == |d| == |sigma| > 0 && Symmetric(sigma) && Semidefinite(sigma) && InBox(p, u)
    requires InBox(y, u)
    requires bound >= 0.0 && Within(d, bound) && top == MaxDiagonal(sigma, |sigma|) && total == Sum(y) + Sum(p)
    requires along == Dot(d, Minus(y, p)) && risk == Form(sigma, Minus(y, p), d)
    ensures -Weighed(bound, total) <= along <= Weighed(bound, total)
    ensures -Weighed(Repeated(|d|, Weighed(top, bound)), total) <= risk
      <= Weighed(Repeated(|d|, Weighed(top, bound)), total)
  {
    SmallAlong(d, p, y, bound, total);
    SmallRisk(sigma, d, bound, top);
    DotSwap(Minus(y, p), Times(sigma, d));
    SmallAlong(Times(sigma, d), p, y, Repeated(|d|, Weighed(top, bound)), total);
  }

  /** The objective is above its tangent. */
  lemma Above(p: seq<real>, e: seq<real>, t: seq<real>, sigma: seq<seq<real>>, aversion: real, slope: real)
    requires |p| == |e| == |t| == |sigma| && Symmetric(sigma) && Semidefinite(sigma) && aversion >= 0.0
    requires slope == Dot(Gradient(p, t, sigma, aversion), e)
    ensures Objective(Plus(p, e), t, sigma, aversion) >= Objective(p, t, sigma, aversion) + slope
  {
    var high, low := Objective(Plus(p, e), t, sigma, aversion), Objective(p, t, sigma, aversion);
    var moved, spread := Dist2(Plus(p, e), p), Form(sigma, e, e);
    ObjectiveAfter(p, e, t, sigma, aversion, high, low, slope, moved, spread);
    QuadraticPart(p, e, sigma, aversion, moved, spread);
  }

  lemma AboveExcess(p: seq<real>, y: seq<real>, t: seq<real>, sigma: seq<seq<real>>, aversion: real, excess: real)
    requires |p| == |y| == |t| == |sigma| && Symmetric(sigma) && Semidefinite(sigma) && aversion >= 0.0
    requires Dot(Gradient(p, t, sigma, aversion), Minus(y, p)) >= -excess
    ensures NearlyBelow(p, y, t, sigma, aversion, excess)
  {
    var e := WayTo(p, y);
    Above(p, e, t, sigma, aversion, Dot(Gradient(p, t, sigma, aversion), e));
  }

  // ---- where the loop stops ------------------------------------------------------------

  lemma SettledIsWithin(next: seq<real>, w: seq<real>)
    requires |next| == |w| && Settled(next, w)
    ensures Within(Minus(next, w), SETTLED)
  {
  }

  /** The clipped candidate of the round uses the budget, and no weight is dropped from it. */
  ghost predicate RefillsNothing(w: seq<real>, t: seq<real>, sigma: seq<seq<real>>, u: seq<real>, budget: real,
                                 aversion: real, step: real)
    requires |w| == |t| == |u| > 0 && Square(sigma, |w|)
  {
    && DropsNothing(Projected(w, t, sigma, u, budget, aversion, step), t, u, budget)
    && UsesBudget(w, t, sigma, u, budget, aversion, step)
  }

  /** How far above the minimum a settled descent can be, for each unit of the sums. */
  function RateOfExcess(n: nat, load: real): real { Weighed(Weighed(n as real + 4.0, load), SETTLED) }

  /** The objective at `r` is above that at `y` by no more than `rate` times both sums. */
  ghost predicate AboveAtRate(r: seq<real>, y: seq<real>, t: seq<real>, sigma: seq<seq<real>>, aversion: real,
                              rate: real)
    requires |r| == |t| == |y| && Square(sigma, |r|)
  {
    NearlyBelow(r, y, t, sigma, aversion, Weighed(rate, Sum(y) + Sum(r)))
  }

  /** No weights in the box with no larger sum have an objective lower by more than that. */
  ghost predicate IsNearlyMinimum(r: seq<real>, t: seq<real>, sigma: seq<seq<real>>, u: seq<real>, aversion: real,
                                  rate: real)
    requires |r| == |t| == |u| && Square(sigma, |r|)
  {
    forall y: seq<real> | |y| == |r| && InBox(y, u) && Sum(y) <= Sum(r) :: AboveAtRate(r, y, t, sigma, aversion, rate)
  }

  /** When a round of the loop that refills nothing moves no weight by more than 1e-9, so that the loop stops there, no
      weights in the caps with no larger sum have an objective lower by more than a billionth times (n + 4) times the
      risk of the most variable symbol times both sums. */
  lemma SettledIsNearlyOptimal(symbols: seq<string>, w: seq<real>, t: seq<real>, sigma: seq<seq<real>>, caps: Weights,
                               u: seq<real>, budget: real, aversion: real, step: real, top: real, load: real,
                               most: real, next: seq<real>, rate: real)
    requires Distinct(symbols) && symbols != [] && |w| == |t| == |symbols| == |sigma| && budget > 0.0
    requires Symmetric(sigma) && Semidefinite(sigma) && aversion >= 0.0 && Fits(w, symbols, caps, budget)
    requires u == Pick(symbols, caps) && top == MaxDiagonal(sigma, |sigma|) && step == StepFor(top, aversion)
    requires load == Weighed(aversion, top) && rate == RateOfExcess(|symbols|, load)
    requires InBox(t, u) && (forall s | s in caps :: caps[s] <= most) && most >= 0.0
    requires DescentLaws.Narrow(|symbols|, 2.0 * most + budget + TINY)
    requires RefillsNothing(w, t, sigma, u, budget, aversion, step)
    requires next == Descended(symbols, w, t, sigma, caps, budget, aversion, step) && Settled(next, w)
    ensures IsNearlyMinimum(next, t, sigma, u, aversion, rate)
  {
    IdleRound(symbols, w, t, sigma, caps, u, budget, aversion, step, most);
    SettledIsWithin(next, w);
    assert Rate(step, load) by {
      TopIsNotNegative(sigma);
      StepRate(top, aversion, load);
    }
    SmallProjection(w, t, sigma, u, budget, aversion, step, next, top, load, |symbols|, rate);
  }

  lemma SmallProjection(w: seq<real>, t: seq<real>, sigma: seq<seq<real>>, u: seq<real>, budget: real, aversion: real,
                        step: real, p: seq<real>, top: real, load: real, n: nat, rate: real)
    requires |w| == |t| == |u| == |sigma| == n > 0 && Symmetric(sigma) && Semidefinite(sigma) && budget > 0.0
    requires aversion >= 0.0 && top == MaxDiagonal(sigma, |sigma|) && load == Weighed(aversion, top) && Rate(step, load)
    requires p == Projected(w, t, sigma, u, budget, aversion, step) && Within(Minus(p, w), SETTLED)
    requires rate == RateOfExcess(n, load)
    ensures IsNearlyMinimum(p, t, sigma, u, aversion, rate)
  {
    forall y: seq<real> | |y| == |p| && InBox(y, u) && Sum(y) <= Sum(p)
      ensures AboveAtRate(p, y, t, sigma, aversion, rate)
    {
      SmallProjectionAt(w, t, sigma, u, budget, aversion, step, p, y, top, load, n, rate);
    }
  }

  lemma SmallProjectionAt(w: seq<real>, t: seq<real>, sigma: seq<seq<real>>, u: seq<real>, budget: real,
                          aversion: real, step: real, p: seq<real>, y: seq<real>, top: real, load: real, n: nat,
                          rate: real)
    requires |w| == |t| == |u| == |y| == |sigma| == n > 0 && Symmetric(sigma) && Semidefinite(sigma) && budget > 0.0
    requires aversion >= 0.0 && top == MaxDiagonal(sigma, |sigma|) && load == Weighed(aversion, top) && Rate(step, load)
    requires p == Projected(w, t, sigma, u, budget, aversion, step) && Within(Minus(p, w), SETTLED)
    requires InBox(y, u) && Sum(y) <= Sum(p) && rate == RateOfExcess(n, load)
    ensures AboveAtRate(p, y, t, sigma, aversion, rate)
  {
    var total := Sum(y) + Sum(p);
    var excess := Excess(n, load, SETTLED, total);
    SmallProjectionBelow(w, t, sigma, u, budget, aversion, step, p, y, top, load, n, total, excess);
    BelowAtRate(p, y, t, sigma, aversion, n, load, total, excess, rate);
  }

  lemma BelowAtRate(p: seq<real>, y: seq<real>, t: seq<real>, sigma: seq<seq<real>>, aversion: real, n: nat, load: real,
                    total: real, excess: real, rate: real)
    requires |p| == |t| == |y| && Square(sigma, |p|) && NearlyBelow(p, y, t, sigma, aversion, excess)
    requires total == Sum(y) + Sum(p) && excess == Excess(n, load, SETTLED, total) && rate == RateOfExcess(n, load)
    ensures AboveAtRate(p, y, t, sigma, aversion, rate)
  {
    ExcessAtRate(n, load, total, rate, excess);
  }

  lemma ExcessAtRate(n: nat, load: real, total: real, rate: real, excess: real)
    requires rate == RateOfExcess(n, load) && excess == Excess(n, load, SETTLED, total)
    ensures excess == Weighed(rate, total)
  {
    var x := (n as real + 4.0) * load;
    assert (x * SETTLED) * total == x * (SETTLED * total);
  }

  lemma SmallProjectionBelow(w: seq<real>, t: seq<real>, sigma: seq<seq<real>>, u: seq<real>, budget: real,
                             aversion: real, step: real, p: seq<real>, y: seq<real>, top: real, load: real, n: nat,
                             total: real, excess: real)
    requires |w| == |t| == |u| == |y| == |sigma| == n > 0 && Symmetric(sigma) && Semidefinite(sigma) && budget > 0.0
    requires aversion >= 0.0 && top == MaxDiagonal(sigma, |sigma|) && load == Weighed(aversion, top) && Rate(step, load)
    requires p == Projected(w, t, sigma, u, budget, aversion, step) && Within(Minus(p, w), SETTLED)
    requires InBox(y, u) && Sum(y) <= Sum(p) && total == Sum(y) + Sum(p) && excess == Excess(n, load, SETTLED, total)
    ensures NearlyBelow(p, y, t, sigma, aversion, excess)
  {
    var lowering := LoweringOf(Candidate(w, t, sigma, aversion, step), u, budget);
    ProjectedIsNearlyBest(w, t, sigma, u, aversion, lowering, step, p, y, SETTLED, top, load, total, excess);
  }

  lemma LoweringOf(v: seq<real>, u: seq<real>, budget: real) returns (lowering: real)
    requires |v| == |u| > 0 && budget > 0.0
    ensures lowering == Lowering(v, u, budget) && lowering >= 0.0
  {
    lowering := Lowering(v, u, budget);
    LoweringFits(v, u, budget);
  }

  /** A round whose clipped candidate uses the budget ends at its projection. */
  lemma IdleRound(symbols: seq<string>, w: seq<real>, t: seq<real>, sigma: seq<seq<real>>, caps: Weights, u: seq<real>,
                  budget: real, aversion: real, step: real, most: real)
    requires Distinct(symbols) && symbols != [] && |w| == |t| == |symbols| == |sigma| && budget > 0.0
    requires Symmetric(sigma) && Semidefinite(sigma) && aversion >= 0.0 && Fits(w, symbols, caps, budget)
    requires u == Pick(symbols, caps) && step == StepSize(sigma, |w|, aversion)
    requires InBox(t, u) && (forall s | s in caps :: caps[s] <= most) && most >= 0.0
    requires DescentLaws.Narrow(|symbols|, 2.0 * most + budget + TINY)
    requires RefillsNothing(w, t, sigma, u, budget, aversion, step)
    ensures Descended(symbols, w, t, sigma, caps, budget, aversion, step)
      == Projected(w, t, sigma, u, budget, aversion, step)
  {
    RoundIsRefill(symbols, w, t, sigma, caps, budget, aversion, step);
    LoopResolves(symbols, w, t, sigma, caps, budget, aversion, most);
    NothingToRefill(w, t, sigma, u, budget, aversion, step);
  }

  lemma NothingToRefill(w: seq<real>, t: seq<real>, sigma: seq<seq<real>>, u: seq<real>, budget: real, aversion: real,
                        step: real)
    requires |w| == |t| == |u| == |sigma| > 0 && Square(sigma, |w|) && budget > 0.0
    requires Resolves(Candidate(w, t, sigma, aversion, step), u)
    requires UsesBudget(w, t, sigma, u, budget, aversion, step)
    ensures var p := Projected(w, t, sigma, u, budget, aversion, step); Refilled(p, t, u, budget) == p
  {
    var v, p := Candidate(w, t, sigma, aversion, step), Projected(w, t, sigma, u, budget, aversion, step);
    IdleExactly(w, t, sigma, u, budget, aversion, step, p);
    LoweringFits(v, u, budget);
    ClippedFits(v, u, Lowering(v, u, budget));
    RefillIsIdle(p, t, u, budget);
  }

  /** The iterate after a round for each of `rounds`, without stopping. */
  function Iterate(symbols: seq<string>, w: seq<real>, t: seq<real>, sigma: seq<seq<real>>, caps: Weights, budget: real,
                   aversion: real, step: real, rounds: seq<nat>): (r: seq<real>)
    requires |w| == |t| == |symbols| && Square(sigma, |w|)
    ensures |r| == |w|
    decreases |rounds|
  {
    if rounds == [] then w
    else Iterate(symbols, Descended(symbols, w, t, sigma, caps, budget, aversion, step), t, sigma, caps, budget,
                 aversion, step, rounds[1..])
  }

  /** The descent ends at a settled round of a feasible iterate, or with its last round. */
  lemma {:induction false} DescentEnds(symbols: seq<string>, w: seq<real>, t: seq<real>, sigma: seq<seq<real>>,
                                       caps: Weights, budget: real, aversion: real, step: real, rounds: seq<nat>)
    returns (last: seq<real>, settled: bool)
    requires Distinct(symbols) && |w| == |t| == |symbols| && Square(sigma, |w|) && budget >= 0.0
      && Fits(w, symbols, caps, budget)
    ensures |last| == |w| && Fits(last, symbols, caps, budget)
    ensures var r := Descent(symbols, w, t, sigma, caps, budget, aversion, step, rounds);
      if settled then r == Descended(symbols, last, t, sigma, caps, budget, aversion, step) && Settled(r, last)
      else r == Iterate(symbols, w, t, sigma, caps, budget, aversion, step, rounds)
    decreases |rounds|
  {
    last, settled := w, false;
    if rounds != [] {
      var next := Descended(symbols, w, t, sigma, caps, budget, aversion, step);
      DescendedFits(symbols, w, t, sigma, caps, budget, aversion, step);
      if Settled(next, w) {
        settled := true;
      } else {
        last, settled := DescentEnds(symbols, next, t, sigma, caps, budget, aversion, step, rounds[1..]);
      }
    }
  }
}
