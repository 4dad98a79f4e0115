/** What a round of ez/live/optimizer_allocator.py that fills the weights up to the budget does: the refill hands out in
    proportion to the target, and where it ends is judged among the weights with as much of the target. */
module RefillShares {
  import opened Reals
  import opened Simplex
  import opened Refill
  import opened Allocator
  import opened GradientLaws
  import opened DescentLaws
  import opened SettledLaws
  import opened StepSizeLaws

  // ---- the refill hands out in proportion ------------------------------------------------

  /** A symbol got no more than its share, and all of it when it still has room. */
  predicate HandedOut(p: real, r: real, cap: real, share: real) {
    p <= r <= p + share && (Expandable(r, cap) ==> r == p + share)
  }

  /** Every symbol got `rate` times its priority, but for what its cap left out. */
  ghost predicate InProportion(p: seq<real>, r: seq<real>, u: seq<real>, priority: seq<real>, rate: real)
    requires |p| == |r| == |u| == |priority|
  {
    forall i | 0 <= i < |p| :: HandedOut(p[i], r[i], u[i], Weighed(rate, Max(priority[i], LEAST_PRIORITY)))
  }

  lemma AddedInProportion(w: real, cap: real, priority: real, residual: real, denom: real, rate: real)
    requires denom > 0.0 && rate > 0.0 && rate * denom == residual
    ensures HandedOut(w, w + Added(w, cap, priority, residual, denom), cap,
                      Weighed(rate, Max(priority, LEAST_PRIORITY)))
  {
    var part := if Expandable(w, cap) then Max(priority, LEAST_PRIORITY) else 0.0;
    AddedFacts(w, cap, priority, residual, denom, rate, Weighed(rate, part));
    PositiveFactors(rate, Max(priority, LEAST_PRIORITY));
    assert Weighed(rate, 0.0) == 0.0;
  }

  lemma PassInProportion(w: seq<real>, u: seq<real>, priority: seq<real>, residual: real, denom: real)
    returns (rate: real)
    requires |w| == |u| == |priority| && denom > 0.0 && residual > 0.0
    ensures rate > 0.0 && InProportion(w, Plus(w, Adds(w, u, priority, residual, denom)), u, priority, rate)
  {
    rate := RateOf(residual, denom);
    var after := Plus(w, Adds(w, u, priority, residual, denom));
    forall i | 0 <= i < |w|
      ensures HandedOut(w[i], after[i], u[i], Weighed(rate, Max(priority[i], LEAST_PRIORITY)))
    {
      AddedInProportion(w[i], u[i], priority[i], residual, denom, rate);
    }
  }

  lemma ProportionsAdd(w: seq<real>, p: seq<real>, r: seq<real>, u: seq<real>, priority: seq<real>, first: real,
                       rest: real)
    requires |w| == |p| == |r| == |u| == |priority|
    requires InProportion(w, p, u, priority, first) && InProportion(p, r, u, priority, rest)
    ensures InProportion(w, r, u, priority, first + rest)
  {
    forall i | 0 <= i < |w|
      ensures HandedOut(w[i], r[i], u[i], Weighed(first + rest, Max(priority[i], LEAST_PRIORITY)))
    {
      SharesAdd(first, rest, Max(priority[i], LEAST_PRIORITY));
    }
  }

  lemma SharesAdd(a: real, b: real, part: real)
    ensures Weighed(a + b, part) == Weighed(a, part) + Weighed(b, part)
  {
    Distribute(part, a, b);
  }

  /** However many passes there are, together they hand out in proportion to the priorities, and something unless there
      is nothing to hand out or nobody with room. */
  lemma {:induction false} FillIsProportional(w: seq<real>, u: seq<real>, priority: seq<real>, residual: real,
                                              rounds: seq<nat>) returns (rate: real)
    requires |w| == |u| == |priority|
    ensures rate >= 0.0 && InProportion(w, FilledFrom(w, u, priority, residual, rounds), u, priority, rate)
    ensures rounds != [] && Open(w, u) > 0 && residual > TINY ==> rate > 0.0
    decreases |rounds|
  {
    var denom := Sum(Shares(w, u, priority));
    SharesArePositive(w, u, priority);
    rate := 0.0;
    if rounds == [] || Open(w, u) == 0 || residual <= TINY || denom <= 0.0 {
      assert forall i | 0 <= i < |w| :: Weighed(0.0, Max(priority[i], LEAST_PRIORITY)) == 0.0;
    } else {
      rate := PassInProportion(w, u, priority, residual, denom);
      var adds := Adds(w, u, priority, residual, denom);
      if Sum(adds) > TINY {
        var rest := FillIsProportional(Plus(w, adds), u, priority, residual - Sum(adds), rounds[1..]);
        ProportionsAdd(w, Plus(w, adds), FilledFrom(w, u, priority, residual, rounds), u, priority, rate, rest);
        rate := rate + rest;
      }
    }
  }

  // ---- weights with as much of the target ------------------------------------------------

  /** Weights within the caps that raise no symbol without room and have no less of the priorities in all. */
  ghost predicate AsMuch(y: seq<real>, r: seq<real>, u: seq<real>, priority: seq<real>)
    requires |y| == |r| == |u| == |priority|
  {
    && InBox(y, u) && Dot(priority, y) >= Dot(priority, r)
    && forall i | 0 <= i < |y| && !Expandable(r[i], u[i]) :: y[i] <= r[i]
  }

  /** No symbol that the step would take below 0 loses weight. */
  ghost predicate KeepsUnwanted(y: seq<real>, r: seq<real>, v: seq<real>)
    requires |y| == |r| == |v|
  {
    forall i | 0 <= i < |y| && v[i] < 0.0 :: r[i] <= y[i]
  }

  lemma {:induction false} DotOrder(a: seq<real>, b: seq<real>, e: seq<real>)
    requires |a| == |b| == |e| && forall i | 0 <= i < |a| :: Weighed(a[i], e[i]) >= Weighed(b[i], e[i])
    ensures Dot(a, e) >= Dot(b, e)
  {
    if a != [] {
      DotOrder(a[1..], b[1..], e[1..]);
      DotFirst(a, e);
      DotFirst(b, e);
    }
  }

  /** What clipping and the refill have changed outweighs the share handed out, along a way to such weights. */
  lemma RestAtSymbol(v: real, cap: real, p: real, r: real, y: real, share: real, pull: real, way: real)
    requires pull == r - v && way == y - r
    requires p == Clip(v, cap, 0.0) && HandedOut(p, r, cap, share)
    requires 0.0 <= y <= Max(0.0, cap) && 0.0 <= r <= Max(0.0, cap)
    requires (!Expandable(r, cap) ==> y <= r) && (v < 0.0 ==> r <= y)
    ensures Weighed(pull, way) >= Weighed(share, way)
  {
    var over := pull - share;
    NotOpposed(over, way);
    Distribute(way, over, share);
  }

  lemma NotOpposed(a: real, b: real)
    requires (a >= 0.0 && b >= 0.0) || (a <= 0.0 && b <= 0.0) || a == 0.0 || b == 0.0
    ensures a * b >= 0.0
  {
    if a != 0.0 && b != 0.0 { SameSigns(a, b); }
  }

  lemma RestAt(v: seq<real>, u: seq<real>, p: seq<real>, r: seq<real>, y: seq<real>, priority: seq<real>, rate: real,
               i: nat, pull: real, way: real, share: real)
    requires |v| == |u| == |r| == |y| == |priority| && p == Clipped(v, u, 0.0) && InBox(r, u) && i < |v|
    requires priority[i] >= LEAST_PRIORITY && InProportion(p, r, u, priority, rate)
    requires AsMuch(y, r, u, priority) && KeepsUnwanted(y, r, v)
    requires pull == r[i] - v[i] && way == y[i] - r[i] && share == Scaled(rate, priority)[i]
    ensures Weighed(pull, way) >= Weighed(share, way)
  {
    ScaledAt(rate, priority, i);
    HandedOutAt(p, r, u, priority, rate, i);
    RestAtSymbol(v[i], u[i], p[i], r[i], y[i], share, pull, way);
  }

  lemma HandedOutAt(p: seq<real>, r: seq<real>, u: seq<real>, priority: seq<real>, rate: real, i: nat)
    requires |p| == |u| == |r| == |priority| && i < |p|
    requires priority[i] >= LEAST_PRIORITY && InProportion(p, r, u, priority, rate)
    ensures HandedOut(p[i], r[i], u[i], Weighed(rate, priority[i]))
  {
    assert Max(priority[i], LEAST_PRIORITY) == priority[i];
  }

  lemma RestOutweighs(v: seq<real>, u: seq<real>, p: seq<real>, r: seq<real>, y: seq<real>, priority: seq<real>,
                      rate: real, along: real)
    requires |v| == |u| == |r| == |y| == |priority| && p == Clipped(v, u, 0.0) && InBox(r, u) && rate >= 0.0
    requires (forall i | 0 <= i < |priority| :: priority[i] >= LEAST_PRIORITY) && InProportion(p, r, u, priority, rate)
    requires AsMuch(y, r, u, priority) && KeepsUnwanted(y, r, v) && along == Dot(priority, Minus(y, r))
    ensures Dot(Minus(r, v), Minus(y, r)) >= Weighed(rate, along) >= 0.0
  {
    var e, shares := Minus(y, r), Scaled(rate, priority);
    forall i | 0 <= i < |v| ensures Weighed(Minus(r, v)[i], e[i]) >= Weighed(shares[i], e[i]) {
      RestAt(v, u, p, r, y, priority, rate, i, Minus(r, v)[i], e[i], shares[i]);
    }
    DotOrder(Minus(r, v), shares, e);
    ScaledAlong(priority, rate, e, along);
    AlongIsNotNegative(priority, r, y, along);
    UpShare(rate, along);
  }

  lemma AlongIsNotNegative(priority: seq<real>, r: seq<real>, y: seq<real>, along: real)
    requires |priority| == |r| == |y| && along == Dot(priority, Minus(y, r)) && Dot(priority, y) >= Dot(priority, r)
    ensures along >= 0.0 && along == Dot(priority, y) - Dot(priority, r)
  {
    var e := WayTo(r, y);
    DotPlus(priority, r, e);
  }

  // ---- a round that refills --------------------------------------------------------------

  /** The clipped candidate of the round does not use the budget and leaves room, and no weight is dropped. */
  ghost predicate Refills(w: seq<real>, t: seq<real>, sigma: seq<seq<real>>, u: seq<real>, budget: real,
                          aversion: real, step: real)
    requires |w| == |t| == |u| > 0 && Square(sigma, |w|)
  {
    && DropsNothing(Projected(w, t, sigma, u, budget, aversion, step), t, u, budget)
    && !UsesBudget(w, t, sigma, u, budget, aversion, step)
  }

  /** Such a round ends above its clipped candidate, in proportion to the priorities. */
  lemma RefilledRound(symbols: seq<string>, w: seq<real>, t: seq<real>, sigma: seq<seq<real>>, caps: Weights,
                      u: seq<real>, budget: real, aversion: real, step: real, most: real, next: seq<real>)
    returns (rate: real)
    requires Distinct(symbols) && symbols != [] && |w| == |t| == |symbols| == |sigma| && budget > 0.0
    requires Symmetric(sigma) && Semidefinite(sigma) && aversion >= 0.0 && Fits(w, symbols, caps, budget)
    requires u == Pick(symbols, caps) && step == StepSize(sigma, |w|, aversion)
    requires InBox(t, u) && (forall s | s in caps :: caps[s] <= most) && most >= 0.0
    requires DescentLaws.Narrow(|symbols|, 2.0 * most + budget + TINY)
    requires Refills(w, t, sigma, u, budget, aversion, step)
    requires next == Descended(symbols, w, t, sigma, caps, budget, aversion, step)
    ensures rate > 0.0 && InBox(next, u)
    ensures InProportion(Clamped(w, t, sigma, u, aversion, step), next, u, Priorities(t), rate)
  {
    RoundIsRefill(symbols, w, t, sigma, caps, budget, aversion, step);
    LoopResolves(symbols, w, t, sigma, caps, budget, aversion, most);
    DescendedFits(symbols, w, t, sigma, caps, budget, aversion, step);
    rate := RefillHandsOut(w, t, sigma, u, budget, aversion, step, next);
  }

  lemma RefillHandsOut(w: seq<real>, t: seq<real>, sigma: seq<seq<real>>, u: seq<real>, budget: real, aversion: real,
                       step: real, next: seq<real>) returns (rate: real)
    requires |w| == |t| == |u| == |sigma| > 0 && Square(sigma, |w|) && budget > 0.0
    requires Resolves(Candidate(w, t, sigma, aversion, step), u)
    requires !UsesBudget(w, t, sigma, u, budget, aversion, step)
    requires next == Refilled(Projected(w, t, sigma, u, budget, aversion, step), t, u, budget)
    ensures rate > 0.0 && InProportion(Clamped(w, t, sigma, u, aversion, step), next, u, Priorities(t), rate)
  {
    var p := Clamped(w, t, sigma, u, aversion, step);
    IdleExactly(w, t, sigma, u, budget, aversion, step, Projected(w, t, sigma, u, budget, aversion, step));
    rate := FillIsProportional(p, u, Priorities(t), budget - Sum(p), Range(PASSES));
  }

  /** No weights with as much of the target that keep what the step would take below 0 have an objective lower by more
      than this rate times both sums. */
  ghost predicate IsNearlyLeast(r: seq<real>, t: seq<real>, sigma: seq<seq<real>>, u: seq<real>, aversion: real,
                                v: seq<real>, rate: real)
    requires |r| == |t| == |u| == |v| && Square(sigma, |r|)
  {
    forall y: seq<real> | |y| == |r| && AsMuch(y, r, u, Priorities(t)) && KeepsUnwanted(y, r, v) ::
      AboveAtRate(r, y, t, sigma, aversion, rate)
  }

  lemma SmallRefill(w: seq<real>, t: seq<real>, sigma: seq<seq<real>>, u: seq<real>, aversion: real, step: real,
                    r: seq<real>, y: seq<real>, filled: real, top: real, load: real, n: nat, rate: real)
    requires |w| == |t| == |u| == |r| == |y| == |sigma| == n > 0 && Symmetric(sigma) && Semidefinite(sigma)
    requires aversion >= 0.0 && top == MaxDiagonal(sigma, |sigma|) && load == Weighed(aversion, top) && Rate(step, load)
    requires filled >= 0.0 && InProportion(Clamped(w, t, sigma, u, aversion, step), r, u, Priorities(t), filled)
    requires InBox(r, u) && Within(Minus(r, w), SETTLED) && rate == RateOfExcess(n, load)
    requires AsMuch(y, r, u, Priorities(t)) && KeepsUnwanted(y, r, Candidate(w, t, sigma, aversion, step))
    ensures AboveAtRate(r, y, t, sigma, aversion, rate)
  {
    var total, slope := Sum(y) + Sum(r), Dot(Gradient(w, t, sigma, aversion), Minus(y, r));
    var excess := Excess(n, load, SETTLED, total);
    RefillResidual(w, t, sigma, u, aversion, step, r, y, filled, slope);
    NearlyUphill(w, r, y, t, sigma, aversion, step, slope, u, SETTLED, top, load, total);
    AboveExcess(r, y, t, sigma, aversion, excess);
    BelowAtRate(r, y, t, sigma, aversion, n, load, total, excess, rate);
  }

  /** The gradient where a refilled round started, along a way from its end. */
  lemma RefillResidual(w: seq<real>, t: seq<real>, sigma: seq<seq<real>>, u: seq<real>, aversion: real, step: real,
                       r: seq<real>, y: seq<real>, filled: real, slope: real)
    requires |w| == |t| == |u| == |r| == |y| && Square(sigma, |w|) && filled >= 0.0 && InBox(r, u)
    requires InProportion(Clamped(w, t, sigma, u, aversion, step), r, u, Priorities(t), filled)
    requires AsMuch(y, r, u, Priorities(t)) && KeepsUnwanted(y, r, Candidate(w, t, sigma, aversion, step))
    requires slope == Dot(Gradient(w, t, sigma, aversion), Minus(y, r))
    ensures Dot(Minus(r, w), Minus(y, r)) + Weighed(step, slope) >= 0.0
  {
    var v, along := Candidate(w, t, sigma, aversion, step), Dot(Priorities(t), Minus(y, r));
    RestOutweighs(v, u, Clamped(w, t, sigma, u, aversion, step), r, y, Priorities(t), filled, along);
    ResidualAlong(w, t, sigma, aversion, step, r, Minus(y, r), slope);
  }

  /** When a round that refills moves no weight by more than 1e-9, so that the loop stops there, its end is nearly the
      least among the weights with as much of the target. */
  lemma SettledRefillIsNearlyLeast(symbols: seq<string>, w: seq<real>, t: seq<real>, sigma: seq<seq<real>>,
                                   caps: Weights, u: seq<real>, budget: real, aversion: real, step: real, top: real,
                                   load: real, most: real, next: seq<real>, rate: real)
    requires Distinct(symbols) && symbols != [] && |w| == |t| == |symbols| == |sigma| && budget > 0.0
    requires Symmetric(sigma) && Semidefinite(sigma) && aversion >= 0.0 && Fits(w, symbols, caps, budget)
    requires u == Pick(symbols, caps) && top == MaxDiagonal(sigma, |sigma|) && step == StepFor(top, aversion)
    requires load == Weighed(aversion, top) && rate == RateOfExcess(|symbols|, load)
    requires InBox(t, u) && (forall s | s in caps :: caps[s] <= most) && most >= 0.0
    requires DescentLaws.Narrow(|symbols|, 2.0 * most + budget + TINY)
    requires Refills(w, t, sigma, u, budget, aversion, step)
    requires next == Descended(symbols, w, t, sigma, caps, budget, aversion, step) && Settled(next, w)
    ensures IsNearlyLeast(next, t, sigma, u, aversion, Candidate(w, t, sigma, aversion, step), rate)
  {
    var v := Candidate(w, t, sigma, aversion, step);
    var filled := RefilledRound(symbols, w, t, sigma, caps, u, budget, aversion, step, most, next);
    SettledIsWithin(next, w);
    assert Rate(step, load) by {
      TopIsNotNegative(sigma);
      StepRate(top, aversion, load);
    }
    forall y: seq<real> | |y| == |next| && AsMuch(y, next, u, Priorities(t)) && KeepsUnwanted(y, next, v)
      ensures AboveAtRate(next, y, t, sigma, aversion, rate)
    {
      SmallRefill(w, t, sigma, u, aversion, step, next, y, filled, top, load, |symbols|, rate);
    }
  }

  // ---- what a round that refills gains -----------------------------------------------------

  /** A round that refills without raising the target-weighted sum gains as much as a round that refills nothing, if it
      shrinks no symbol that it leaves without room and grows none that the step takes below 0. */
  lemma RefilledRoundGains(symbols: seq<string>, w: seq<real>, t: seq<real>, sigma: seq<seq<real>>, caps: Weights,
                           u: seq<real>, budget: real, aversion: real, step: real, top: real, load: real, most: real,
                           next: seq<real>)
    requires Distinct(symbols) && symbols != [] && |w| == |t| == |symbols| == |sigma| && budget > 0.0
    requires Symmetric(sigma) && Semidefinite(sigma) && aversion >= 0.0 && Fits(w, symbols, caps, budget)
    requires u == Pick(symbols, caps) && top == MaxDiagonal(sigma, |sigma|) && step == StepFor(top, aversion)
    requires load == Weighed(aversion, top)
    requires InBox(t, u) && (forall s | s in caps :: caps[s] <= most) && most >= 0.0
    requires DescentLaws.Narrow(|symbols|, 2.0 * most + budget + TINY)
    requires Refills(w, t, sigma, u, budget, aversion, step)
    requires next == Descended(symbols, w, t, sigma, caps, budget, aversion, step)
    requires AsMuch(w, next, u, Priorities(t)) && KeepsUnwanted(w, next, Candidate(w, t, sigma, aversion, step))
    ensures NearlyBelow(next, w, t, sigma, aversion, -Gain(|w|, load, Dist2(next, w)))
  {
    var filled := RefilledRound(symbols, w, t, sigma, caps, u, budget, aversion, step, most, next);
    assert Rate(step, load) by {
      TopIsNotNegative(sigma);
      StepRate(top, aversion, load);
    }
    RefillGains(w, t, sigma, u, aversion, step, next, filled, top, load);
  }

  lemma RefillGains(w: seq<real>, t: seq<real>, sigma: seq<seq<real>>, u: seq<real>, aversion: real, step: real,
                    r: seq<real>, filled: real, top: real, load: real)
    requires |w| == |t| == |u| == |r| == |sigma| > 0 && Symmetric(sigma) && Semidefinite(sigma)
    requires aversion >= 0.0 && top == MaxDiagonal(sigma, |sigma|) && load == Weighed(aversion, top) && Rate(step, load)
    requires filled >= 0.0 && InProportion(Clamped(w, t, sigma, u, aversion, step), r, u, Priorities(t), filled)
    requires InBox(r, u)
    requires AsMuch(w, r, u, Priorities(t)) && KeepsUnwanted(w, r, Candidate(w, t, sigma, aversion, step))
    ensures NearlyBelow(r, w, t, sigma, aversion, -Gain(|w|, load, Dist2(r, w)))
  {
    var d, length := MoveTo(w, r);
    var slope, back := Dot(Gradient(w, t, sigma, aversion), d), Dot(Gradient(w, t, sigma, aversion), Minus(w, r));
    RefillResidual(w, t, sigma, u, aversion, step, r, w, filled, back);
    WayBack(w, r, d, Gradient(w, t, sigma, aversion), slope, back, length);
    OppositeShare(step, slope, back);
    SteepGains(w, d, t, sigma, aversion, step, top, load, slope, length, 0.0);
    Loosened(r, w, t, sigma, aversion, Slip(load, 0.0) - Gain(|w|, load, length), -Gain(|w|, load, length));
  }

  lemma WayBack(w: seq<real>, r: seq<real>, d: seq<real>, g: seq<real>, slope: real, back: real, length: real)
    requires |w| == |r| == |d| == |g| && Plus(w, d) == r && length == Dot(d, d)
    requires slope == Dot(g, d) && back == Dot(g, Minus(w, r))
    ensures back == -slope && Dot(Minus(r, w), Minus(w, r)) == -length
  {
    WaysAreOpposite(w, r, d);
    DotOpposite(g, d, Minus(w, r));
    DotOpposite(d, d, Minus(w, r));
  }

  lemma WaysAreOpposite(w: seq<real>, r: seq<real>, d: seq<real>)
    requires |w| == |r| == |d| && Plus(w, d) == r
    ensures Minus(r, w) == d && forall i | 0 <= i < |d| :: Minus(w, r)[i] == -d[i]
  {
    forall i | 0 <= i < |d| ensures Minus(r, w)[i] == d[i] { assert Plus(w, d)[i] == w[i] + d[i]; }
  }

  lemma {:induction false} DotOpposite(a: seq<real>, d: seq<real>, e: seq<real>)
    requires |a| == |d| == |e| && forall i | 0 <= i < |d| :: e[i] == -d[i]
    ensures Dot(a, e) == -Dot(a, d)
  {
    if a != [] {
      DotOpposite(a[1..], d[1..], e[1..]);
      DotFirst(a, d);
      DotFirst(a, e);
      OppositeShare(a[0], d[0], e[0]);
    }
  }

  /** The whole descent ends at a round that settles, or with its last round. Where it settles it is nearly at the
      minimum if the round refilled nothing, and nearly the least among the weights with as much of the target if it
      did. */
  lemma DescentIsNearlyOptimal(symbols: seq<string>, w: seq<real>, t: seq<real>, sigma: seq<seq<real>>, caps: Weights,
                               u: seq<real>, budget: real, aversion: real, step: real, top: real, load: real,
                               most: real, rate: real, rounds: seq<nat>)
    returns (last: seq<real>, settled: bool, r: seq<real>)
    requires Distinct(symbols) && symbols != [] && |w| == |t| == |symbols| == |sigma| && budget > 0.0
    requires Symmetric(sigma) && Semidefinite(sigma) && aversion >= 0.0 && Fits(w, symbols, caps, budget)
    requires u == Pick(symbols, caps) && top == MaxDiagonal(sigma, |sigma|) && step == StepFor(top, aversion)
    requires load == Weighed(aversion, top) && rate == RateOfExcess(|symbols|, load)
    requires InBox(t, u) && (forall s | s in caps :: caps[s] <= most) && most >= 0.0
    requires DescentLaws.Narrow(|symbols|, 2.0 * most + budget + TINY)
    ensures r == Descent(symbols, w, t, sigma, caps, budget, aversion, step, rounds) && |r| == |w| == |last|
    ensures settled ==> r == Descended(symbols, last, t, sigma, caps, budget, aversion, step) && Settled(r, last)
    ensures settled && RefillsNothing(last, t, sigma, u, budget, aversion, step)
      ==> IsNearlyMinimum(r, t, sigma, u, aversion, rate)
    ensures settled && Refills(last, t, sigma, u, budget, aversion, step)
      ==> IsNearlyLeast(r, t, sigma, u, aversion, Candidate(last, t, sigma, aversion, step), rate)
    ensures !settled ==> r == Iterate(symbols, w, t, sigma, caps, budget, aversion, step, rounds)
  {
    last, settled := DescentEnds(symbols, w, t, sigma, caps, budget, aversion, step, rounds);
    r := Descent(symbols, w, t, sigma, caps, budget, aversion, step, rounds);
    if settled && RefillsNothing(last, t, sigma, u, budget, aversion, step) {
      SettledIsNearlyOptimal(symbols, last, t, sigma, caps, u, budget, aversion, step, top, load, most, r, rate);
    }
    if settled && Refills(last, t, sigma, u, budget, aversion, step) {
      SettledRefillIsNearlyLeast(symbols, last, t, sigma, caps, u, budget, aversion, step, top, load, most, r, rate);
    }
  }
}
