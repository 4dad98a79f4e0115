/** Where the descent of ez/live/optimizer_allocator.py comes to rest, and when that is the best it could do:
    `_covariance_projected_gradient` fills every projection up to the budget, which the objective may not want. */
module DescentLaws {
  import opened Reals
  import opened Simplex
  import opened Refill
  import opened Allocator
  import opened GradientLaws

  // ---- the candidate as a vector -------------------------------------------------------

  lemma {:induction false} Assigned(symbols: seq<string>, x: seq<real>)
    requires Distinct(symbols) && |symbols| == |x|
    ensures Assign(symbols, x).Keys == (set s | s in symbols)
    ensures forall i | 0 <= i < |symbols| :: At(Assign(symbols, x), symbols[i]) == x[i]
  {
    if symbols != [] {
      DistinctRest(symbols);
      Assigned(symbols[1..], x[1..]);
      assert symbols == [symbols[0]] + symbols[1..];
      AssignedFirst(symbols, x);
    }
  }

  lemma DistinctRest(symbols: seq<string>)
    requires symbols != [] && Distinct(symbols)
    ensures Distinct(symbols[1..]) && symbols[0] !in symbols[1..]
  {
  }

  lemma AssignedFirst(symbols: seq<string>, x: seq<real>)
    requires symbols != [] && |symbols| == |x| && symbols[0] !in symbols[1..]
    requires forall i | 0 <= i < |symbols| - 1 :: At(Assign(symbols[1..], x[1..]), symbols[1..][i]) == x[1..][i]
    ensures forall i | 0 <= i < |symbols| :: At(Assign(symbols, x), symbols[i]) == x[i]
  {
    var rest, all := Assign(symbols[1..], x[1..]), Assign(symbols, x);
    forall i | 0 <= i < |symbols| ensures At(all, symbols[i]) == x[i] {
      if i > 0 {
        assert symbols[i] == symbols[1..][i - 1] && symbols[1..][i - 1] in symbols[1..];
        assert At(rest, symbols[1..][i - 1]) == x[1..][i - 1] == x[i];
      }
    }
  }

  lemma PickAssigned(symbols: seq<string>, x: seq<real>)
    requires Distinct(symbols) && |symbols| == |x|
    ensures Pick(symbols, Assign(symbols, x)) == x
  {
    Assigned(symbols, x);
  }

  lemma StandingIsClipped(symbols: seq<string>, v: seq<real>, caps: Weights, budget: real)
    requires Distinct(symbols) && symbols != [] && |v| == |symbols|
    ensures var u := Pick(symbols, caps);
      Untrimmed(symbols, Assign(symbols, v), caps, budget) == Clipped(v, u, Lowering(v, u, budget))
  {
    Assigned(symbols, v);
    PickAssigned(symbols, v);
    AmongAll(symbols, Assign(symbols, v).Keys);
  }

  // ---- one round on vectors ------------------------------------------------------------

  /** The candidate clipped to the caps, before anything is lowered. */
  function Clamped(w: seq<real>, t: seq<real>, sigma: seq<seq<real>>, u: seq<real>, aversion: real,
                   step: real): (r: seq<real>)
    requires |w| == |t| == |u| && Square(sigma, |w|)
    ensures |r| == |w|
  {
    Clipped(Candidate(w, t, sigma, aversion, step), u, 0.0)
  }

  /** The candidate projected onto the box and the budget, before small weights are dropped. */
  function Projected(w: seq<real>, t: seq<real>, sigma: seq<seq<real>>, u: seq<real>, budget: real, aversion: real,
                     step: real): (r: seq<real>)
    requires |w| == |t| == |u| > 0 && Square(sigma, |w|)
    ensures |r| == |w|
  {
    var v := Candidate(w, t, sigma, aversion, step);
    Clipped(v, u, Lowering(v, u, budget))
  }

  /** The projection filled up to the budget. */
  function Refilled(p: seq<real>, t: seq<real>, u: seq<real>, budget: real): (r: seq<real>)
    requires |p| == |t| == |u|
    ensures |r| == |p|
  {
    if Sum(p) >= budget - TINY then p else FilledFrom(p, u, Priorities(t), budget - Sum(p), Range(PASSES))
  }

  /** No weight that a round drops is anything but 0. */
  ghost predicate DropsNothing(p: seq<real>, t: seq<real>, u: seq<real>, budget: real)
    requires |p| == |t| == |u|
  {
    Trimmed(p) == p && Trimmed(Refilled(p, t, u, budget)) == Refilled(p, t, u, budget)
  }

  lemma RoundIsRefill(symbols: seq<string>, w: seq<real>, t: seq<real>, sigma: seq<seq<real>>, caps: Weights,
                      budget: real, aversion: real, step: real)
    requires Distinct(symbols) && symbols != [] && |w| == |t| == |symbols| && Square(sigma, |w|) && budget > 0.0
    requires DropsNothing(Projected(w, t, sigma, Pick(symbols, caps), budget, aversion, step), t, Pick(symbols, caps),
                          budget)
    ensures var u := Pick(symbols, caps);
      Descended(symbols, w, t, sigma, caps, budget, aversion, step)
        == Refilled(Projected(w, t, sigma, u, budget, aversion, step), t, u, budget)
  {
    var v, u := Candidate(w, t, sigma, aversion, step), Pick(symbols, caps);
    var p := Projected(w, t, sigma, u, budget, aversion, step);
    assert Pick(symbols, Projection(symbols, Assign(symbols, v), caps, budget)) == p by {
      ProjectionOfVector(symbols, v, caps, budget, p);
    }
    FillingUp(p, t, u, budget);
  }

  lemma ProjectionOfVector(symbols: seq<string>, v: seq<real>, caps: Weights, budget: real, p: seq<real>)
    requires Distinct(symbols) && symbols != [] && |v| == |symbols| && budget > 0.0
    requires var u := Pick(symbols, caps); p == Clipped(v, u, Lowering(v, u, budget)) && Trimmed(p) == p
    ensures Pick(symbols, Projection(symbols, Assign(symbols, v), caps, budget)) == p
  {
    Assigned(symbols, v);
    AmongAll(symbols, Assign(symbols, v).Keys);
    StandingIsClipped(symbols, v, caps, budget);
    KeepFacts(symbols, p);
  }

  lemma FillingUp(p: seq<real>, t: seq<real>, u: seq<real>, budget: real)
    requires |p| == |t| == |u| && DropsNothing(p, t, u, budget)
    ensures FilledUp(p, u, Priorities(t), budget) == Refilled(p, t, u, budget)
  {
  }

  // ---- the minimum, or not -------------------------------------------------------------

  /** No weights in the box with no larger sum have a lower risk-adjusted distance to the target. */
  ghost predicate IsMinimum(w: seq<real>, t: seq<real>, sigma: seq<seq<real>>, u: seq<real>, aversion: real)
    requires |w| == |t| == |u| && Square(sigma, |w|)
  {
    forall y: seq<real> | |y| == |w| && InBox(y, u) && Sum(y) <= Sum(w) ::
      Objective(w, t, sigma, aversion) <= Objective(y, t, sigma, aversion)
  }

  /** And none but these have one as low. */
  ghost predicate IsOnlyMinimum(w: seq<real>, t: seq<real>, sigma: seq<seq<real>>, u: seq<real>, aversion: real)
    requires |w| == |t| == |u| && Square(sigma, |w|)
  {
    && IsMinimum(w, t, sigma, u, aversion)
    && forall y: seq<real> | |y| == |w| && InBox(y, u) && Sum(y) <= Sum(w) ::
         Objective(w, t, sigma, aversion) == Objective(y, t, sigma, aversion) ==> y == w
  }

  lemma StandingIsMinimum(w: seq<real>, t: seq<real>, sigma: seq<seq<real>>, u: seq<real>, budget: real, aversion: real,
                          step: real)
    requires |w| == |t| == |u| == |sigma| > 0 && Symmetric(sigma) && Semidefinite(sigma)
    requires aversion >= 0.0 && step > 0.0 && budget > 0.0
    requires Projected(w, t, sigma, u, budget, aversion, step) == w
    ensures IsOnlyMinimum(w, t, sigma, u, aversion)
  {
    var v := Candidate(w, t, sigma, aversion, step);
    LoweringFits(v, u, budget);
    forall y: seq<real> | |y| == |w| && InBox(y, u) && Sum(y) <= Sum(w)
      ensures Objective(w, t, sigma, aversion) <= Objective(y, t, sigma, aversion)
      ensures Objective(w, t, sigma, aversion) == Objective(y, t, sigma, aversion) ==> y == w
    {
      StandstillIsOptimal(w, t, sigma, aversion, step, u, Lowering(v, u, budget), y);
    }
  }

  /** A clipped candidate that is not where it started lies downhill. */
  lemma ClampedIsDownhill(w: seq<real>, t: seq<real>, sigma: seq<seq<real>>, u: seq<real>, aversion: real, step: real,
                          p: seq<real>)
    requires |w| == |t| == |u| == |sigma| && Square(sigma, |w|) && step > 0.0 && InBox(w, u)
    requires p == Clamped(w, t, sigma, u, aversion, step) && p != w
    ensures Dot(Gradient(w, t, sigma, aversion), Minus(p, w)) < 0.0
  {
    var v, d := Candidate(w, t, sigma, aversion, step), Minus(p, w);
    var slope := Dot(Gradient(w, t, sigma, aversion), d);
    assert Plus(w, d) == p;
    var far, near, moved := Dist2(w, v), Dist2(p, v), Dist2(p, w);
    assert near == far + 2.0 * Weighed(step, slope) + moved by { StepAlong(w, t, sigma, aversion, step, d, slope); }
    assert far >= near + Dist2(w, p) by { ClippedIsNearer(v, u, 0.0, p, w); }
    assert moved > 0.0 && moved == Dist2(w, p) by { Apart(p, w); }
    FallingStep(far, near, moved, step, slope);
  }

  lemma FallingStep(far: real, near: real, moved: real, step: real, slope: real)
    requires near == far + 2.0 * Weighed(step, slope) + moved && far >= near + moved && moved > 0.0 && step > 0.0
    ensures slope < 0.0
  {
    FallingRate(step, slope, Weighed(step, slope));
  }

  lemma Apart(a: seq<real>, b: seq<real>)
    requires |a| == |b| && a != b
    ensures Dist2(a, b) > 0.0 && Dist2(a, b) == Dist2(b, a)
  {
    Dist2Definite(a, b);
    Dist2Swap(a, b);
  }

  lemma {:induction false} Dist2Swap(a: seq<real>, b: seq<real>)
    requires |a| == |b|
    ensures Dist2(a, b) == Dist2(b, a)
  {
    forall i | 0 <= i < |a| ensures Squares(a, b)[i] == Squares(b, a)[i] { SquareOfMinus(a[i] - b[i], b[i] - a[i]); }
    assert Squares(a, b) == Squares(b, a);
  }

  lemma SquareOfMinus(x: real, y: real)
    requires x == -y
    ensures Sq(x) == Sq(y)
  {
  }

  lemma FallingRate(step: real, slope: real, product: real)
    requires step > 0.0 && product == step * slope && product < 0.0
    ensures slope < 0.0
  {
    if slope > 0.0 { StrictlySameSigns(step, slope, product); }
  }

  /** Some of the way down from `w` to `p` the objective is lower. */
  lemma DownhillIsLower(w: seq<real>, t: seq<real>, sigma: seq<seq<real>>, u: seq<real>, aversion: real, p: seq<real>)
    returns (y: seq<real>)
    requires |w| == |t| == |u| == |p| == |sigma| && Symmetric(sigma) && Semidefinite(sigma) && aversion >= 0.0
    requires InBox(w, u) && InBox(p, u) && Sum(p) <= Sum(w) && Dot(Gradient(w, t, sigma, aversion), Minus(p, w)) < 0.0
    ensures |y| == |w| && InBox(y, u) && Sum(y) <= Sum(w)
    ensures Objective(y, t, sigma, aversion) < Objective(w, t, sigma, aversion)
  {
    var theta := LowerAlong(w, Minus(p, w), t, sigma, aversion);
    y := Plus(w, Scaled(theta, Minus(p, w)));
    PartOfTheWay(w, p, u, theta);
  }

  lemma LowerAlong(w: seq<real>, d: seq<real>, t: seq<real>, sigma: seq<seq<real>>, aversion: real)
    returns (theta: real)
    requires |w| == |t| == |d| == |sigma| && Symmetric(sigma) && Semidefinite(sigma) && aversion >= 0.0
    requires Dot(Gradient(w, t, sigma, aversion), d) < 0.0
    ensures 0.0 < theta <= 1.0
    ensures Objective(Plus(w, Scaled(theta, d)), t, sigma, aversion) < Objective(w, t, sigma, aversion)
  {
    var slope, moved, spread := Dot(Gradient(w, t, sigma, aversion), d), Dist2(Plus(w, d), w), Form(sigma, d, d);
    QuadraticPart(w, d, sigma, aversion, moved, spread);
    theta := ShortEnough(slope, moved, Weighed(aversion, spread));
    ShortMoveLowers(w, d, t, sigma, aversion, theta, slope, moved, spread);
  }

  lemma QuadraticPart(w: seq<real>, d: seq<real>, sigma: seq<seq<real>>, aversion: real, moved: real, spread: real)
    requires |w| == |d| == |sigma| && Symmetric(sigma) && Semidefinite(sigma) && aversion >= 0.0
    requires moved == Dist2(Plus(w, d), w) && spread == Form(sigma, d, d)
    ensures moved >= 0.0 && Weighed(aversion, spread) >= 0.0
  {
    Dist2Definite(Plus(w, d), w);
    assert Form(sigma, d, d) >= 0.0;
    UpShare(aversion, spread);
  }

  lemma UpShare(k: real, x: real)
    requires k >= 0.0 && x >= 0.0
    ensures Weighed(k, x) >= 0.0
  {
    NotNegative(k, x, Weighed(k, x));
  }

  lemma ShortMoveLowers(w: seq<real>, d: seq<real>, t: seq<real>, sigma: seq<seq<real>>, aversion: real, theta: real,
                        slope: real, moved: real, spread: real)
    requires |w| == |d| == |t| == |sigma| && Symmetric(sigma)
    requires slope == Dot(Gradient(w, t, sigma, aversion), d) && moved == Dist2(Plus(w, d), w)
      && spread == Form(sigma, d, d)
    requires 0.0 < theta && slope < 0.0 && Weighed(theta, moved + Weighed(aversion, spread)) <= -slope
    ensures Objective(Plus(w, Scaled(theta, d)), t, sigma, aversion) < Objective(w, t, sigma, aversion)
  {
    var risk := Weighed(aversion, spread);
    var high, low := Objective(Plus(w, Scaled(theta, d)), t, sigma, aversion), Objective(w, t, sigma, aversion);
    assert high == low + Weighed(theta, slope) + Weighed(theta, Weighed(theta, moved)) / 2.0
      + Weighed(theta, Weighed(theta, risk)) / 2.0 by {
      ShortMove(w, d, t, sigma, aversion, theta, slope, moved, spread);
    }
    LowerBy(theta, slope, moved, risk, high, low);
  }

  /** A share of the way short enough for the slope to outweigh what is quadratic. */
  lemma ShortEnough(slope: real, moved: real, risk: real) returns (theta: real)
    requires slope < 0.0 && moved >= 0.0 && risk >= 0.0
    ensures 0.0 < theta <= 1.0 && Weighed(theta, moved + risk) <= -slope
  {
    var whole := moved + risk - slope;
    theta := -slope / whole;
    assert theta * whole == -slope;
    QuotientInUnit(-slope, whole, theta);
    SmallerFactor(theta, moved + risk, whole);
  }

  lemma QuotientInUnit(part: real, whole: real, theta: real)
    requires 0.0 < part <= whole && theta * whole == part
    ensures 0.0 < theta <= 1.0
  {
    if theta <= 0.0 { MulOrder(theta, 0.0, whole); }
    if theta > 1.0 { StrictlySameSigns(theta - 1.0, whole, (theta - 1.0) * whole); }
  }

  lemma PartOfTheWay(w: seq<real>, p: seq<real>, u: seq<real>, theta: real)
    requires |w| == |p| == |u| && InBox(w, u) && InBox(p, u) && Sum(p) <= Sum(w) && 0.0 < theta <= 1.0
    ensures var y := Plus(w, Scaled(theta, Minus(p, w))); InBox(y, u) && Sum(y) <= Sum(w)
  {
    var d := Minus(p, w);
    var sum := Sum(d);
    assert Plus(w, d) == p;
    SumOfMinus(p, w);
    SumFalls(w, d, theta, sum);
    StaysInBox(w, d, u, theta);
  }

  lemma StaysInBox(w: seq<real>, d: seq<real>, u: seq<real>, theta: real)
    requires |w| == |d| == |u| && InBox(w, u) && InBox(Plus(w, d), u) && 0.0 < theta <= 1.0
    ensures InBox(Plus(w, Scaled(theta, d)), u)
  {
    var y := Plus(w, Scaled(theta, d));
    forall i | 0 <= i < |w| ensures 0.0 <= y[i] <= Max(0.0, u[i]) {
      ScaledAt(theta, d, i);
      assert 0.0 <= Plus(w, d)[i] <= Max(0.0, u[i]);
      Between(w[i], d[i], theta, Max(0.0, u[i]));
    }
  }

  lemma ScaledAt(theta: real, s: seq<real>, i: nat)
    requires i < |s|
    ensures Scaled(theta, s)[i] == Weighed(theta, s[i])
  {
  }

  lemma SumFalls(w: seq<real>, d: seq<real>, theta: real, sum: real)
    requires |w| == |d| && sum == Sum(d) && sum <= 0.0 && theta > 0.0
    ensures Sum(Plus(w, Scaled(theta, d))) <= Sum(w)
  {
    SumOfShare(theta, d, sum);
    SumOfPlus(w, Scaled(theta, d));
    DownShare(theta, sum);
  }

  lemma SumOfShare(theta: real, d: seq<real>, sum: real)
    requires sum == Sum(d)
    ensures Sum(Scaled(theta, d)) == Weighed(theta, sum)
  {
    SumOfScaled(theta, d, sum);
  }

  lemma DownShare(theta: real, sum: real)
    requires theta >= 0.0 && sum <= 0.0
    ensures Weighed(theta, sum) <= 0.0
  {
    NotNegative(theta, -sum, -Weighed(theta, sum));
  }

  lemma Between(a: real, way: real, theta: real, top: real)
    requires 0.0 <= a <= top && 0.0 <= a + way <= top && 0.0 < theta <= 1.0
    ensures 0.0 <= a + Weighed(theta, way) <= top
  {
    var part := Weighed(theta, way);
    if way >= 0.0 { ShareOf(theta, way, part); } else { ShareOf(theta, -way, -part); }
  }

  lemma ShareOf(theta: real, whole: real, part: real)
    requires 0.0 < theta <= 1.0 && whole >= 0.0 && part == theta * whole
    ensures 0.0 <= part <= whole
  {
    Distribute(whole, 1.0 - theta, theta);
    NotNegative(1.0 - theta, whole, whole - part);
    NotNegative(theta, whole, part);
  }

  /** A share of a move: the slope in proportion, the rest with its square. */
  lemma ShortMove(w: seq<real>, d: seq<real>, t: seq<real>, sigma: seq<seq<real>>, aversion: real, theta: real,
                  slope: real, moved: real, spread: real)
    requires |w| == |d| == |t| == |sigma| && Symmetric(sigma)
    requires slope == Dot(Gradient(w, t, sigma, aversion), d) && moved == Dist2(Plus(w, d), w)
      && spread == Form(sigma, d, d)
    ensures Objective(Plus(w, Scaled(theta, d)), t, sigma, aversion)
      == Objective(w, t, sigma, aversion) + Weighed(theta, slope) + Weighed(theta, Weighed(theta, moved)) / 2.0
         + Weighed(theta, Weighed(theta, Weighed(aversion, spread))) / 2.0
  {
    var part, g := Scaled(theta, d), Gradient(w, t, sigma, aversion);
    var high, low := Objective(Plus(w, part), t, sigma, aversion), Objective(w, t, sigma, aversion);
    assert Dot(g, part) == Weighed(theta, slope) by { DotScaled(g, theta, d, slope); }
    assert Form(sigma, part, part) == Weighed(theta, Weighed(theta, spread)) by { FormScaled(sigma, theta, d, spread); }
    assert Dist2(Plus(w, part), w) == Weighed(theta, Weighed(theta, moved)) by { Dist2Scaled(w, d, theta, moved); }
    ObjectiveAfter(w, part, t, sigma, aversion, high, low, Weighed(theta, slope), Weighed(theta, Weighed(theta, moved)),
                   Weighed(theta, Weighed(theta, spread)));
    WeighedSwap(aversion, theta, Weighed(theta, spread));
    WeighedSwap(aversion, theta, spread);
  }

  lemma WeighedSwap(a: real, b: real, x: real)
    ensures Weighed(a, Weighed(b, x)) == Weighed(b, Weighed(a, x))
  {
    Shuffle(a, b, x, a * x);
  }

  lemma FormScaled(sigma: seq<seq<real>>, theta: real, d: seq<real>, spread: real)
    requires |d| == |sigma| && Square(sigma, |d|) && spread == Form(sigma, d, d)
    ensures Form(sigma, Scaled(theta, d), Scaled(theta, d)) == Weighed(theta, Weighed(theta, spread))
  {
    var part := Scaled(theta, d);
    assert Times(sigma, part) == Scaled(theta, Times(sigma, d)) by {
      forall i | 0 <= i < |d| ensures Times(sigma, part)[i] == Scaled(theta, Times(sigma, d))[i] {
        DotScaled(sigma[i], theta, d, Dot(sigma[i], d));
        assert Scaled(theta, Times(sigma, d))[i] == theta * Times(sigma, d)[i];
      }
    }
    var q := Times(sigma, d);
    DotScaled(part, theta, q, Dot(part, q));
    DotSwap(part, q);
    DotScaled(q, theta, d, Dot(q, d));
    DotSwap(q, d);
  }

  lemma {:induction false} Dist2Scaled(w: seq<real>, d: seq<real>, theta: real, moved: real)
    requires |w| == |d| && moved == Dist2(Plus(w, d), w)
    ensures Dist2(Plus(w, Scaled(theta, d)), w) == Weighed(theta, Weighed(theta, moved))
  {
    if w != [] {
      var y, z := Plus(w, d), Plus(w, Scaled(theta, d));
      var first := Sq(y[0] - w[0]);
      PlusTail(w, d);
      SquaresTail(y, w);
      PlusTail(w, Scaled(theta, d));
      SquaresTail(z, w);
      ScaledTail(theta, d);
      Dist2Scaled(w[1..], d[1..], theta, moved - first);
      ScaledAt(theta, d, 0);
      SquareOfPart(w[0], d[0], theta, y[0], z[0]);
      TwiceSum(theta, first, moved - first, moved);
    }
  }

  lemma PlusTail(a: seq<real>, b: seq<real>)
    requires |a| == |b| > 0
    ensures Plus(a, b)[1..] == Plus(a[1..], b[1..])
  {
  }

  lemma TwiceSum(theta: real, a: real, b: real, whole: real)
    requires whole == a + b
    ensures Weighed(theta, Weighed(theta, whole)) == Weighed(theta, Weighed(theta, a))
      + Weighed(theta, Weighed(theta, b))
  {
    WeighedSum(theta, a, b, whole);
    WeighedSum(theta, Weighed(theta, a), Weighed(theta, b), Weighed(theta, whole));
  }

  lemma SquareOfPart(w: real, d: real, theta: real, y: real, z: real)
    requires y == w + d && z == w + Weighed(theta, d)
    ensures Sq(z - w) == Weighed(theta, Weighed(theta, Sq(y - w)))
  {
    assert y - w == d && z - w == Weighed(theta, d);
  }

  lemma LowerBy(theta: real, slope: real, moved: real, risk: real, high: real, low: real)
    requires 0.0 < theta && slope < 0.0 && Weighed(theta, moved + risk) <= -slope
    requires high == low + Weighed(theta, slope) + Weighed(theta, Weighed(theta, moved)) / 2.0
      + Weighed(theta, Weighed(theta, risk)) / 2.0
    ensures high < low
  {
    var a, b, down := Weighed(theta, moved), Weighed(theta, risk), Weighed(theta, slope);
    WeighedSum(theta, moved, risk, moved + risk);
    WeighedSum(theta, a, b, a + b);
    ShareOrder(theta, a + b, -slope);
    StrictlySameSigns(theta, -slope, -down);
  }

  lemma ShareOrder(theta: real, x: real, y: real)
    requires theta > 0.0 && x <= y
    ensures Weighed(theta, x) <= -Weighed(theta, -y)
  {
    SmallerFactor(theta, x, y);
  }

  // ---- when the refill does something --------------------------------------------------

  /** The refill leaves a projection alone exactly when it uses the budget up to 1e-12 or no symbol has room. */
  lemma RefillIsIdle(p: seq<real>, t: seq<real>, u: seq<real>, budget: real)
    requires |p| == |t| == |u| && InBox(p, u)
    ensures var idle := Sum(p) >= budget - TINY || Open(p, u) == 0;
      if idle then Refilled(p, t, u, budget) == p else Sum(Refilled(p, t, u, budget)) > Sum(p)
  {
    if Sum(p) < budget - TINY { PassesAdd(p, u, Priorities(t), budget, Range(PASSES)); }
  }

  lemma PassesAdd(p: seq<real>, u: seq<real>, priority: seq<real>, budget: real, rounds: seq<nat>)
    requires |p| == |u| == |priority| && InBox(p, u) && Sum(p) < budget - TINY && rounds != []
    ensures var r := FilledFrom(p, u, priority, budget - Sum(p), rounds);
      if Open(p, u) == 0 then r == p else Sum(r) > Sum(p)
  {
    if Open(p, u) > 0 { FirstPassAdds(p, u, priority, budget - Sum(p), rounds); }
  }

  lemma FirstPassAdds(p: seq<real>, u: seq<real>, priority: seq<real>, residual: real, rounds: seq<nat>)
    requires |p| == |u| == |priority| && InBox(p, u) && Open(p, u) > 0 && residual > TINY && rounds != []
    ensures Sum(FilledFrom(p, u, priority, residual, rounds)) > Sum(p)
  {
    PassFacts(p, u, priority, residual);
    var adds := Adds(p, u, priority, residual, Sum(Shares(p, u, priority)));
    FilledFromFacts(Plus(p, adds), u, priority, residual - Sum(adds), rounds[1..]);
  }

  /** The bisection is fine enough, should it be needed, not to leave more than 1e-12 of the budget. */
  ghost predicate Resolves(v: seq<real>, u: seq<real>)
    requires |v| == |u| > 0
  {
    Slack(|v|, StartWidth(v, u)) <= TINY
  }

  /** The clipped candidate uses the budget up to 1e-12, or every symbol is at its cap. */
  predicate UsesBudget(w: seq<real>, t: seq<real>, sigma: seq<seq<real>>, u: seq<real>, budget: real, aversion: real,
                       step: real)
    requires |w| == |t| == |u|
    requires |sigma| == |w| && forall i | 0 <= i < |w| :: |sigma[i]| == |w|
  {
    var c := Clamped(w, t, sigma, u, aversion, step);
    Sum(c) >= budget - TINY || Open(c, u) == 0
  }

  /** A projection is left alone exactly when the clipped candidate uses the budget. */
  lemma IdleExactly(w: seq<real>, t: seq<real>, sigma: seq<seq<real>>, u: seq<real>, budget: real, aversion: real,
                    step: real, p: seq<real>)
    requires |w| == |t| == |u| == |sigma| > 0 && Square(sigma, |w|) && budget > 0.0
      && p == Projected(w, t, sigma, u, budget, aversion, step)
    requires Resolves(Candidate(w, t, sigma, aversion, step), u)
    ensures (Sum(p) >= budget - TINY || Open(p, u) == 0) <==> UsesBudget(w, t, sigma, u, budget, aversion, step)
    ensures !UsesBudget(w, t, sigma, u, budget, aversion, step) ==> p == Clamped(w, t, sigma, u, aversion, step)
  {
    LoweringFits(Candidate(w, t, sigma, aversion, step), u, budget);
  }

  lemma RestOfARound(w: seq<real>, t: seq<real>, sigma: seq<seq<real>>, u: seq<real>, budget: real, aversion: real,
                     step: real)
    requires |w| == |t| == |u| == |sigma| > 0 && Symmetric(sigma) && Semidefinite(sigma)
    requires aversion >= 0.0 && step > 0.0 && budget > 0.0 && InBox(w, u)
      && Resolves(Candidate(w, t, sigma, aversion, step), u)
    requires Refilled(Projected(w, t, sigma, u, budget, aversion, step), t, u, budget) == w
    ensures if UsesBudget(w, t, sigma, u, budget, aversion, step) then IsOnlyMinimum(w, t, sigma, u, aversion)
            else !IsMinimum(w, t, sigma, u, aversion)
  {
    var v, p := Candidate(w, t, sigma, aversion, step), Projected(w, t, sigma, u, budget, aversion, step);
    LoweringFits(v, u, budget);
    ClippedFits(v, u, Lowering(v, u, budget));
    RefillIsIdle(p, t, u, budget);
    IdleExactly(w, t, sigma, u, budget, aversion, step, p);
    if UsesBudget(w, t, sigma, u, budget, aversion, step) {
      StandingIsMinimum(w, t, sigma, u, budget, aversion, step);
    } else {
      ClampedIsDownhill(w, t, sigma, u, aversion, step, p);
      var y := DownhillIsLower(w, t, sigma, u, aversion, p);
    }
  }

  // ---- the step size and the reach of a candidate --------------------------------------

  function Unit(n: nat, i: nat): (r: seq<real>)
    ensures |r| == n
  {
    seq(n, k => if k == i then 1.0 else 0.0)
  }

  lemma UnitTail(n: nat, i: nat)
    requires 0 < i < n
    ensures Unit(n, i)[1..] == Unit(n - 1, i - 1)
  {
  }

  lemma {:induction false} DotZero(a: seq<real>, z: seq<real>)
    requires |a| == |z| && forall k | 0 <= k < |z| :: z[k] == 0.0
    ensures Dot(a, z) == 0.0
  {
    if a != [] {
      DotZero(a[1..], z[1..]);
      assert a[0] * z[0] == 0.0;
    }
  }

  lemma {:induction false} DotUnit(a: seq<real>, i: nat)
    requires i < |a|
    ensures Dot(a, Unit(|a|, i)) == a[i]
  {
    if i == 0 {
      DotZero(a[1..], Unit(|a|, 0)[1..]);
    } else {
      UnitTail(|a|, i);
      DotUnit(a[1..], i - 1);
      assert a[0] * Unit(|a|, i)[0] == 0.0;
    }
  }

  /** An entry of a matrix is its form at two units. */
  lemma FormOfUnits(sigma: seq<seq<real>>, i: nat, j: nat)
    requires Square(sigma, |sigma|) && i < |sigma| && j < |sigma|
    ensures Form(sigma, Unit(|sigma|, i), Unit(|sigma|, j)) == sigma[i][j]
  {
    var n := |sigma|;
    var column := Times(sigma, Unit(n, j));
    DotSwap(Unit(n, i), column);
    DotUnit(column, i);
    DotUnit(sigma[i], j);
  }

  /** The risk of one symbol and a share, or a short, of another. */
  lemma RiskOfPair(sigma: seq<seq<real>>, i: nat, j: nat, k: real)
    requires Symmetric(sigma) && Semidefinite(sigma) && i < |sigma| && j < |sigma|
    ensures sigma[i][i] + 2.0 * Weighed(k, sigma[i][j]) + Weighed(k, Weighed(k, sigma[j][j])) >= 0.0
  {
    var n := |sigma|;
    var a, b := Unit(n, i), Unit(n, j);
    var d := Scaled(k, b);
    FormOfSum(sigma, a, d);
    assert Form(sigma, Plus(a, d), Plus(a, d)) >= 0.0;
    FormOfUnits(sigma, i, i);
    FormOfUnits(sigma, i, j);
    FormOfUnits(sigma, j, i);
    FormOfUnits(sigma, j, j);
    FormScaled(sigma, k, b, sigma[j][j]);
    assert Form(sigma, d, a) == Weighed(k, sigma[i][j]) by {
      var q := Times(sigma, a);
      DotSwap(d, q);
      DotSwap(b, q);
      DotScaled(q, k, b, Dot(q, b));
    }
  }

  lemma {:induction false} DiagonalBelowMax(sigma: seq<seq<real>>, n: nat, i: nat)
    requires i < n <= |sigma| && forall k | 0 <= k < n :: n <= |sigma[k]|
    ensures sigma[i][i] <= MaxDiagonal(sigma, n)
  {
    if i < n - 1 { DiagonalBelowMax(sigma, n - 1, i); }
  }

  /** No covariance exceeds the greatest variance. */
  lemma CovarianceBelowVariance(sigma: seq<seq<real>>, i: nat, j: nat)
    requires Symmetric(sigma) && Semidefinite(sigma) && i < |sigma| && j < |sigma|
    ensures -MaxDiagonal(sigma, |sigma|) <= sigma[i][j] <= MaxDiagonal(sigma, |sigma|)
  {
    RiskOfPair(sigma, i, j, 1.0);
    RiskOfPair(sigma, i, j, -1.0);
    DiagonalBelowMax(sigma, |sigma|, i);
    DiagonalBelowMax(sigma, |sigma|, j);
  }

  lemma {:induction false} DotBetween(row: seq<real>, w: seq<real>, most: real, sum: real)
    requires |row| == |w| && sum == Sum(w)
    requires forall k | 0 <= k < |w| :: w[k] >= 0.0 && -most <= row[k] <= most
    ensures -Weighed(most, sum) <= Dot(row, w) <= Weighed(most, sum)
  {
    if w != [] {
      DotBetween(row[1..], w[1..], most, sum - w[0]);
      assert Dot(row, w) == Weighed(row[0], w[0]) + Dot(row[1..], w[1..]);
      EntryBetween(row[0], w[0], most);
      WeighedSum(most, w[0], sum - w[0], sum);
    }
  }

  lemma EntryBetween(entry: real, x: real, most: real)
    requires x >= 0.0 && -most <= entry <= most
    ensures -Weighed(most, x) <= Weighed(entry, x) <= Weighed(most, x)
  {
    MulOrder(entry, most, x);
    MulOrder(-most, entry, x);
    assert -most * x == -(most * x);
  }

  lemma StepFacts(top: real, aversion: real)
    requires top >= 0.0 && aversion >= 0.0
    ensures var step := StepFor(top, aversion); 0.0 < step <= 1.0 && Weighed(step, Weighed(aversion, top)) <= 0.25
  {
    var step, load := StepFor(top, aversion), Weighed(aversion, top);
    UpShare(aversion, top);
    var whole := 1.0 + 4.0 * load;
    assert aversion * top * 4.0 == 4.0 * load;
    assert step * whole == 1.0;
    QuotientInUnit(1.0, whole, step);
    Distribute(step, 1.0, 4.0 * load);
  }

  /** The risk term of a step moves no weight by more than a quarter of the sum. */
  lemma RiskMoves(step: real, aversion: real, most: real, sum: real, dot: real)
    requires step > 0.0 && aversion >= 0.0 && sum >= 0.0 && Weighed(step, Weighed(aversion, most)) <= 0.25
    requires -Weighed(most, sum) <= dot <= Weighed(most, sum)
    ensures -sum / 4.0 <= Weighed(step, Weighed(aversion, dot)) <= sum / 4.0
  {
    var reach := Weighed(most, sum);
    var whole := Weighed(step, Weighed(aversion, reach));
    assert whole <= sum / 4.0 by {
      WeighedSwap(aversion, most, sum);
      Regroup(step, aversion, most, sum);
      MulOrder(Weighed(step, Weighed(aversion, most)), 0.25, sum);
    }
    TwiceOrder(step, aversion, dot, reach);
    TwiceOrder(step, aversion, -reach, dot);
    TwiceSum2(step, aversion, reach);
  }

  lemma Regroup(a: real, b: real, c: real, x: real)
    ensures Weighed(a, Weighed(b, Weighed(c, x))) == Weighed(a, Weighed(b, c)) * x
  {
    var bc := b * c;
    assert b * (c * x) == bc * x;
  }

  lemma TwiceOrder(a: real, b: real, x: real, y: real)
    requires a >= 0.0 && b >= 0.0 && x <= y
    ensures Weighed(a, Weighed(b, x)) <= Weighed(a, Weighed(b, y))
  {
    SmallerFactor(b, x, y);
    SmallerFactor(a, b * x, b * y);
  }

  lemma TwiceSum2(a: real, b: real, x: real)
    ensures Weighed(a, Weighed(b, -x)) == -Weighed(a, Weighed(b, x))
  {
    assert b * -x == -(b * x);
    assert a * -(b * x) == -(a * (b * x));
  }

  /** A candidate strays from the caps by no more than a quarter of the sum. */
  lemma CandidateReach(w: seq<real>, t: seq<real>, sigma: seq<seq<real>>, aversion: real, most: real, i: nat, sum: real)
    requires |w| == |t| == |sigma| && i < |w| && Symmetric(sigma) && Semidefinite(sigma) && aversion >= 0.0
      && sum == Sum(w)
    requires forall k | 0 <= k < |w| :: 0.0 <= w[k] <= most && 0.0 <= t[k] <= most
    ensures -sum / 4.0 <= Candidate(w, t, sigma, aversion, StepSize(sigma, |w|, aversion))[i] <= most + sum / 4.0
  {
    var step, dot := StepSize(sigma, |w|, aversion), Dot(sigma[i], w);
    StepOf(sigma, aversion);
    var shift := RiskReach(w, sigma, aversion, i, step, dot, sum);
    var base := StepBetween(w[i], t[i], most, step);
    var entry, load := CandidateEntry(w, t, sigma, aversion, step, i);
    WeighedSum(step, w[i] - t[i], load, (w[i] - t[i]) + load);
  }

  lemma CandidateEntry(w: seq<real>, t: seq<real>, sigma: seq<seq<real>>, aversion: real, step: real, i: nat)
    returns (entry: real, load: real)
    requires |w| == |t| && Square(sigma, |w|) && i < |w|
    ensures entry == Candidate(w, t, sigma, aversion, step)[i] && load == Weighed(aversion, Dot(sigma[i], w))
    ensures entry == w[i] - Weighed(step, (w[i] - t[i]) + load)
  {
    entry, load := Candidate(w, t, sigma, aversion, step)[i], Weighed(aversion, Dot(sigma[i], w));
  }

  lemma RiskReach(w: seq<real>, sigma: seq<seq<real>>, aversion: real, i: nat, step: real, dot: real, sum: real)
    returns (shift: real)
    requires |w| == |sigma| && i < |w| && Symmetric(sigma) && Semidefinite(sigma) && aversion >= 0.0
    requires (forall k | 0 <= k < |w| :: 0.0 <= w[k]) && dot == Dot(sigma[i], w) && sum == Sum(w)
    requires step == StepSize(sigma, |w|, aversion)
    ensures shift == Weighed(step, Weighed(aversion, dot)) && -sum / 4.0 <= shift <= sum / 4.0
  {
    var top := MaxDiagonal(sigma, |w|);
    shift := Weighed(step, Weighed(aversion, dot));
    assert sum >= 0.0 by { SumOfNonnegative(w); }
    assert -Weighed(top, sum) <= dot <= Weighed(top, sum) by { RowBetween(w, sigma, i, top, sum); }
    assert 0.0 < step && Weighed(step, Weighed(aversion, top)) <= 0.25 by { StepOf(sigma, aversion); }
    RiskMoves(step, aversion, top, sum, dot);
  }

  lemma StepOf(sigma: seq<seq<real>>, aversion: real)
    requires Symmetric(sigma) && Semidefinite(sigma) && sigma != [] && aversion >= 0.0
    ensures var step := StepSize(sigma, |sigma|, aversion);
      0.0 < step <= 1.0 && Weighed(step, Weighed(aversion, MaxDiagonal(sigma, |sigma|))) <= 0.25
  {
    TopIsNotNegative(sigma);
    StepFacts(MaxDiagonal(sigma, |sigma|), aversion);
  }

  lemma RowBetween(w: seq<real>, sigma: seq<seq<real>>, i: nat, top: real, sum: real)
    requires |w| == |sigma| && i < |w| && Symmetric(sigma) && Semidefinite(sigma)
    requires (forall k | 0 <= k < |w| :: 0.0 <= w[k]) && sum == Sum(w) && top == MaxDiagonal(sigma, |w|)
    ensures -Weighed(top, sum) <= Dot(sigma[i], w) <= Weighed(top, sum)
  {
    forall k | 0 <= k < |w| ensures -top <= sigma[i][k] <= top { CovarianceBelowVariance(sigma, i, k); }
    DotBetween(sigma[i], w, top, sum);
  }

  lemma TopIsNotNegative(sigma: seq<seq<real>>)
    requires Symmetric(sigma) && Semidefinite(sigma) && sigma != []
    ensures MaxDiagonal(sigma, |sigma|) >= 0.0
  {
    CovarianceBelowVariance(sigma, 0, 0);
  }

  lemma StepBetween(x: real, t: real, most: real, step: real) returns (base: real)
    requires 0.0 <= x <= most && 0.0 <= t <= most && 0.0 < step <= 1.0
    ensures base == x - Weighed(step, x - t) && 0.0 <= base <= most
  {
    base := x - Weighed(step, x - t);
    Between(x, t - x, step, most);
    Distribute(step, x - t, t - x);
  }

  /** The interval the bisection starts from. */
  lemma WidthBelow(v: seq<real>, u: seq<real>, low: real, high: real, most: real)
    requires |v| == |u| > 0 && forall i | 0 <= i < |v| :: low <= v[i] <= high && u[i] <= most
    ensures StartWidth(v, u) <= high - low + most
  {
    var lo, hi := StartLow(v, u), StartHigh(v);
    var i :| 0 <= i < |v| && Minus(v, u)[i] == lo;
    var j :| 0 <= j < |v| && Negated(v)[j] == -hi;
  }

  lemma {:induction false} PowersAdd(a: nat, b: nat)
    ensures Pow2(a + b) == Pow2(a) * Pow2(b)
  {
    if a > 0 {
      PowersAdd(a - 1, b);
      assert Pow2(a + b) == 2.0 * (Pow2(a - 1) * Pow2(b));
    }
  }

  /** Eighty halvings divide by more than 10^24. */
  lemma ManyHalvings(rounds: nat)
    requires rounds == 80
    ensures Pow2(rounds) >= 1000000000000000000000000.0
  {
    var five, ten, twenty, forty := rounds / 16, rounds / 8, rounds / 4, rounds / 2;
    assert Pow2(five) == 32.0 by { Thirtytwo(five); }
    PowersAdd(five, five);
    PowersAdd(ten, ten);
    PowersAdd(twenty, twenty);
    PowersAdd(forty, forty);
  }

  lemma Thirtytwo(five: nat)
    requires five == 5
    ensures Pow2(five) == 32.0
  {
    assert Pow2(five - 4) == 2.0 && Pow2(five - 3) == 4.0 && Pow2(five - 2) == 8.0 && Pow2(five - 1) == 16.0;
  }

  /** `n` weights in intervals of this width are few and narrow enough for eighty halvings. */
  predicate Narrow(n: nat, width: real) { n as real * width <= 1000000000000.0 }

  lemma NarrowBelow(n: nat, a: real, b: real)
    requires Narrow(n, b) && a <= b
    ensures Narrow(n, a)
  {
    SmallerFactor(n as real, a, b);
  }

  lemma HalvedToTiny(n: nat, width: real, rounds: seq<nat>)
    requires Narrow(n, width) && |rounds| == 80
    ensures n as real * Halved(width, rounds) <= TINY
  {
    HalvedIsDivided(width, rounds);
    ManyHalvings(|rounds|);
    QuotientBelow(n as real, width, Pow2(|rounds|), Halved(width, rounds));
  }

  lemma QuotientBelow(n: real, width: real, power: real, last: real)
    requires n * width <= 1000000000000.0 && power >= 1000000000000000000000000.0 && last == width / power
    ensures n * last <= TINY
  {
    assert last * power == width;
    assert (n * last) * power == n * width;
    if n * last > TINY { MulOrder(TINY, n * last, power); }
  }

  lemma CandidateWithin(w: seq<real>, t: seq<real>, sigma: seq<seq<real>>, aversion: real, most: real, sum: real,
                        v: seq<real>)
    requires |w| == |t| == |sigma| > 0 && Symmetric(sigma) && Semidefinite(sigma) && aversion >= 0.0 && sum == Sum(w)
    requires forall k | 0 <= k < |w| :: 0.0 <= w[k] <= most && 0.0 <= t[k] <= most
    requires v == Candidate(w, t, sigma, aversion, StepSize(sigma, |w|, aversion))
    ensures forall i | 0 <= i < |v| :: -sum / 4.0 <= v[i] <= most + sum / 4.0
  {
    forall i | 0 <= i < |v|
      ensures -sum / 4.0 <= v[i] <= most + sum / 4.0
    {
      CandidateReach(w, t, sigma, aversion, most, i, sum);
    }
  }

  /** With caps of at most `most`, the bisection of a candidate leaves less than 1e-12 of the budget unless there are
      more symbols than any market has. */
  lemma CandidateResolves(w: seq<real>, t: seq<real>, sigma: seq<seq<real>>, u: seq<real>, aversion: real, most: real,
                          sum: real)
    requires |w| == |t| == |u| == |sigma| > 0 && Symmetric(sigma) && Semidefinite(sigma) && aversion >= 0.0
      && sum == Sum(w)
    requires forall k | 0 <= k < |w| :: 0.0 <= w[k] <= most && 0.0 <= t[k] <= most
    requires forall k | 0 <= k < |w| :: u[k] <= most
    requires Narrow(|w|, 2.0 * most + sum / 2.0)
    ensures Resolves(Candidate(w, t, sigma, aversion, StepSize(sigma, |w|, aversion)), u)
  {
    var v := Candidate(w, t, sigma, aversion, StepSize(sigma, |w|, aversion));
    CandidateWithin(w, t, sigma, aversion, most, sum, v);
    WithinResolves(v, u, sum, most);
  }

  lemma WithinResolves(v: seq<real>, u: seq<real>, sum: real, most: real)
    requires |v| == |u| > 0 && (forall i | 0 <= i < |v| :: -sum / 4.0 <= v[i] <= most + sum / 4.0)
      && forall i | 0 <= i < |u| :: u[i] <= most
    requires Narrow(|v|, 2.0 * most + sum / 2.0)
    ensures Resolves(v, u)
  {
    WidthBelow(v, u, -sum / 4.0, most + sum / 4.0, most);
    NarrowResolves(v, u, 2.0 * most + sum / 2.0);
  }

  lemma NarrowResolves(v: seq<real>, u: seq<real>, bound: real)
    requires |v| == |u| > 0 && StartWidth(v, u) <= bound && Narrow(|v|, bound)
    ensures Resolves(v, u)
  {
    NarrowBelow(|v|, StartWidth(v, u), bound);
    HalvedToTiny(|v|, StartWidth(v, u), Range(ROUNDS));
  }

  // ---- the main result -----------------------------------------------------------------

  /** When a round of the loop returns the weights it started from, these are the only minimum of the risk-adjusted
      distance to the target among the weights in the caps with no larger sum if and only if the clipped candidate
      already uses the budget, or every symbol is at its cap. Otherwise the refill put them there, and they are no
      minimum at all. */
  lemma SettledIsOptimalExactly(symbols: seq<string>, w: seq<real>, t: seq<real>, sigma: seq<seq<real>>, caps: Weights,
                                budget: real, aversion: real, most: real)
    requires Distinct(symbols) && symbols != [] && |w| == |t| == |symbols| == |sigma| && budget > 0.0
    requires Symmetric(sigma) && Semidefinite(sigma) && aversion >= 0.0
    requires InBox(t, Pick(symbols, caps)) && (forall s | s in caps :: caps[s] <= most) && most >= 0.0
    requires Narrow(|symbols|, 2.0 * most + budget + TINY)
    requires var step, u := StepSize(sigma, |w|, aversion), Pick(symbols, caps);
      && DropsNothing(Projected(w, t, sigma, u, budget, aversion, step), t, u, budget)
      && Descended(symbols, w, t, sigma, caps, budget, aversion, step) == w
    ensures var step, u := StepSize(sigma, |w|, aversion), Pick(symbols, caps);
      && (IsMinimum(w, t, sigma, u, aversion) <==> UsesBudget(w, t, sigma, u, budget, aversion, step))
      && (IsMinimum(w, t, sigma, u, aversion) ==> IsOnlyMinimum(w, t, sigma, u, aversion))
  {
    var step, u := StepSize(sigma, |w|, aversion), Pick(symbols, caps);
    DescendedFits(symbols, w, t, sigma, caps, budget, aversion, step);
    RoundIsRefill(symbols, w, t, sigma, caps, budget, aversion, step);
    assert step > 0.0 by { StepOf(sigma, aversion); }
    assert Resolves(Candidate(w, t, sigma, aversion, step), u) by {
      LoopResolves(symbols, w, t, sigma, caps, budget, aversion, most);
    }
    RestOfARound(w, t, sigma, u, budget, aversion, step);
  }

  lemma LoopResolves(symbols: seq<string>, w: seq<real>, t: seq<real>, sigma: seq<seq<real>>, caps: Weights,
                     budget: real, aversion: real, most: real)
    requires symbols != [] && |w| == |t| == |symbols| == |sigma| && budget > 0.0
    requires Symmetric(sigma) && Semidefinite(sigma) && aversion >= 0.0
    requires InBox(t, Pick(symbols, caps)) && (forall s | s in caps :: caps[s] <= most) && most >= 0.0
    requires Narrow(|symbols|, 2.0 * most + budget + TINY) && Fits(w, symbols, caps, budget)
    ensures Resolves(Candidate(w, t, sigma, aversion, StepSize(sigma, |w|, aversion)), Pick(symbols, caps))
  {
    var u, sum := Pick(symbols, caps), Sum(w);
    CapsBelow(symbols, caps, most);
    BoxBelow(w, u, most);
    BoxBelow(t, u, most);
    NarrowBelow(|w|, 2.0 * most + sum / 2.0, 2.0 * most + budget + TINY);
    CandidateResolves(w, t, sigma, u, aversion, most, sum);
  }

  lemma CapsBelow(symbols: seq<string>, caps: Weights, most: real)
    requires (forall s | s in caps :: caps[s] <= most) && most >= 0.0
    ensures forall k | 0 <= k < |symbols| :: Pick(symbols, caps)[k] <= most
  {
  }

  lemma BoxBelow(w: seq<real>, u: seq<real>, most: real)
    requires |w| == |u| && InBox(w, u) && most >= 0.0 && forall k | 0 <= k < |u| :: u[k] <= most
    ensures forall k | 0 <= k < |w| :: 0.0 <= w[k] <= most
  {
  }

  // ---- a portfolio that cannot come down -----------------------------------------------

  lemma OnePassFills(rounds: seq<nat>)
    requires rounds != []
    ensures FilledFrom([0.8], [1.0], [1.0], 0.2, rounds) == [1.0]
  {
    var w, u, priority := [0.8], [1.0], [1.0];
    assert w[1..] == [] && u[1..] == [] && priority[1..] == [];
    assert Shares(w, u, priority) == [1.0] && Sum(Shares(w, u, priority)) == 1.0;
    var adds := Adds(w, u, priority, 0.2, 1.0);
    assert adds == [0.2];
    assert Sum(adds) == 0.2;
    assert Plus(w, adds) == [1.0];
    assert Open([1.0], u) == 0;
  }

  lemma OneSymbolStep()
    ensures Square([[1.0]], 1) && StepSize([[1.0]], 1, 1.0) == 0.2
    ensures Candidate([1.0], [1.0], [[1.0]], 1.0, 0.2) == [0.8]
  {
    var w, sigma := [1.0], [[1.0]];
    assert w[1..] == [] && Dot(sigma[0], w) == 1.0;
  }

  lemma OneSymbolProjection()
    ensures Square([[1.0]], 1) && Projected([1.0], [1.0], [[1.0]], [1.0], 1.0, 1.0, 0.2) == [0.8]
  {
    OneSymbolStep();
    var v, u := [0.8], [1.0];
    assert v[1..] == [] && u[1..] == [];
    assert Clipped(v, u, 0.0) == [0.8];
    assert Total(v, u, 0.0) == 0.8;
  }

  lemma OneSymbolRefill()
    ensures Refilled([0.8], [1.0], [1.0], 1.0) == [1.0] && DropsNothing([0.8], [1.0], [1.0], 1.0)
  {
    assert Sum([0.8]) == 0.8 by { assert [0.8][1..] == []; }
    assert Priorities([1.0]) == [1.0];
    OnePassFills(Range(PASSES));
  }

  /** One symbol, fully invested: the step wants to go down to 0.8, the refill goes back up to 1, and the loop settles
      in its first round, although half the weight would have a lower risk-adjusted distance to the target. */
  lemma FullyInvestedStaysPut()
    ensures var all, full, sigma := ["a"], map["a" := 1.0], [[1.0]];
      && Square(sigma, |Among(all, full.Keys)|)
      && GradientTarget(all, full, sigma, full, 1.0, 1.0) == full
      && Objective([0.5], [1.0], sigma, 1.0) < Objective([1.0], [1.0], sigma, 1.0)
  {
    var all, full, sigma := ["a"], map["a" := 1.0], [[1.0]];
    assert Among(all, full.Keys) == all by { AmongAll(all, full.Keys); }
    assert Pick(all, full) == [1.0];
    OneSymbolStep();
    OneSymbolProjection();
    OneSymbolRefill();
    RoundIsRefill(all, [1.0], [1.0], sigma, full, 1.0, 1.0, 0.2);
    SettlesAtOnce(all, [1.0], [1.0], sigma, full, 1.0, 1.0, 0.2, Range(STEPS));
    assert Keep(all, [1.0]) == full;
    HalfIsLower();
  }

  lemma SettlesAtOnce(symbols: seq<string>, w: seq<real>, t: seq<real>, sigma: seq<seq<real>>, caps: Weights,
                      budget: real, aversion: real, step: real, rounds: seq<nat>)
    requires |w| == |t| == |symbols| && Square(sigma, |w|)
      && Descended(symbols, w, t, sigma, caps, budget, aversion, step) == w
    ensures Descent(symbols, w, t, sigma, caps, budget, aversion, step, rounds) == w
  {
  }

  lemma HalfIsLower()
    ensures Square([[1.0]], 1) && Objective([0.5], [1.0], [[1.0]], 1.0) == 0.25
      && Objective([1.0], [1.0], [[1.0]], 1.0) == 0.5
  {
    var row, half, full := [1.0], [0.5], [1.0];
    assert row[1..] == [] && half[1..] == [];
    assert Squares(half, full) == [0.25] && [0.25][1..] == [];
    assert Squares(full, full) == [0.0] && [0.0][1..] == [];
    assert Times([row], half) == [0.5] && Times([row], full) == [1.0];
  }
}
