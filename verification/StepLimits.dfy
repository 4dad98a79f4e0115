/** For how many symbols, and how much risk, the step of ez/live/optimizer_allocator.py suits every covariance. */
module StepLimits {
  import opened Reals
  import opened Simplex
  import opened Refill
  import opened Allocator
  import opened GradientLaws
  import opened DescentLaws
  import opened SettledLaws
  import opened StepSizeLaws
  import opened HedgedRisk

  /** What a round of the descent starts from. */
  datatype Round = Round(w: seq<real>, t: seq<real>, sigma: seq<seq<real>>, u: seq<real>, budget: real, aversion: real)

  /** A round of `n` symbols from feasible weights, with a covariance and this product of the risk aversion and the
      greatest variance. */
  ghost predicate IsRound(r: Round, n: nat, load: real) {
    && |r.w| == |r.t| == |r.u| == |r.sigma| == n > 0 && Symmetric(r.sigma) && Semidefinite(r.sigma)
    && r.budget > 0.0 && r.aversion >= 0.0 && load == Weighed(r.aversion, MaxDiagonal(r.sigma, n))
    && InBox(r.w, r.u) && InBox(r.t, r.u) && Sum(r.w) <= r.budget + TINY
  }

  function StepOfRound(r: Round): real
    requires |r.w| > 0 && Square(r.sigma, |r.w|)
  {
    StepSize(r.sigma, |r.w|, r.aversion)
  }

  /** Where the projection of the round ends. */
  function After(r: Round): (p: seq<real>)
    requires |r.w| == |r.t| == |r.u| > 0 && Square(r.sigma, |r.w|)
    ensures |p| == |r.w|
  {
    Projected(r.w, r.t, r.sigma, r.u, r.budget, r.aversion, StepOfRound(r))
  }

  ghost predicate IsIdle(r: Round)
    requires |r.w| == |r.t| == |r.u| > 0 && Square(r.sigma, |r.w|)
  {
    RefillsNothing(r.w, r.t, r.sigma, r.u, r.budget, r.aversion, StepOfRound(r))
  }

  function LoweringOfRound(r: Round): real
    requires |r.w| == |r.t| == |r.u| > 0 && Square(r.sigma, |r.w|)
  {
    Lowering(Candidate(r.w, r.t, r.sigma, r.aversion, StepOfRound(r)), r.u, r.budget)
  }

  /** What the projection of the round loses of the sum. */
  function MissingInRound(r: Round): real
    requires |r.w| == |r.t| == |r.u| > 0 && Square(r.sigma, |r.w|)
  {
    Sum(r.w) - Sum(After(r))
  }

  /** The same, times what the weights were lowered by. */
  function LostInRound(r: Round): real
    requires |r.w| == |r.t| == |r.u| > 0 && Square(r.sigma, |r.w|)
  {
    Weighed(LoweringOfRound(r), MissingInRound(r))
  }

  /** The round ends no higher than it started, but for what its projection loses of the sum. */
  ghost predicate EndsNoHigher(r: Round, load: real)
    requires |r.w| == |r.t| == |r.u| > 0 && Square(r.sigma, |r.w|)
  {
    NearlyBelow(After(r), r.w, r.t, r.sigma, r.aversion, Slip(load, LostInRound(r)))
  }

  /** The step suits `n` symbols and this load: no round that refills nothing ends higher. */
  ghost predicate StepSuits(n: nat, load: real)
    requires n > 0
  {
    forall r: Round | IsRound(r, n, load) && IsIdle(r) :: EndsNoHigher(r, load)
  }

  lemma AllowedRoundsEndNoHigher(r: Round, n: nat, load: real)
    requires IsRound(r, n, load) && AllowsStep(n, load)
    ensures EndsNoHigher(r, load)
  {
    var p, lowering := After(r), LoweringOfRound(r);
    EndsBelow(r, r.w, p, r.t, r.sigma, r.u, r.budget, r.aversion, lowering, MaxDiagonal(r.sigma, n), load,
              MissingInRound(r), Weighed(lowering, MissingInRound(r)), n);
  }

  lemma EndsBelow(r: Round, w: seq<real>, p: seq<real>, t: seq<real>, sigma: seq<seq<real>>, u: seq<real>,
                  budget: real, aversion: real, lowering: real, top: real, load: real, missing: real, lost: real,
                  n: nat)
    requires r == Round(w, t, sigma, u, budget, aversion)
    requires |w| == |t| == |u| == |sigma| == n > 0 && Symmetric(sigma) && Semidefinite(sigma) && InBox(w, u)
    requires aversion >= 0.0 && top == MaxDiagonal(sigma, n) && load == Weighed(aversion, top) && budget > 0.0
    requires p == After(r) && missing == MissingInRound(r) && lowering == LoweringOfRound(r)
    requires lost == Weighed(lowering, missing) && AllowsStep(n, load)
    ensures EndsNoHigher(r, load)
  {
    var step, length, drift := StepFor(top, aversion), Dist2(p, w), Slip(load, lost);
    TopIsNotNegative(sigma);
    StepRate(top, aversion, load);
    LoweringFits(Candidate(w, t, sigma, aversion, step), u, budget);
    ProjectionGains(w, p, t, sigma, u, aversion, lowering, step, top, load, missing, lost, drift);
    assert Gain(n, load, length) >= 0.0 by {
      UpShare(aversion, top);
      Dist2Definite(p, w);
      GainIsPositive(n, load, length);
    }
    Loosened(p, w, t, sigma, aversion, drift - Gain(n, load, length), drift);
    EndsSo(r, w, p, t, sigma, aversion, load, lost, drift);
  }

  lemma EndsSo(r: Round, w: seq<real>, p: seq<real>, t: seq<real>, sigma: seq<seq<real>>, aversion: real, load: real,
               lost: real, drift: real)
    requires r.w == w && r.t == t && r.sigma == sigma && r.aversion == aversion
    requires |w| == |t| == |r.u| > 0 && Square(sigma, |w|) && p == After(r)
    requires lost == LostInRound(r) && drift == Slip(load, lost) && NearlyBelow(p, w, t, sigma, aversion, drift)
    ensures EndsNoHigher(r, load)
  {
  }

  // ---- a round with a step that is too long ----------------------------------------------

  lemma {:induction false} RepeatedOne(n: nat)
    ensures Repeated(n, 1.0) == n as real
  {
    if n > 0 { RepeatedOne(n - 1); }
  }

  lemma LengthOfSides(n: nat)
    ensures Dot(Sides(n), Sides(n)) == n as real
  {
    DotOfAlternating(n, 1.0, -1.0, 1.0, -1.0);
    assert Weighed(1.0, 1.0) == 1.0 && Weighed(-1.0, -1.0) == 1.0;
    RepeatedOne((n + 1) / 2);
    RepeatedOne(n / 2);
  }

  /** A move from side to side. */
  lemma SidewaysMove(n: nat, m: real, d: seq<real>, lean: real, length: real)
    requires d == Scaled(m, Sides(n)) && lean == Weighed(m, n as real) && length == Weighed(m, lean)
    ensures |d| == n && Dot(Sides(n), d) == lean && Dot(d, d) == length
  {
    LengthOfSides(n);
    DotScaled(Sides(n), m, Sides(n), n as real);
    DotSwap(Sides(n), d);
    DotScaled(d, m, Sides(n), lean);
  }

  /** The gradient at weights that lean to one side, when the target makes up for the risk of each symbol alone. */
  lemma SidewaysGradient(n: nat, q: real, r: real, a: real, b: real, aversion: real, k: real, slope: real)
    requires k == Dot(Sides(n), Alternating(n, a, b)) && slope == Weighed(aversion, Weighed(q, k))
    ensures Gradient(Alternating(n, a, b), Alternating(n, Lifted(aversion, r, a), Lifted(aversion, r, b)),
                     Hedged(n, q, r), aversion) == Scaled(slope, Sides(n))
  {
    var w, t := Alternating(n, a, b), Alternating(n, Lifted(aversion, r, a), Lifted(aversion, r, b));
    var g := Gradient(w, t, Hedged(n, q, r), aversion);
    forall i | 0 <= i < n ensures g[i] == Scaled(slope, Sides(n))[i] {
      var dot := Dot(Hedged(n, q, r)[i], w);
      GradientEntry(w, t, Hedged(n, q, r), aversion, i, dot);
      HedgedTimesAt(n, q, r, w, k, i);
      ScaledAt(slope, Sides(n), i);
      BySide(slope, Sides(n)[i]);
      SidewaysEntry(aversion, r, w[i], Weighed(q, k), dot, Sides(n)[i]);
    }
  }

  /** A target that makes up for the risk of a symbol alone. */
  function Lifted(aversion: real, r: real, x: real): real { x + Weighed(aversion, Weighed(r, x)) }

  lemma SidewaysEntry(aversion: real, r: real, x: real, common: real, dot: real, side: real)
    requires side == 1.0 || side == -1.0
    requires dot == (if side == 1.0 then common else -common) + Weighed(r, x)
    ensures (x - Lifted(aversion, r, x)) + Weighed(aversion, dot)
      == if side == 1.0 then Weighed(aversion, common) else -Weighed(aversion, common)
  {
    WeighedSum(aversion, if side == 1.0 then common else -common, Weighed(r, x), dot);
    OppositeShare(aversion, common, -common);
  }

  lemma LengthSoFar(n: nat, m: real)
    ensures Sum(Scaled(m, Sides(n))) == Weighed(m, (n % 2) as real)
  {
    SumOfAlternating(n, 1.0, -1.0);
    RepeatedOne((n + 1) / 2);
    RepeatedOne(n / 2);
    RepeatedOpposite(n / 2, 1.0);
    SumOfShare(m, Sides(n), (n % 2) as real);
  }

  /** Weights at which the sides differ by one weight in all. */
  lemma Tilt(n: nat, b: real) returns (a: real)
    requires n >= 9 && b > 0.0
    ensures b / 2.0 <= a <= b && Dot(Sides(n), Alternating(n, a, b)) == -b
  {
    var h, l := (n + 1) / 2, n / 2;
    a := Ratio(h as real, l as real - 1.0, b);
    Leaning(n, a, b);
    RepeatedIsProduct(h, a);
    RepeatedIsProduct(l, b);
    Distribute(b, l as real, -1.0);
  }

  lemma Ratio(whole: real, part: real, b: real) returns (a: real)
    requires 0.0 < whole / 2.0 <= part <= whole && b > 0.0
    ensures b / 2.0 <= a <= b && whole * a == part * b
  {
    a := part / whole * b;
    assert part / whole * whole == part;
    ShareBetween(part / whole, whole, part);
    MulOrder(0.5, part / whole, b);
    MulOrder(part / whole, 1.0, b);
    Regrouping(whole, part / whole, b);
  }

  lemma Regrouping(x: real, y: real, b: real)
    ensures x * (y * b) == (y * x) * b
  {
  }

  lemma ShareBetween(share: real, whole: real, part: real)
    requires share * whole == part && 0.0 < whole / 2.0 <= part <= whole
    ensures 0.5 <= share <= 1.0
  {
    if share < 0.5 { StrictlySameSigns(0.5 - share, whole, (0.5 - share) * whole); }
    if share > 1.0 { StrictlySameSigns(share - 1.0, whole, (share - 1.0) * whole); }
  }

  /** How far the step goes: at most a quarter of the weight. */
  lemma StepAside(q: real, r: real, aversion: real, load: real, step: real, b: real) returns (pull: real, m: real)
    requires q >= 0.0 && r >= 0.0 && aversion >= 0.0 && b > 0.0 && load == Weighed(aversion, q + r)
    requires Rate(step, load)
    ensures pull == Weighed(aversion, Weighed(q, b)) && m == Weighed(step, pull) && 0.0 <= m <= b / 4.0
    ensures pull == m + 4.0 * Weighed(load, m) && (Weighed(aversion, q) > 0.0 ==> m > 0.0)
  {
    pull := Weighed(aversion, Weighed(q, b));
    m := Weighed(step, pull);
    Regrouped(aversion, q, b);
    UpShare(aversion, r);
    WeighedSum(aversion, q, r, q + r);
    UpShare(aversion, q);
    Reached(Weighed(aversion, q), load, step, b, pull, m);
  }

  lemma Reached(part: real, load: real, step: real, b: real, pull: real, m: real)
    requires 0.0 <= part <= load && Rate(step, load) && b > 0.0 && pull == Weighed(part, b) && m == Weighed(step, pull)
    ensures 0.0 <= m <= b / 4.0 && pull == m + 4.0 * Weighed(load, m) && (part > 0.0 ==> m > 0.0)
  {
    PositiveFactors(part, b);
    PositiveFactors(step, pull);
    MulOrder(part, load, b);
    SmallerFactor(step, pull, load * b);
    assert 4.0 * (step * (load * b)) == (step * (4.0 * load)) * b;
    Distribute(step, 1.0, 4.0 * load);
    MulOrder(step * (4.0 * load), 1.0, b);
    assert pull == (step * (1.0 + 4.0 * load)) * pull == m + 4.0 * (load * m);
    if part > 0.0 {
      StrictlySameSigns(part, b, pull);
      StrictlySameSigns(step, pull, m);
    }
  }

  lemma SidewaysCandidate(n: nat, w: seq<real>, t: seq<real>, sigma: seq<seq<real>>, aversion: real, step: real,
                          pull: real, m: real, d: seq<real>)
    requires |w| == |t| == n && Square(sigma, n) && Gradient(w, t, sigma, aversion) == Scaled(-pull, Sides(n))
    requires m == Weighed(step, pull) && d == Scaled(m, Sides(n))
    ensures |d| == n && Candidate(w, t, sigma, aversion, step) == Plus(w, d)
  {
    var v, g := Candidate(w, t, sigma, aversion, step), Gradient(w, t, sigma, aversion);
    CandidateIsStep(w, t, sigma, aversion, step);
    forall i | 0 <= i < n ensures v[i] == Plus(w, d)[i] {
      ScaledAt(step, g, i);
      ScaledAt(-pull, Sides(n), i);
      ScaledAt(m, Sides(n), i);
      StepEntry(step, pull, m, Sides(n)[i], g[i], d[i]);
    }
  }

  lemma StepEntry(step: real, pull: real, m: real, side: real, g: real, d: real)
    requires m == Weighed(step, pull) && g == Weighed(-pull, side) && d == Weighed(m, side)
    ensures Weighed(step, g) == -d
  {
    assert step * (-pull * side) == -(step * pull) * side;
  }

  /** No weight of the round below comes near this cap. */
  function WideCap(aversion: real, r: real, b: real): real { 2.0 * b + Weighed(aversion, Weighed(r, b)) }

  /** From weights that lean to one side, towards a target that makes up for the risk of each symbol alone, with as much
      budget as a move by `m` to the other side needs. */
  function Sideways(n: nat, sigma: seq<seq<real>>, r: real, aversion: real, a: real, b: real, m: real): Round {
    Round(Alternating(n, a, b), Alternating(n, Lifted(aversion, r, a), Lifted(aversion, r, b)), sigma,
          Alternating(n, WideCap(aversion, r, b), WideCap(aversion, r, b)),
          Sum(Plus(Alternating(n, a, b), Scaled(m, Sides(n)))), aversion)
  }

  lemma LiftedFits(aversion: real, r: real, a: real, b: real)
    requires aversion >= 0.0 && r >= 0.0 && 0.0 <= a <= b
    ensures 0.0 <= Lifted(aversion, r, a) <= WideCap(aversion, r, b)
    ensures WideCap(aversion, r, b) >= 2.0 * b
  {
    UpShare(r, a);
    UpShare(aversion, Weighed(r, a));
    TwiceOrder(aversion, r, a, b);
  }

  lemma SidewaysIsRound(n: nat, sigma: seq<seq<real>>, r: real, aversion: real, a: real, b: real, m: real, top: real,
                        load: real)
    requires |sigma| == n > 0 && Symmetric(sigma) && Semidefinite(sigma) && top == MaxDiagonal(sigma, n)
    requires r >= 0.0 && aversion >= 0.0 && load == Weighed(aversion, top) && 0.0 < a <= b && m >= 0.0
    ensures IsRound(Sideways(n, sigma, r, aversion, a, b, m), n, load)
  {
    SidewaysFits(n, r, aversion, a, b);
    SidewaysBudget(n, a, b, m);
    MakesRound(Sideways(n, sigma, r, aversion, a, b, m), n, load, top);
  }

  lemma MakesRound(r: Round, n: nat, load: real, top: real)
    requires |r.w| == |r.t| == |r.u| == |r.sigma| == n > 0 && Symmetric(r.sigma) && Semidefinite(r.sigma)
    requires r.aversion >= 0.0 && top == MaxDiagonal(r.sigma, n) && load == Weighed(r.aversion, top)
    requires InBox(r.w, r.u) && InBox(r.t, r.u) && 0.0 < Sum(r.w) <= r.budget
    ensures IsRound(r, n, load)
  {
  }

  lemma SidewaysFits(n: nat, r: real, aversion: real, a: real, b: real)
    requires r >= 0.0 && aversion >= 0.0 && 0.0 < a <= b
    ensures var cap := WideCap(aversion, r, b);
      var u := Alternating(n, cap, cap);
      && InBox(Alternating(n, a, b), u)
      && InBox(Alternating(n, Lifted(aversion, r, a), Lifted(aversion, r, b)), u)
  {
    LiftedFits(aversion, r, a, b);
    LiftedFits(aversion, r, b, b);
  }

  lemma SidewaysBudget(n: nat, a: real, b: real, m: real)
    requires n > 0 && 0.0 < a <= b && m >= 0.0
    ensures |Scaled(m, Sides(n))| == n
    ensures 0.0 < Sum(Alternating(n, a, b)) <= Sum(Plus(Alternating(n, a, b), Scaled(m, Sides(n))))
  {
    var w := Alternating(n, a, b);
    SumOfPlus(w, Scaled(m, Sides(n)));
    LengthSoFar(n, m);
    UpShare(m, (n % 2) as real);
    PositiveSum(w);
  }

  lemma PositiveSum(w: seq<real>)
    requires w != [] && forall i | 0 <= i < |w| :: w[i] > 0.0
    ensures Sum(w) > 0.0
  {
    SumOfNonnegative(w);
  }

  /** The move stays within the caps and the budget, so that nothing is clipped, lowered, dropped or filled up. */
  lemma SidewaysStays(round: Round, p: seq<real>, cap: real, n: nat)
    requires |round.w| == |round.t| == |p| == n > 0 && Square(round.sigma, n) && round.u == Alternating(n, cap, cap)
    requires p == Candidate(round.w, round.t, round.sigma, round.aversion, StepOfRound(round))
    requires round.budget == Sum(p) && forall i | 0 <= i < n :: TINY < p[i] <= cap
    ensures After(round) == p && IsIdle(round) && LoweringOfRound(round) == 0.0
  {
    assert Clipped(p, round.u, 0.0) == p;
    assert Trimmed(p) == p;
  }

  /** What the move does to the objective. */
  lemma SidewaysRaises(n: nat, q: real, r: real, w: seq<real>, t: seq<real>, sigma: seq<seq<real>>, aversion: real,
                       load: real, pull: real, m: real, d: seq<real>, lean: real, length: real, rise: real)
    requires rise == Rise(n, q, r, aversion, load, length)
    requires |w| == |t| == n == |sigma| && Symmetric(sigma) && d == Scaled(m, Sides(n)) && |d| == n
    requires Gradient(w, t, sigma, aversion) == Scaled(-pull, Sides(n))
    requires Form(sigma, d, d) == Weighed(q, Sq(lean)) + Weighed(r, length)
    requires pull == m + 4.0 * Weighed(load, m) && lean == Weighed(m, n as real) && length == Weighed(m, lean)
    ensures Dist2(Plus(w, d), w) == length
    ensures Objective(Plus(w, d), t, sigma, aversion) == Objective(w, t, sigma, aversion) + rise
  {
    var high, low := Objective(Plus(w, d), t, sigma, aversion), Objective(w, t, sigma, aversion);
    var slope, spread := Dot(Gradient(w, t, sigma, aversion), d), Form(sigma, d, d);
    SidewaysMove(n, m, d, lean, length);
    assert slope == Weighed(-pull, lean) by { ScaledAlong(Sides(n), -pull, d, lean); }
    SquaredLength(w, d);
    ObjectiveAfter(w, d, t, sigma, aversion, high, low, slope, length, spread);
    RiseOf(n, q, r, aversion, load, pull, m, lean, length, slope, spread, high, low);
  }

  /** How much a sideways move of this squared length raises the objective. */
  function Rise(n: nat, q: real, r: real, aversion: real, load: real, length: real): real {
    (Weighed(Weighed(aversion, Weighed(q, n as real) + r), length) - length - 8.0 * Weighed(load, length)) / 2.0
  }

  lemma RiseOf(n: nat, q: real, r: real, aversion: real, load: real, pull: real, m: real, lean: real, length: real,
               slope: real, spread: real, high: real, low: real)
    requires pull == m + 4.0 * Weighed(load, m) && lean == Weighed(m, n as real) && length == Weighed(m, lean)
    requires slope == Weighed(-pull, lean) && spread == Weighed(q, Sq(lean)) + Weighed(r, length)
    requires high == low + slope + length / 2.0 + Weighed(aversion, spread) / 2.0
    ensures high == low + Rise(n, q, r, aversion, load, length)
  {
    RiseParts(n as real, q, r, aversion, load, pull, m, lean, length, slope, spread);
  }

  lemma RiseParts(n: real, q: real, r: real, aversion: real, load: real, pull: real, m: real, lean: real, length: real,
                  slope: real, spread: real)
    requires pull == m + 4.0 * Weighed(load, m) && lean == Weighed(m, n) && length == Weighed(m, lean)
    requires slope == Weighed(-pull, lean) && spread == Weighed(q, Sq(lean)) + Weighed(r, length)
    ensures slope == -length - 4.0 * Weighed(load, length)
    ensures Weighed(aversion, spread) == Weighed(Weighed(aversion, Weighed(q, n) + r), length)
  {
    assert (load * m) * lean == load * (m * lean);
    assert lean * lean == n * length;
    assert q * (n * length) == (q * n) * length;
    assert spread == (q * n + r) * length;
  }

  /** The round refills and lowers nothing, moves by this squared length and raises the objective by `rise`. */
  ghost predicate Raises(r: Round, n: nat, load: real, length: real, rise: real) {
    && IsRound(r, n, load) && IsIdle(r) && LoweringOfRound(r) == 0.0 && length == Dist2(After(r), r.w)
    && Objective(After(r), r.t, r.sigma, r.aversion) == Objective(r.w, r.t, r.sigma, r.aversion) + rise
  }

  /** The whole round, for a covariance of which no more is known than what the move meets. */
  lemma SidewaysEnds(n: nat, sigma: seq<seq<real>>, q: real, r: real, aversion: real, top: real, load: real, a: real,
                     step: real, pull: real, m: real, lean: real, length: real, rise: real, round: Round)
    requires |sigma| == n > 0 && Symmetric(sigma) && Semidefinite(sigma) && top == MaxDiagonal(sigma, n)
    requires r >= 0.0 && aversion >= 0.0 && 0.5 <= a <= 1.0 && 0.0 <= m <= 0.25 && step == StepFor(top, aversion)
    requires pull == m + 4.0 * Weighed(load, m) && m == Weighed(step, pull) && load == Weighed(aversion, top)
    requires lean == Weighed(m, n as real) && length == Weighed(m, lean)
    requires rise == Rise(n, q, r, aversion, load, length) && round == Sideways(n, sigma, r, aversion, a, 1.0, m)
    requires Gradient(round.w, round.t, sigma, aversion) == Scaled(-pull, Sides(n))
    requires |Scaled(m, Sides(n))| == n
    requires Form(sigma, Scaled(m, Sides(n)), Scaled(m, Sides(n))) == Weighed(q, Sq(lean)) + Weighed(r, length)
    ensures Raises(round, n, load, length, rise)
  {
    var d := Scaled(m, Sides(n));
    SidewaysIsRound(n, sigma, r, aversion, a, 1.0, m, top, load);
    SidewaysCandidate(n, round.w, round.t, sigma, aversion, StepOfRound(round), pull, m, d);
    SidewaysWithin(n, r, aversion, a, m);
    SidewaysStays(round, Plus(round.w, d), WideCap(aversion, r, 1.0), n);
    SidewaysRaises(n, q, r, round.w, round.t, sigma, aversion, load, pull, m, d, lean, length, rise);
  }

  /** For nine symbols or more there is a round that refills nothing and changes the objective by exactly this much. */
  lemma LongStep(n: nat, q: real, r: real, aversion: real, top: real, load: real)
    returns (round: Round, length: real, rise: real)
    requires n >= 9 && q >= 0.0 && r >= 0.0 && aversion >= 0.0 && top == q + r && load == Weighed(aversion, top)
    ensures round.sigma == Hedged(n, q, r) && round.aversion == aversion
    ensures length >= 0.0 && (Weighed(aversion, q) > 0.0 ==> length > 0.0)
    ensures rise == Rise(n, q, r, aversion, load, length) && Raises(round, n, load, length, rise)
  {
    var a, step, pull, m, lean;
    a, step, pull, m, lean, length := Sizes(n, q, r, aversion, top, load);
    rise := Rise(n, q, r, aversion, load, length);
    round := LongStepOf(n, q, r, aversion, top, load, a, step, pull, m, lean, length, rise);
  }

  lemma LongStepOf(n: nat, q: real, r: real, aversion: real, top: real, load: real, a: real, step: real, pull: real,
                   m: real, lean: real, length: real, rise: real) returns (round: Round)
    requires n > 0 && q >= 0.0 && r >= 0.0 && aversion >= 0.0 && top == q + r && load == Weighed(aversion, top)
    requires 0.5 <= a <= 1.0 && Dot(Sides(n), Alternating(n, a, 1.0)) == -1.0 && 0.0 <= m <= 0.25
    requires pull == Weighed(aversion, q) && pull == m + 4.0 * Weighed(load, m)
    requires step == StepFor(top, aversion) && m == Weighed(step, pull)
    requires lean == Weighed(m, n as real) && length == Weighed(m, lean)
    requires rise == Rise(n, q, r, aversion, load, length)
    ensures round.sigma == Hedged(n, q, r) && round.aversion == aversion && Raises(round, n, load, length, rise)
  {
    round := Sideways(n, Hedged(n, q, r), r, aversion, a, 1.0, m);
    HedgedMeets(n, q, r, aversion, a, pull, m, lean, length, round.sigma);
    SidewaysEnds(n, round.sigma, q, r, aversion, top, load, a, step, pull, m, lean, length, rise, round);
  }

  lemma Sizes(n: nat, q: real, r: real, aversion: real, top: real, load: real)
    returns (a: real, step: real, pull: real, m: real, lean: real, length: real)
    requires n >= 9 && q >= 0.0 && r >= 0.0 && aversion >= 0.0 && top == q + r && load == Weighed(aversion, top)
    ensures 0.5 <= a <= 1.0 && Dot(Sides(n), Alternating(n, a, 1.0)) == -1.0
    ensures pull == Weighed(aversion, q) && pull == m + 4.0 * Weighed(load, m)
    ensures step == StepFor(top, aversion) && m == Weighed(step, pull) && 0.0 <= m <= 0.25
    ensures lean == Weighed(m, n as real) && length == Weighed(m, lean) && length >= 0.0
    ensures Weighed(aversion, q) > 0.0 ==> length > 0.0
  {
    a := Tilt(n, 1.0);
    step := StepFor(top, aversion);
    StepRate(top, aversion, load);
    pull, m := StepAside(q, r, aversion, load, step, 1.0);
    lean := Weighed(m, n as real);
    length := Weighed(m, lean);
    LengthPositive(n as real, m, length);
  }

  lemma HedgedMeets(n: nat, q: real, r: real, aversion: real, a: real, pull: real, m: real, lean: real, length: real,
                    sigma: seq<seq<real>>)
    requires n > 0 && q >= 0.0 && r >= 0.0 && sigma == Hedged(n, q, r)
    requires Dot(Sides(n), Alternating(n, a, 1.0)) == -1.0 && pull == Weighed(aversion, q)
    requires lean == Weighed(m, n as real) && length == Weighed(m, lean)
    ensures Symmetric(sigma) && Semidefinite(sigma) && q + r == MaxDiagonal(sigma, n)
    ensures Gradient(Alternating(n, a, 1.0), Alternating(n, Lifted(aversion, r, a), Lifted(aversion, r, 1.0)), sigma,
                     aversion) == Scaled(-pull, Sides(n))
    ensures |Scaled(m, Sides(n))| == n
    ensures Form(sigma, Scaled(m, Sides(n)), Scaled(m, Sides(n))) == Weighed(q, Sq(lean)) + Weighed(r, length)
  {
    HedgedIsCovariance(n, q, r);
    HedgedTop(n, q, r, n);
    SidewaysSlope(n, q, r, a, aversion, pull, sigma);
    SidewaysForm(n, q, r, m, lean, length, sigma, Scaled(m, Sides(n)));
  }

  lemma SidewaysSlope(n: nat, q: real, r: real, a: real, aversion: real, pull: real, sigma: seq<seq<real>>)
    requires sigma == Hedged(n, q, r)
    requires Dot(Sides(n), Alternating(n, a, 1.0)) == -1.0 && pull == Weighed(aversion, q)
    ensures Gradient(Alternating(n, a, 1.0), Alternating(n, Lifted(aversion, r, a), Lifted(aversion, r, 1.0)), sigma,
                     aversion) == Scaled(-pull, Sides(n))
  {
    TwiceSum2(aversion, q, 1.0);
    SidewaysGradient(n, q, r, a, 1.0, aversion, -1.0, -pull);
  }

  lemma SidewaysForm(n: nat, q: real, r: real, m: real, lean: real, length: real, sigma: seq<seq<real>>, d: seq<real>)
    requires sigma == Hedged(n, q, r) && d == Scaled(m, Sides(n))
    requires lean == Weighed(m, n as real) && length == Weighed(m, lean)
    ensures |d| == n && Form(sigma, d, d) == Weighed(q, Sq(lean)) + Weighed(r, length)
  {
    SidewaysMove(n, m, d, lean, length);
    HedgedForm(n, q, r, d, lean, length);
  }

  lemma LengthPositive(n: real, m: real, length: real)
    requires n > 0.0 && m >= 0.0 && length == Weighed(m, Weighed(m, n))
    ensures length >= 0.0 && (m > 0.0 ==> length > 0.0)
  {
    PositiveFactors(m, n);
    PositiveFactors(m, m * n);
    if m > 0.0 {
      StrictlySameSigns(m, n, m * n);
      StrictlySameSigns(m, m * n, length);
    }
  }

  lemma SidewaysWithin(n: nat, r: real, aversion: real, a: real, m: real)
    requires 0.5 <= a <= 1.0 && 0.0 <= m <= 0.25 && aversion >= 0.0 && r >= 0.0
    ensures |Scaled(m, Sides(n))| == n
    ensures var p := Plus(Alternating(n, a, 1.0), Scaled(m, Sides(n)));
      forall i | 0 <= i < n :: TINY < p[i] <= WideCap(aversion, r, 1.0)
  {
    LiftedFits(aversion, r, 1.0, 1.0);
    forall i | 0 <= i < n ensures -m <= Scaled(m, Sides(n))[i] <= m {
      ScaledAt(m, Sides(n), i);
      BySide(m, Sides(n)[i]);
    }
  }

  // ---- how many symbols, and how much risk -----------------------------------------------

  /** A round that raises the objective ends higher. */
  lemma RaisedEndsHigher(round: Round, n: nat, load: real, length: real, rise: real)
    requires Raises(round, n, load, length, rise) && rise > 0.0
    ensures IsRound(round, n, load) && IsIdle(round) && !EndsNoHigher(round, load)
  {
    var excess := Slip(load, LostInRound(round));
    NoSlip(load, MissingInRound(round));
    HigherBy(After(round), round.w, round.t, round.sigma, round.aversion, excess, rise);
  }

  lemma NoSlip(load: real, missing: real)
    ensures Slip(load, Weighed(0.0, missing)) == 0.0
  {
    assert Weighed(0.0, missing) == 0.0;
  }

  lemma HigherBy(p: seq<real>, w: seq<real>, t: seq<real>, sigma: seq<seq<real>>, aversion: real, excess: real,
                 rise: real)
    requires |p| == |w| == |t| && Square(sigma, |w|) && rise > excess
    requires Objective(p, t, sigma, aversion) == Objective(w, t, sigma, aversion) + rise
    ensures !NearlyBelow(p, w, t, sigma, aversion, excess)
  {
  }

  /** The step suits every covariance of `n` symbols whose greatest variance times the risk aversion is `load` if and
      only if the number of symbols past the eighth, times the load, is at most 1. */
  lemma StepSuitsExactly(n: nat, load: real)
    requires n > 0 && load >= 0.0
    ensures StepSuits(n, load) <==> AllowsStep(n, load)
  {
    if AllowsStep(n, load) {
      forall r: Round | IsRound(r, n, load) && IsIdle(r) ensures EndsNoHigher(r, load) {
        AllowedRoundsEndNoHigher(r, n, load);
      }
    } else {
      if n <= 8 { MulOrder(n as real - 8.0, 0.0, load); }
      assert Weighed(1.0, load) == load;
      var round, length, rise := LongStep(n, load, 0.0, 1.0, load, load);
      RiseAlone(n, load, length, rise);
      RaisedEndsHigher(round, n, load, length, rise);
    }
  }

  lemma RiseAlone(n: nat, load: real, length: real, rise: real)
    requires n >= 9 && load >= 0.0 && !AllowsStep(n, load) && rise == Rise(n, load, 0.0, 1.0, load, length)
    requires load > 0.0 ==> length > 0.0
    ensures rise == -Gain(n, load, length) && rise > 0.0
  {
    var x, over := load * length, (n as real - 8.0) * load;
    assert (load * n as real + 0.0) * length == n as real * x;
    assert over * length == n as real * x - 8.0 * x;
    StrictlySameSigns(over - 1.0, length, (over - 1.0) * length);
    assert (8.0 - n as real) * x == 8.0 * x - n as real * x;
  }

  /** The share of the greatest variance that every symbol has for itself in the covariances below: twice what the guard
      asks of `n` symbols. */
  function OwnShare(n: nat): real { 0.000002 * n as real }

  /** Among the covariances that the guard lets pass, the bound is as sharp but for that share: past it some round that
      refills nothing ends higher. */
  lemma GuardedRoundEndsHigher(n: nat, load: real) returns (round: Round)
    requires n >= 9 && load > 0.0 && (n as real - 8.0 - (n as real - 1.0) * OwnShare(n)) * load > 1.0
    ensures IsRound(round, n, load) && IsIdle(round) && !EndsNoHigher(round, load)
    ensures PassesGuard(round.sigma, Weighed(OwnShare(n), load), Weighed(load, n as real))
  {
    var r, length, rise;
    r, round, length, rise := GuardedStep(n, load, OwnShare(n));
    RaisedEndsHigher(round, n, load, length, rise);
  }

  lemma GuardedStep(n: nat, load: real, share: real) returns (r: real, round: Round, length: real, rise: real)
    requires n >= 9 && load > 0.0 && share == OwnShare(n)
    requires (n as real - 8.0 - (n as real - 1.0) * share) * load > 1.0
    ensures r == Weighed(share, load) && Raises(round, n, load, length, rise) && rise > 0.0
    ensures |round.sigma| == n && Square(round.sigma, n) && PassesGuard(round.sigma, r, Weighed(load, n as real))
  {
    var q;
    q, r := OwnParts(n, load, share);
    round, length, rise := StepOfParts(n, q, r, load);
    RiseGuarded(n, load, share, r, length, rise);
  }

  lemma OwnParts(n: nat, load: real, share: real) returns (q: real, r: real)
    requires n >= 9 && load > 0.0 && share == OwnShare(n)
    requires (n as real - 8.0 - (n as real - 1.0) * share) * load > 1.0
    ensures r == Weighed(share, load) && q == load - r && q > 0.0
    ensures r > 0.00000001 && r > 0.000001 * Weighed(load, n as real)
  {
    r := Weighed(share, load);
    q := load - r;
    OwnRisk(n as real, load, share, r);
  }

  lemma StepOfParts(n: nat, q: real, r: real, load: real) returns (round: Round, length: real, rise: real)
    requires n >= 9 && q > 0.0 && load == q + r && r > 0.00000001 && r > 0.000001 * Weighed(load, n as real)
    ensures Raises(round, n, load, length, rise) && length > 0.0 && rise == Rise(n, q, r, 1.0, load, length)
    ensures |round.sigma| == n && Square(round.sigma, n) && PassesGuard(round.sigma, r, Weighed(load, n as real))
  {
    assert Weighed(1.0, load) == load && Weighed(1.0, q) == q;
    round, length, rise := LongStep(n, q, r, 1.0, load, load);
    HedgedIsGuarded(n, q, r, load, round.sigma);
  }

  lemma HedgedIsGuarded(n: nat, q: real, r: real, load: real, sigma: seq<seq<real>>)
    requires n > 0 && q > 0.0 && load == q + r && r > 0.00000001 && r > 0.000001 * Weighed(load, n as real)
    requires sigma == Hedged(n, q, r)
    ensures |sigma| == n && Square(sigma, n) && PassesGuard(sigma, r, Weighed(load, n as real))
  {
    HedgedPasses(n, q, r);
  }

  lemma OwnRisk(n: real, load: real, share: real, r: real)
    requires n >= 9.0 && load > 0.0 && share == 0.000002 * n && r == Weighed(share, load)
    requires (n - 8.0 - (n - 1.0) * share) * load > 1.0
    ensures 0.00000001 < r < load && r > 0.000001 * Weighed(load, n)
  {
    var x := n - 8.0 - (n - 1.0) * share;
    if x <= 0.0 { MulOrder(x, 0.0, load); }
    if share >= 1.0 { SmallerFactor(n - 1.0, 1.0, share); }
    PositiveFactors(n - 1.0, share);
    MulOrder(x, n, load);
    assert 1.0 < Weighed(load, n);
    assert r == 0.000002 * Weighed(load, n);
    StrictlySameSigns(1.0 - share, load, (1.0 - share) * load);
  }

  lemma RiseGuarded(n: nat, load: real, share: real, r: real, length: real, rise: real)
    requires length > 0.0 && r == Weighed(share, load) && rise == Rise(n, load - r, r, 1.0, load, length)
    requires (n as real - 8.0 - (n as real - 1.0) * share) * load > 1.0
    ensures rise > 0.0
  {
    var m := n as real;
    var own, over := Weighed(load - r, m) + r, (m - 8.0 - (m - 1.0) * share) * load;
    OwnPart(m, load, share, r, own, over);
    assert Weighed(1.0, own) == own;
    assert Weighed(own, length) == Weighed(over, length) + 8.0 * Weighed(load, length);
    StrictlySameSigns(over - 1.0, length, (over - 1.0) * length);
  }

  lemma OwnPart(m: real, load: real, share: real, r: real, own: real, over: real)
    requires r == Weighed(share, load) && own == Weighed(load - r, m) + r
    requires over == (m - 8.0 - (m - 1.0) * share) * load
    ensures own == over + 8.0 * load
  {
    assert ((m - 1.0) * share) * load == (m - 1.0) * r;
    assert over == m * load - 8.0 * load - (m - 1.0) * r;
  }
}
