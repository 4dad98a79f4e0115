/** What one round of the descent of ez/live/optimizer_allocator.py does to the objective, and what a whole descent does
    while its step, chosen from the greatest variance alone, is short enough for the number of symbols. */
module StepSizeLaws {
  import opened Reals
  import opened Simplex
  import opened Refill
  import opened Allocator
  import opened GradientLaws
  import opened DescentLaws
  import opened SettledLaws

  // ---- how large a form can be ---------------------------------------------------------

  /** Twice a product is at most the squares. */
  lemma TwiceProduct(a: real, x: real, y: real, most: real)
    requires -most <= a <= most
    ensures 2.0 * Weighed(x, Weighed(a, y)) <= Weighed(most, Sq(x) + Sq(y))
  {
    var plus, minus := Sq(x + y), Sq(x - y);
    SquareOfSum(x, y);
    SquareOfSum(x, -y);
    assert x - y == x + -y && x * -y == -(x * y) && Sq(-y) == Sq(y);
    var xy, both := x * y, Sq(x) + Sq(y);
    assert plus == both + 2.0 * xy && minus == both - 2.0 * xy;
    assert x * (a * y) == a * xy;
    SameSigns(x + y, x + y);
    SameSigns(x - y, x - y);
    ProductBetween(a, xy, both, most);
  }

  lemma ProductBetween(a: real, xy: real, both: real, most: real)
    requires -most <= a <= most && both + 2.0 * xy >= 0.0 && both - 2.0 * xy >= 0.0
    ensures 2.0 * (a * xy) <= most * both
  {
    PositiveFactors(most - a, both + 2.0 * xy);
    PositiveFactors(most + a, both - 2.0 * xy);
    var sum := (most - a) * (both + 2.0 * xy) + (most + a) * (both - 2.0 * xy);
    assert sum == 2.0 * (most * both) - 4.0 * (a * xy);
  }

  lemma {:induction false} RowBelow(row: seq<real>, d: seq<real>, x: real, most: real)
    requires |row| == |d| && Within(row, most)
    ensures 2.0 * Weighed(x, Dot(row, d)) <= Weighed(most, Repeated(|d|, Sq(x)) + Dot(d, d))
  {
    if d != [] {
      var rest, length := Repeated(|d| - 1, Sq(x)), Dot(d[1..], d[1..]);
      RowBelow(row[1..], d[1..], x, most);
      assert Dot(row, d) == Weighed(row[0], d[0]) + Dot(row[1..], d[1..]);
      assert Dot(d, d) == Sq(d[0]) + length;
      WeighedSum(x, Weighed(row[0], d[0]), Dot(row[1..], d[1..]), Dot(row, d));
      TwiceProduct(row[0], x, d[0], most);
      WeighedSum(most, Sq(x) + Sq(d[0]), rest + length, (rest + Sq(x)) + Dot(d, d));
    }
  }

  lemma {:induction false} RowsBelow(x: seq<real>, z: seq<real>, bounds: seq<real>)
    requires |x| == |z| == |bounds| && forall i | 0 <= i < |x| :: 2.0 * Weighed(x[i], z[i]) <= bounds[i]
    ensures 2.0 * Dot(x, z) <= Sum(bounds)
  {
    if x != [] {
      RowsBelow(x[1..], z[1..], bounds[1..]);
      assert Dot(x, z) == Weighed(x[0], z[0]) + Dot(x[1..], z[1..]);
    }
  }

  function RowBound(most: real, n: nat, length: real, x: real): real { Weighed(most, Repeated(n, Sq(x)) + length) }

  lemma {:induction false} SumOfBounds(x: seq<real>, bounds: seq<real>, most: real, n: nat, length: real)
    requires |x| == |bounds| && forall i | 0 <= i < |x| :: bounds[i] == RowBound(most, n, length, x[i])
    ensures Sum(bounds) == Weighed(most, Weighed(n as real, Dot(x, x)) + Repeated(|x|, length))
  {
    if x != [] {
      var squares := Dot(x[1..], x[1..]);
      SumOfBounds(x[1..], bounds[1..], most, n, length);
      assert Dot(x, x) == Sq(x[0]) + squares;
      BoundStep(most, n, Sq(x[0]), squares, length, Repeated(|x| - 1, length));
    }
  }

  lemma BoundStep(most: real, n: nat, square: real, squares: real, length: real, lengths: real)
    ensures Weighed(most, Repeated(n, square) + length) + Weighed(most, Weighed(n as real, squares) + lengths)
      == Weighed(most, Weighed(n as real, square + squares) + (lengths + length))
  {
    RepeatedIsProduct(n, square);
    Distribute(n as real, square, squares);
    var a, b := n as real * square, n as real * squares;
    Distribute(most, a + length, b + lengths);
  }

  lemma EntryBelow(row: seq<real>, d: seq<real>, top: real, length: real, i: nat, entry: real)
    requires |row| == |d| && i < |d| && Within(row, top) && length == Dot(d, d) && entry == Dot(row, d)
    ensures 2.0 * Weighed(d[i], entry) <= RowBound(top, |d|, length, d[i])
  {
    RowBelow(row, d, d[i], top);
  }

  function RowBounds(most: real, n: nat, length: real, x: seq<real>): (r: seq<real>)
    ensures |r| == |x| && forall i | 0 <= i < |x| :: r[i] == RowBound(most, n, length, x[i])
  {
    seq(|x|, i requires 0 <= i < |x| => RowBound(most, n, length, x[i]))
  }

  /** No form exceeds the greatest variance times the number of symbols times the squared length. */
  lemma FormBelow(sigma: seq<seq<real>>, d: seq<real>, top: real, length: real)
    requires Symmetric(sigma) && Semidefinite(sigma) && |d| == |sigma| > 0 && top == MaxDiagonal(sigma, |sigma|)
    requires length == Dot(d, d)
    ensures Form(sigma, d, d) <= Weighed(top, Weighed(|d| as real, length))
  {
    var z, bounds := Times(sigma, d), RowBounds(top, |d|, length, d);
    forall i | 0 <= i < |d| ensures 2.0 * Weighed(d[i], z[i]) <= bounds[i] {
      RowWithin(sigma, i, top);
      EntryBelow(sigma[i], d, top, length, i, z[i]);
    }
    DoubledBelow(d, z, bounds, top, length);
  }

  lemma DoubledBelow(d: seq<real>, z: seq<real>, bounds: seq<real>, top: real, length: real)
    requires |d| == |z| && length == Dot(d, d) && bounds == RowBounds(top, |d|, length, d)
    requires forall i | 0 <= i < |d| :: 2.0 * Weighed(d[i], z[i]) <= bounds[i]
    ensures Dot(d, z) <= Weighed(top, Weighed(|d| as real, length))
  {
    RowsBelow(d, z, bounds);
    SumOfBounds(d, bounds, top, |d|, length);
    HalfOfBounds(top, |d|, length);
  }

  lemma HalfOfBounds(top: real, n: nat, length: real)
    ensures Weighed(top, Weighed(n as real, length) + Repeated(n, length))
      == 2.0 * Weighed(top, Weighed(n as real, length))
  {
    RepeatedIsProduct(n, length);
  }

  lemma {:induction false} SquaredLength(w: seq<real>, d: seq<real>)
    requires |w| == |d|
    ensures Dist2(Plus(w, d), w) == Dot(d, d)
  {
    if w != [] {
      PlusTail(w, d);
      SquaresTail(Plus(w, d), w);
      SquaredLength(w[1..], d[1..]);
    }
  }

  // ---- one projected step --------------------------------------------------------------

  /** How far a projected step lowers the objective of `n` symbols, from the square of its length. */
  function Gain(n: nat, load: real, length: real): real
  {
    (length + Weighed(8.0 - n as real, Weighed(load, length))) / 2.0
  }

  /** What a projection can add to the objective that loses some of the sum: `lost` is the sum lost times the
      threshold by which the values were lowered. */
  function Slip(load: real, lost: real): real { lost + 4.0 * Weighed(load, lost) }

  lemma SlopeDown(step: real, load: real, slope: real, length: real, lost: real)
    requires Rate(step, load) && Weighed(step, slope) <= lost - length
    ensures slope <= Slip(load, lost) - Slip(load, length)
  {
    SlopeFromResidual(step, load, -slope, lost - length);
    assert step * -slope == -(step * slope);
    Distribute(load, lost, -length);
    assert load * -length == -(load * length);
  }

  lemma GainOf(n: nat, load: real, length: real, slope: real, risk: real, high: real, low: real, lost: real)
    requires high == low + slope + length / 2.0 + risk / 2.0 && slope <= Slip(load, lost) - Slip(load, length)
    requires risk <= Weighed(n as real, Weighed(load, length))
    ensures high <= low + (Slip(load, lost) - Gain(n, load, length))
  {
    var x := Weighed(load, length);
    assert (8.0 - n as real) * x == 8.0 * x - n as real * x;
  }

  lemma RiskOfMove(aversion: real, top: real, load: real, n: nat, length: real, spread: real)
    requires aversion >= 0.0 && load == Weighed(aversion, top) && spread <= Weighed(top, Weighed(n as real, length))
    ensures Weighed(aversion, spread) <= Weighed(n as real, Weighed(load, length))
  {
    SmallerFactor(aversion, spread, top * (n as real * length));
    FourFactors(aversion, top, n as real, length);
  }

  lemma FourFactors(a: real, b: real, n: real, x: real)
    ensures a * (b * (n * x)) == n * ((a * b) * x)
  {
    assert b * (n * x) == n * (b * x);
    assert a * (n * (b * x)) == n * (a * (b * x));
    assert a * (b * x) == (a * b) * x;
  }

  /** A projected step lowers the objective by the gain, but for what it loses of the sum. */
  lemma ProjectedStepGains(w: seq<real>, d: seq<real>, t: seq<real>, sigma: seq<seq<real>>, u: seq<real>,
                           aversion: real, lowering: real, step: real, top: real, load: real, length: real,
                           missing: real, lost: real, excess: real)
    requires |w| == |d| == |t| == |u| == |sigma| > 0 && Symmetric(sigma) && Semidefinite(sigma)
    requires aversion >= 0.0 && top == MaxDiagonal(sigma, |sigma|) && load == Weighed(aversion, top)
    requires Rate(step, load) && lowering >= 0.0 && length == Dot(d, d)
    requires Plus(w, d) == Clipped(Candidate(w, t, sigma, aversion, step), u, lowering)
    requires InBox(w, u) && missing == Sum(w) - Sum(Plus(w, d)) && lost == Weighed(lowering, missing)
    requires excess == Slip(load, lost) - Gain(|w|, load, length)
    ensures NearlyBelow(Plus(w, d), w, t, sigma, aversion, excess)
  {
    var slope := Dot(Gradient(w, t, sigma, aversion), d);
    assert Weighed(step, slope) <= lost - length by {
      StepGoesDown(w, d, t, sigma, u, aversion, lowering, step, slope, length, missing, lost);
    }
    SteepGains(w, d, t, sigma, aversion, step, top, load, slope, length, lost);
  }

  /** A move gains what its slope promises. */
  lemma SteepGains(w: seq<real>, d: seq<real>, t: seq<real>, sigma: seq<seq<real>>, aversion: real, step: real,
                   top: real, load: real, slope: real, length: real, lost: real)
    requires |w| == |d| == |t| == |sigma| > 0 && Symmetric(sigma) && Semidefinite(sigma)
    requires aversion >= 0.0 && top == MaxDiagonal(sigma, |sigma|) && load == Weighed(aversion, top)
    requires Rate(step, load) && length == Dot(d, d)
    requires slope == Dot(Gradient(w, t, sigma, aversion), d) && Weighed(step, slope) <= lost - length
    ensures NearlyBelow(Plus(w, d), w, t, sigma, aversion, Slip(load, lost) - Gain(|w|, load, length))
  {
    var spread := Form(sigma, d, d);
    SlopeDown(step, load, slope, length, lost);
    assert spread <= Weighed(top, Weighed(|d| as real, length)) by { FormBelow(sigma, d, top, length); }
    RiskOfMove(aversion, top, load, |d|, length, spread);
    GainAlong(w, d, t, sigma, aversion, slope, spread, load, length, lost);
  }

  lemma StepGoesDown(w: seq<real>, d: seq<real>, t: seq<real>, sigma: seq<seq<real>>, u: seq<real>, aversion: real,
                     lowering: real, step: real, slope: real, length: real, missing: real, lost: real)
    requires |w| == |d| == |t| == |u| && Square(sigma, |w|) && lowering >= 0.0 && length == Dot(d, d)
    requires Plus(w, d) == Clipped(Candidate(w, t, sigma, aversion, step), u, lowering)
    requires InBox(w, u) && missing == Sum(w) - Sum(Plus(w, d)) && lost == Weighed(lowering, missing)
    requires slope == Dot(Gradient(w, t, sigma, aversion), d)
    ensures Weighed(step, slope) <= lost - length
  {
    var v, p := Candidate(w, t, sigma, aversion, step), Plus(w, d);
    var far, near, moved := Dist2(w, v), Dist2(p, v), Dist2(p, w);
    assert near == far + 2.0 * Weighed(step, slope) + moved by { StepAlong(w, t, sigma, aversion, step, d, slope); }
    assert far >= near + Dist2(w, p) - 2.0 * lost by { ClippedIsNearerBut(v, u, lowering, p, w, missing, lost); }
    Dist2Swap(p, w);
    SquaredLength(w, d);
  }

  /** A clipped vector is nearer than any other in the box, but for what the threshold charges for a smaller sum. */
  lemma ClippedIsNearerBut(v: seq<real>, caps: seq<real>, lowering: real, p: seq<real>, y: seq<real>, missing: real,
                           lost: real)
    requires |v| == |caps| == |y| && InBox(y, caps) && p == Clipped(v, caps, lowering)
    requires missing == Sum(y) - Sum(p) && lost == Weighed(lowering, missing)
    ensures Dist2(y, v) >= Dist2(p, v) + Dist2(y, p) - 2.0 * lost
  {
    ClippedVariation(v, caps, lowering, y);
    MovingCosts(v, p, y, Scaled(lowering, Minus(p, y)));
    Charged(lowering, p, y, missing, lost);
  }

  lemma Charged(lowering: real, p: seq<real>, y: seq<real>, missing: real, lost: real)
    requires |p| == |y| && missing == Sum(y) - Sum(p) && lost == Weighed(lowering, missing)
    ensures Sum(Scaled(lowering, Minus(p, y))) == -lost
  {
    var sum := Sum(Minus(p, y));
    SumOfMinus(p, y);
    SumOfShare(lowering, Minus(p, y), sum);
    OppositeShare(lowering, missing, sum);
  }

  lemma OppositeShare(k: real, x: real, y: real)
    requires y == -x
    ensures Weighed(k, y) == -Weighed(k, x)
  {
  }

  lemma GainAlong(w: seq<real>, d: seq<real>, t: seq<real>, sigma: seq<seq<real>>, aversion: real, slope: real,
                  spread: real, load: real, length: real, lost: real)
    requires |w| == |d| == |t| == |sigma| && Symmetric(sigma) && length == Dot(d, d)
    requires slope == Dot(Gradient(w, t, sigma, aversion), d) && slope <= Slip(load, lost) - Slip(load, length)
    requires spread == Form(sigma, d, d) && Weighed(aversion, spread) <= Weighed(|w| as real, Weighed(load, length))
    ensures NearlyBelow(Plus(w, d), w, t, sigma, aversion, Slip(load, lost) - Gain(|w|, load, length))
  {
    var high, low := Objective(Plus(w, d), t, sigma, aversion), Objective(w, t, sigma, aversion);
    assert high == low + slope + length / 2.0 + Weighed(aversion, spread) / 2.0 by {
      SquaredLength(w, d);
      ObjectiveAfter(w, d, t, sigma, aversion, high, low, slope, length, spread);
    }
    GainOf(|w|, load, length, slope, Weighed(aversion, spread), high, low, lost);
  }

  /** The number of symbols and the risk allow the step. */
  predicate AllowsStep(n: nat, load: real) { (n as real - 8.0) * load <= 1.0 }

  /** For up to eight symbols that is half the squared length at least, for more it is not negative while the risk is
      small. */
  lemma GainIsPositive(n: nat, load: real, length: real)
    requires load >= 0.0 && length >= 0.0
    ensures n <= 8 ==> Gain(n, load, length) >= length / 2.0
    ensures AllowsStep(n, load) ==> Gain(n, load, length) >= 0.0
  {
    var more := n as real - 8.0;
    PositiveFactors(load, length);
    assert (8.0 - n as real) * (load * length) == -(more * (load * length));
    assert more * (load * length) == (more * load) * length;
    if n <= 8 { MulOrder(more, 0.0, load * length); }
    if more * load <= 1.0 { MulOrder(more * load, 1.0, length); }
  }

  // ---- what a projection loses ---------------------------------------------------------

  /** No threshold of the search exceeds the greatest value. */
  lemma {:induction false} SearchStaysBelow(values: seq<real>, caps: seq<real>, budget: real, lo: real, hi: real,
                                            rounds: seq<nat>)
    requires |values| == |caps| && lo <= hi
    ensures var (lower, upper) := Bracketed(values, caps, budget, lo, hi, rounds); lo <= lower <= upper <= hi
  {
    if rounds != [] { SearchStaysBelow(values, caps, budget, lo, hi, rounds[..|rounds| - 1]); }
  }

  lemma ThresholdBelow(values: seq<real>, caps: seq<real>, budget: real, most: real)
    requires |values| == |caps| > 0 && budget > 0.0 && Total(values, caps, 0.0) > budget
    requires forall i | 0 <= i < |values| :: values[i] <= most
    ensures Threshold(values, caps, budget) <= most
  {
    var lo, hi := StartLow(values, caps), StartHigh(values);
    StartBrackets(values, caps, budget, lo, hi);
    if hi < lo { TotalFalls(values, caps, hi, lo); }
    SearchStaysBelow(values, caps, budget, lo, hi, Range(ROUNDS));
    var j :| 0 <= j < |values| && Negated(values)[j] == -hi;
  }

  /** What projecting `v` loses of a feasible sum, times the threshold by which the values are lowered: at most two
      trillionths of the greatest value. */
  lemma LostIsTiny(v: seq<real>, u: seq<real>, budget: real, sum: real, most: real, p: seq<real>)
    returns (lowering: real, missing: real, lost: real)
    requires |v| == |u| > 0 && budget > 0.0 && sum <= budget + TINY && most >= 0.0
    requires (forall i | 0 <= i < |v| :: v[i] <= most) && Resolves(v, u) && p == Clipped(v, u, Lowering(v, u, budget))
    ensures lowering >= 0.0 && p == Clipped(v, u, lowering) && missing == sum - Sum(p)
    ensures lost == Weighed(lowering, missing) && lost <= Weighed(2.0 * TINY, most)
  {
    lowering := Lowering(v, u, budget);
    missing := sum - Sum(p);
    lost := Weighed(lowering, missing);
    if Total(v, u, 0.0) > budget + TINY {
      LoweredBy(v, u, budget, sum, most);
      SmallLoss(lowering, missing, 2.0 * TINY, most);
    } else {
      NothingLost(missing, most);
    }
  }

  lemma NothingLost(missing: real, most: real)
    requires most >= 0.0
    ensures Weighed(0.0, missing) <= Weighed(2.0 * TINY, most)
  {
    PositiveFactors(2.0 * TINY, most);
  }

  lemma LoweredBy(v: seq<real>, u: seq<real>, budget: real, sum: real, most: real)
    requires |v| == |u| > 0 && budget > 0.0 && sum <= budget + TINY && Total(v, u, 0.0) > budget + TINY
    requires (forall i | 0 <= i < |v| :: v[i] <= most) && Resolves(v, u)
    ensures var lowering := Lowering(v, u, budget);
      0.0 <= lowering <= most && sum - Sum(Clipped(v, u, lowering)) <= 2.0 * TINY
  {
    LoweringFits(v, u, budget);
    ThresholdBelow(v, u, budget, most);
  }

  lemma SmallLoss(lowering: real, missing: real, bound: real, most: real)
    requires 0.0 <= lowering <= most && missing <= bound && bound >= 0.0
    ensures Weighed(lowering, missing) <= Weighed(bound, most)
  {
    SmallerFactor(lowering, missing, bound);
    MulOrder(lowering, most, bound);
  }

  // ---- whole descents ------------------------------------------------------------------

  /** No weight of a candidate exceeds this. */
  function Reach(most: real, budget: real): real { most + (budget + TINY) / 4.0 }

  /** The most a round can lose. */
  function Drift(load: real, most: real, budget: real): real { Slip(load, Weighed(2.0 * TINY, Reach(most, budget))) }

  lemma DriftBounds(load: real, most: real, budget: real, lost: real)
    requires load >= 0.0 && most >= 0.0 && budget >= 0.0 && lost <= Weighed(2.0 * TINY, Reach(most, budget))
    ensures Slip(load, lost) <= Drift(load, most, budget) && Drift(load, most, budget) >= 0.0
  {
    var whole := Weighed(2.0 * TINY, Reach(most, budget));
    PositiveFactors(2.0 * TINY, Reach(most, budget));
    SmallerFactor(load, lost, whole);
    PositiveFactors(load, whole);
  }

  /** A round that refills nothing lowers the objective by the gain from its length, but for the drift. */
  lemma IdleRoundGains(symbols: seq<string>, w: seq<real>, t: seq<real>, sigma: seq<seq<real>>, caps: Weights,
                       u: seq<real>, budget: real, aversion: real, step: real, top: real, load: real, most: real,
                       next: seq<real>)
    requires Distinct(symbols) && symbols != [] && |w| == |t| == |symbols| == |sigma| && budget > 0.0
    requires Symmetric(sigma) && Semidefinite(sigma) && aversion >= 0.0 && Fits(w, symbols, caps, budget)
    requires u == Pick(symbols, caps) && top == MaxDiagonal(sigma, |sigma|) && step == StepFor(top, aversion)
    requires load == Weighed(aversion, top)
    requires InBox(t, u) && (forall s | s in caps :: caps[s] <= most) && most >= 0.0
    requires DescentLaws.Narrow(|symbols|, 2.0 * most + budget + TINY)
    requires RefillsNothing(w, t, sigma, u, budget, aversion, step)
    requires next == Descended(symbols, w, t, sigma, caps, budget, aversion, step)
    ensures NearlyBelow(next, w, t, sigma, aversion, Drift(load, most, budget) - Gain(|w|, load, Dist2(next, w)))
  {
    IdleRound(symbols, w, t, sigma, caps, u, budget, aversion, step, most);
    assert Rate(step, load) && load >= 0.0 by {
      TopIsNotNegative(sigma);
      StepRate(top, aversion, load);
      UpShare(aversion, top);
    }
    var lowering, missing, lost := RoundLosesLittle(symbols, w, t, sigma, caps, u, budget, aversion, step, most, next);
    DriftBounds(load, most, budget, lost);
    ProjectionGains(w, next, t, sigma, u, aversion, lowering, step, top, load, missing, lost,
                    Drift(load, most, budget));
  }

  lemma RoundLosesLittle(symbols: seq<string>, w: seq<real>, t: seq<real>, sigma: seq<seq<real>>, caps: Weights,
                         u: seq<real>, budget: real, aversion: real, step: real, most: real, p: seq<real>)
    returns (lowering: real, missing: real, lost: real)
    requires symbols != [] && |w| == |t| == |symbols| == |sigma| && budget > 0.0
    requires Symmetric(sigma) && Semidefinite(sigma) && aversion >= 0.0 && Fits(w, symbols, caps, budget)
    requires u == Pick(symbols, caps) && step == StepSize(sigma, |w|, aversion)
    requires InBox(t, u) && (forall s | s in caps :: caps[s] <= most) && most >= 0.0
    requires DescentLaws.Narrow(|symbols|, 2.0 * most + budget + TINY)
    requires p == Projected(w, t, sigma, u, budget, aversion, step)
    ensures lowering >= 0.0 && p == Clipped(Candidate(w, t, sigma, aversion, step), u, lowering)
    ensures missing == Sum(w) - Sum(p) && lost == Weighed(lowering, missing)
    ensures lost <= Weighed(2.0 * TINY, Reach(most, budget))
  {
    var v, sum := Candidate(w, t, sigma, aversion, step), Sum(w);
    LoopResolves(symbols, w, t, sigma, caps, budget, aversion, most);
    CandidateBelow(symbols, w, t, sigma, caps, u, budget, aversion, step, most, v);
    lowering, missing, lost := LostIsTiny(v, u, budget, sum, Reach(most, budget), p);
  }

  lemma CandidateBelow(symbols: seq<string>, w: seq<real>, t: seq<real>, sigma: seq<seq<real>>, caps: Weights,
                       u: seq<real>, budget: real, aversion: real, step: real, most: real, v: seq<real>)
    requires symbols != [] && |w| == |t| == |symbols| == |sigma| && budget > 0.0
    requires Symmetric(sigma) && Semidefinite(sigma) && aversion >= 0.0 && Fits(w, symbols, caps, budget)
    requires u == Pick(symbols, caps) && step == StepSize(sigma, |w|, aversion)
    requires InBox(t, u) && (forall s | s in caps :: caps[s] <= most) && most >= 0.0
    requires v == Candidate(w, t, sigma, aversion, step)
    ensures forall i | 0 <= i < |v| :: v[i] <= Reach(most, budget)
  {
    CapsBelow(symbols, caps, most);
    BoxBelow(w, u, most);
    BoxBelow(t, u, most);
    CandidateWithin(w, t, sigma, aversion, most, Sum(w), v);
  }

  lemma MoveTo(w: seq<real>, p: seq<real>) returns (d: seq<real>, length: real)
    requires |w| == |p|
    ensures |d| == |w| && Plus(w, d) == p && length == Dot(d, d) == Dist2(p, w)
  {
    d := WayTo(w, p);
    SquaredLength(w, d);
    length := Dot(d, d);
  }

  lemma ProjectionGains(w: seq<real>, p: seq<real>, t: seq<real>, sigma: seq<seq<real>>, u: seq<real>, aversion: real,
                        lowering: real, step: real, top: real, load: real, missing: real, lost: real,
                        drift: real)
    requires |w| == |t| == |u| == |sigma| > 0 && Symmetric(sigma) && Semidefinite(sigma) && InBox(w, u)
    requires aversion >= 0.0 && top == MaxDiagonal(sigma, |sigma|) && load == Weighed(aversion, top)
    requires Rate(step, load) && lowering >= 0.0 && p == Clipped(Candidate(w, t, sigma, aversion, step), u, lowering)
    requires missing == Sum(w) - Sum(p) && lost == Weighed(lowering, missing) && Slip(load, lost) <= drift
    ensures NearlyBelow(p, w, t, sigma, aversion, drift - Gain(|w|, load, Dist2(p, w)))
  {
    var d, length := MoveTo(w, p);
    var excess := Slip(load, lost) - Gain(|w|, load, length);
    ProjectedStepGains(w, d, t, sigma, u, aversion, lowering, step, top, load, length, missing, lost, excess);
    Loosened(p, w, t, sigma, aversion, excess, drift - Gain(|w|, load, length));
  }

  lemma Loosened(r: seq<real>, w: seq<real>, t: seq<real>, sigma: seq<seq<real>>, aversion: real, less: real,
                 more: real)
    requires |r| == |w| == |t| && Square(sigma, |w|) && NearlyBelow(r, w, t, sigma, aversion, less) && less <= more
    ensures NearlyBelow(r, w, t, sigma, aversion, more)
  {
  }

  /** No round of the descent refills anything. */
  ghost predicate StaysIdle(symbols: seq<string>, w: seq<real>, t: seq<real>, sigma: seq<seq<real>>, caps: Weights,
                            u: seq<real>, budget: real, aversion: real, step: real, rounds: seq<nat>)
    requires |w| == |t| == |symbols| == |u| > 0 && Square(sigma, |w|)
    decreases |rounds|
  {
    rounds != [] ==>
      && RefillsNothing(w, t, sigma, u, budget, aversion, step)
      && var next := Descended(symbols, w, t, sigma, caps, budget, aversion, step);
         Settled(next, w) || StaysIdle(symbols, next, t, sigma, caps, u, budget, aversion, step, rounds[1..])
  }

  ghost predicate NextIsNearlyBelow(symbols: seq<string>, w: seq<real>, t: seq<real>, sigma: seq<seq<real>>,
                                    caps: Weights, budget: real, aversion: real, step: real, drift: real)
    requires |w| == |t| == |symbols| && Square(sigma, |w|)
  {
    NearlyBelow(Descended(symbols, w, t, sigma, caps, budget, aversion, step), w, t, sigma, aversion, drift)
  }

  lemma RoundIsNearlyBelow(symbols: seq<string>, w: seq<real>, t: seq<real>, sigma: seq<seq<real>>, caps: Weights,
                           u: seq<real>, budget: real, aversion: real, step: real, top: real, load: real, most: real,
                           drift: real)
    requires Distinct(symbols) && symbols != [] && |w| == |t| == |symbols| == |sigma| && budget > 0.0
    requires Symmetric(sigma) && Semidefinite(sigma) && aversion >= 0.0 && Fits(w, symbols, caps, budget)
    requires u == Pick(symbols, caps) && top == MaxDiagonal(sigma, |sigma|) && step == StepFor(top, aversion)
    requires load == Weighed(aversion, top) && AllowsStep(|symbols|, load) && drift == Drift(load, most, budget)
    requires InBox(t, u) && (forall s | s in caps :: caps[s] <= most) && most >= 0.0
    requires DescentLaws.Narrow(|symbols|, 2.0 * most + budget + TINY)
    requires RefillsNothing(w, t, sigma, u, budget, aversion, step)
    ensures NextIsNearlyBelow(symbols, w, t, sigma, caps, budget, aversion, step, drift)
  {
    var next := Descended(symbols, w, t, sigma, caps, budget, aversion, step);
    var length := Dist2(next, w);
    IdleRoundGains(symbols, w, t, sigma, caps, u, budget, aversion, step, top, load, most, next);
    assert load >= 0.0 by {
      TopIsNotNegative(sigma);
      UpShare(aversion, top);
    }
    assert Gain(|symbols|, load, length) >= 0.0 by {
      Dist2Definite(next, w);
      GainIsPositive(|symbols|, load, length);
    }
  }

  /** No round from a feasible vector that refills nothing raises the objective by more than the drift. */
  ghost predicate StepIsSafe(symbols: seq<string>, t: seq<real>, sigma: seq<seq<real>>, caps: Weights, u: seq<real>,
                             budget: real, aversion: real, step: real, drift: real)
    requires |t| == |symbols| == |u| > 0 && Square(sigma, |t|)
  {
    forall w: seq<real> |
      |w| == |t| && Fits(w, symbols, caps, budget) && RefillsNothing(w, t, sigma, u, budget, aversion, step) ::
      NextIsNearlyBelow(symbols, w, t, sigma, caps, budget, aversion, step, drift)
  }

  /** The step is safe while the number of symbols and the risk allow it. */
  lemma SafeForFew(symbols: seq<string>, t: seq<real>, sigma: seq<seq<real>>, caps: Weights, u: seq<real>, budget: real,
                   aversion: real, step: real, top: real, load: real, most: real, drift: real)
    requires Distinct(symbols) && symbols != [] && |t| == |symbols| == |sigma| && budget > 0.0
    requires Symmetric(sigma) && Semidefinite(sigma) && aversion >= 0.0
    requires u == Pick(symbols, caps) && top == MaxDiagonal(sigma, |sigma|) && step == StepFor(top, aversion)
    requires load == Weighed(aversion, top) && AllowsStep(|symbols|, load) && drift == Drift(load, most, budget)
    requires InBox(t, u) && (forall s | s in caps :: caps[s] <= most) && most >= 0.0
    requires DescentLaws.Narrow(|symbols|, 2.0 * most + budget + TINY)
    ensures StepIsSafe(symbols, t, sigma, caps, u, budget, aversion, step, drift)
  {
    forall w: seq<real> |
      |w| == |t| && Fits(w, symbols, caps, budget) && RefillsNothing(w, t, sigma, u, budget, aversion, step)
      ensures NextIsNearlyBelow(symbols, w, t, sigma, caps, budget, aversion, step, drift)
    {
      RoundIsNearlyBelow(symbols, w, t, sigma, caps, u, budget, aversion, step, top, load, most, drift);
    }
  }

  lemma {:induction false} RepeatedGrows(n: nat, x: real)
    requires x >= 0.0
    ensures Repeated(n, x) >= 0.0
  {
    if n > 0 { RepeatedGrows(n - 1, x); }
  }

  /** The descent ends above its start by no more than the drift of its rounds. */
  ghost predicate EndsNearlyBelow(symbols: seq<string>, w: seq<real>, t: seq<real>, sigma: seq<seq<real>>,
                                  caps: Weights, budget: real, aversion: real, step: real, rounds: seq<nat>,
                                  drift: real)
    requires |w| == |t| == |symbols| && Square(sigma, |w|)
  {
    NearlyBelow(Descent(symbols, w, t, sigma, caps, budget, aversion, step, rounds), w, t, sigma, aversion,
                Repeated(|rounds|, drift))
  }

  lemma EndsAtOnce(symbols: seq<string>, w: seq<real>, t: seq<real>, sigma: seq<seq<real>>, caps: Weights, budget: real,
                   aversion: real, step: real, rounds: seq<nat>, drift: real, next: seq<real>)
    requires |w| == |t| == |symbols| && Square(sigma, |w|) && rounds != [] && drift >= 0.0
    requires next == Descended(symbols, w, t, sigma, caps, budget, aversion, step) && Settled(next, w)
    requires NearlyBelow(next, w, t, sigma, aversion, drift)
    ensures EndsNearlyBelow(symbols, w, t, sigma, caps, budget, aversion, step, rounds, drift)
  {
    RepeatedGrows(|rounds| - 1, drift);
  }

  lemma EndsLater(symbols: seq<string>, w: seq<real>, t: seq<real>, sigma: seq<seq<real>>, caps: Weights, budget: real,
                  aversion: real, step: real, rounds: seq<nat>, drift: real, next: seq<real>)
    requires |w| == |t| == |symbols| && Square(sigma, |w|) && rounds != []
    requires next == Descended(symbols, w, t, sigma, caps, budget, aversion, step) && !Settled(next, w)
    requires NearlyBelow(next, w, t, sigma, aversion, drift)
    requires EndsNearlyBelow(symbols, next, t, sigma, caps, budget, aversion, step, rounds[1..], drift)
    ensures EndsNearlyBelow(symbols, w, t, sigma, caps, budget, aversion, step, rounds, drift)
  {
  }

  /** With a safe step, a descent that refills nothing ends above where it started by no more than the drift of its
      rounds, whatever their number. */
  lemma {:induction false} IdleDescentIsNoWorse(symbols: seq<string>, w: seq<real>, t: seq<real>, sigma: seq<seq<real>>,
                                                caps: Weights, u: seq<real>, budget: real, aversion: real, step: real,
                                                drift: real, rounds: seq<nat>)
    requires Distinct(symbols) && |w| == |t| == |symbols| == |u| > 0 && Square(sigma, |w|) && budget >= 0.0
    requires Fits(w, symbols, caps, budget) && StepIsSafe(symbols, t, sigma, caps, u, budget, aversion, step, drift)
    requires StaysIdle(symbols, w, t, sigma, caps, u, budget, aversion, step, rounds) && drift >= 0.0
    ensures EndsNearlyBelow(symbols, w, t, sigma, caps, budget, aversion, step, rounds, drift)
    decreases |rounds|
  {
    if rounds != [] {
      var next := Descended(symbols, w, t, sigma, caps, budget, aversion, step);
      DescendedFits(symbols, w, t, sigma, caps, budget, aversion, step);
      assert NextIsNearlyBelow(symbols, w, t, sigma, caps, budget, aversion, step, drift);
      if Settled(next, w) {
        EndsAtOnce(symbols, w, t, sigma, caps, budget, aversion, step, rounds, drift, next);
      } else {
        IdleDescentIsNoWorse(symbols, next, t, sigma, caps, u, budget, aversion, step, drift, rounds[1..]);
        EndsLater(symbols, w, t, sigma, caps, budget, aversion, step, rounds, drift, next);
      }
    }
  }
}
