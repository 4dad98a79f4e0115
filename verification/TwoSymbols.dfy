/** Two ordinary symbols that the descent of ez/live/optimizer_allocator.py takes to more risk, not less: every round
    steps down and then fills the weights up in proportion to the target, which raises the larger weight more. */
module TwoSymbols {
  import opened Reals
  import opened Simplex
  import opened Refill
  import opened Allocator
  import opened GradientLaws
  import opened DescentLaws
  import opened HedgedRisk

  const TARGET := [0.8, 0.2]
  const CAPS := [1.0, 1.0]

  /** Two variances of 1, correlated by one half. */
  const RELATED := [[1.0, 0.5], [0.5, 1.0]]

  lemma DotOfTwo(x: seq<real>, y: seq<real>)
    requires |x| == |y| == 2
    ensures Dot(x, y) == x[0] * y[0] + x[1] * y[1]
  {
    DotFirst(x, y);
    DotFirst(x[1..], y[1..]);
    assert x[1..][1..] == [] && y[1..][1..] == [];
  }

  lemma SumOfTwo(x: seq<real>)
    requires |x| == 2
    ensures Sum(x) == x[0] + x[1]
  {
    assert Sum(x[1..]) == x[1] + Sum(x[1..][1..]) && x[1..][1..] == [];
  }

  lemma StepOfTwo()
    ensures Square(RELATED, 2) && StepSize(RELATED, 2, 1.0) == 0.2
  {
    assert MaxDiagonal(RELATED, 1) == 1.0 && MaxDiagonal(RELATED, 2) == 1.0;
  }

  // ---- one round -----------------------------------------------------------------------

  /** All of the budget, this much of it in the first symbol. */
  function Split(a: real): seq<real> { [a, 1.0 - a] }

  lemma CandidateOfTwo(a: real)
    ensures Square(RELATED, 2)
    ensures Candidate(Split(a), TARGET, RELATED, 1.0, 0.2) == [0.7 * a + 0.06, 0.64 - 0.7 * a]
  {
    DotOfTwo(RELATED[0], Split(a));
    DotOfTwo(RELATED[1], Split(a));
  }

  /** The dict of a projection, small weights dropped. */
  lemma PickOfProjection(symbols: seq<string>, v: seq<real>, caps: Weights, budget: real, p: seq<real>)
    requires Distinct(symbols) && symbols != [] && |v| == |symbols| && budget > 0.0
    requires var u := Pick(symbols, caps); p == Clipped(v, u, Lowering(v, u, budget))
    ensures Pick(symbols, Projection(symbols, Assign(symbols, v), caps, budget)) == Trimmed(p)
  {
    Assigned(symbols, v);
    AmongAll(symbols, Assign(symbols, v).Keys);
    StandingIsClipped(symbols, v, caps, budget);
    KeepFacts(symbols, p);
  }

  lemma ProjectionOfTwo(x: real, y: real)
    requires 0.0 <= x <= 0.8 && y <= 0.1
    ensures Clipped([x, y], CAPS, Lowering([x, y], CAPS, 1.0)) == [x, Max(0.0, y)]
  {
    assert Clipped([x, y], CAPS, 0.0) == [x, Max(0.0, y)];
    SumOfTwo([x, Max(0.0, y)]);
  }

  lemma RoomForTwo(w: seq<real>)
    requires |w| == 2 && w[0] <= 0.9 && w[1] <= 0.9
    ensures Open(w, CAPS) == 2 && Sum(Shares(w, CAPS, TARGET)) == 1.0
  {
    assert Open(w, CAPS) == 1 + Open(w[1..], CAPS[1..]);
    assert Open(w[1..], CAPS[1..]) == 1 + Open(w[1..][1..], CAPS[1..][1..]);
    var shares, rest := Shares(w, CAPS, TARGET), Shares(w[1..], CAPS[1..], TARGET[1..]);
    assert shares == [0.8] + rest && rest[0] == 0.2;
    SumOfTwo(shares);
  }

  /** What is left goes to both in proportion to the target. */
  lemma PassOfTwo(x: real, y: real, rest: real)
    requires 0.0 <= x <= 0.8 && 0.0 <= y <= 0.1 && rest == 1.0 - x - y && x + 0.8 * rest <= 0.95
    ensures Adds([x, y], CAPS, TARGET, rest, 1.0) == [0.8 * rest, 0.2 * rest]
  {
  }

  lemma FillOfTwo(x: real, y: real, rest: real, rounds: seq<nat>)
    requires 0.0 <= x <= 0.8 && 0.0 <= y <= 0.1 && rest == 1.0 - x - y && x + 0.8 * rest <= 0.95 && rounds != []
    ensures FilledFrom([x, y], CAPS, TARGET, rest, rounds) == Split(x + 0.8 * rest)
  {
    RoomForTwo([x, y]);
    PassOfTwo(x, y, rest);
    var adds := Adds([x, y], CAPS, TARGET, rest, 1.0);
    SumOfTwo(adds);
    assert Plus([x, y], adds) == Split(x + 0.8 * rest);
  }

  lemma RefillOfTwo(x: real, y: real)
    requires 0.6 <= x <= 0.8 && 0.0 <= y <= 0.1 && x + 0.8 * (1.0 - x - y) <= 0.95
    ensures FilledUp([x, y], CAPS, Priorities(TARGET), 1.0) == Split(x + 0.8 * (1.0 - x - y))
  {
    var rest := 1.0 - x - y;
    SumOfTwo([x, y]);
    assert Priorities(TARGET) == TARGET;
    FillOfTwo(x, y, rest, Range(PASSES));
    SplitIsKept(x + 0.8 * rest);
  }

  lemma SplitIsKept(a: real)
    requires 0.6 <= a <= 0.95
    ensures Trimmed(Split(a)) == Split(a)
  {
  }

  /** From the target, or from where an earlier round ended, a round ends between these weights. */
  lemma RoundOfTwo(symbols: seq<string>, caps: Weights, a: real) returns (b: real)
    requires Distinct(symbols) && |symbols| == 2 && Pick(symbols, caps) == CAPS && 0.8 <= a <= 0.945
    ensures Square(RELATED, 2) && 0.86 <= b <= 0.945
    ensures Descended(symbols, Split(a), TARGET, RELATED, caps, 1.0, 1.0, 0.2) == Split(b)
  {
    var x, y := 0.7 * a + 0.06, 0.64 - 0.7 * a;
    CandidateOfTwo(a);
    ProjectionOfTwo(x, y);
    var z := TrimWeight(Max(0.0, y));
    PickOfProjection(symbols, [x, y], caps, 1.0, [x, Max(0.0, y)]);
    assert Trimmed([x, Max(0.0, y)]) == [x, z];
    RefillOfTwo(x, z);
    b := x + 0.8 * (1.0 - x - z);
  }

  /** So does the whole descent, however many rounds it has. */
  lemma {:induction false} DescentOfTwo(symbols: seq<string>, caps: Weights, a: real, rounds: seq<nat>)
    returns (b: real)
    requires Distinct(symbols) && |symbols| == 2 && Pick(symbols, caps) == CAPS && 0.8 <= a <= 0.945 && rounds != []
    ensures Square(RELATED, 2) && 0.86 <= b <= 0.945
    ensures Descent(symbols, Split(a), TARGET, RELATED, caps, 1.0, 1.0, 0.2, rounds) == Split(b)
    decreases |rounds|
  {
    b := RoundOfTwo(symbols, caps, a);
    if !Settled(Split(b), Split(a)) && rounds[1..] != [] { b := DescentOfTwo(symbols, caps, b, rounds[1..]); }
  }

  // ---- the objective -------------------------------------------------------------------

  lemma FormOfTwo(z: seq<real>)
    requires |z| == 2
    ensures Square(RELATED, 2) && Form(RELATED, z, z) == z[0] * z[0] + z[0] * z[1] + z[1] * z[1]
  {
    var y := Times(RELATED, z);
    DotOfTwo(RELATED[0], z);
    DotOfTwo(RELATED[1], z);
    DotOfTwo(z, y);
    assert y[0] == z[0] + 0.5 * z[1] && y[1] == 0.5 * z[0] + z[1];
  }

  lemma ObjectiveOfTwo(a: real)
    ensures Square(RELATED, 2)
    ensures Objective(Split(a), TARGET, RELATED, 1.0) == Sq(a - 0.8) + (Sq(a) - a + 1.0) / 2.0
  {
    var w := Split(a);
    FormOfTwo(w);
    assert Squares(w, TARGET) == [Sq(a - 0.8), Sq((1.0 - a) - 0.2)];
    SumOfTwo(Squares(w, TARGET));
    SquareOfMinus((1.0 - a) - 0.2, a - 0.8);
  }

  /** Above 0.86 the objective is no lower than there. */
  lemma HigherAsItLeans(a: real)
    requires a >= 0.86
    ensures Sq(a - 0.8) + (Sq(a) - a + 1.0) / 2.0 >= 0.4434
  {
    var d := a - 0.86;
    assert Sq(a - 0.8) == Sq(d) + 0.12 * d + 0.0036;
    assert Sq(a) == Sq(d) + 1.72 * d + 0.7396;
    SquareDefinite(d);
  }

  lemma RelatedPasses()
    ensures Square(RELATED, |RELATED|) && PassesGuard(RELATED, 0.5, 1.5)
  {
    assert Square(RELATED, |RELATED|);
    forall z: seq<real> | |z| == |RELATED| ensures Conditioned(RELATED, z, 0.5, 1.5) { RelatedAt(z); }
  }

  lemma RelatedIsSymmetric()
    ensures Symmetric(RELATED)
  {
  }

  lemma RelatedAt(z: seq<real>)
    requires |z| == 2
    ensures Square(RELATED, 2) && Conditioned(RELATED, z, 0.5, 1.5)
  {
    FormOfTwo(z);
    DotOfTwo(z, z);
    Crossed(z[0], z[1]);
  }

  lemma Crossed(x: real, y: real)
    ensures -(x * x + y * y) <= 2.0 * (x * y) <= x * x + y * y
  {
    SquareDefinite(x + y);
    SquareDefinite(x - y);
  }

  /** Fully invested in two symbols of equal variance, correlated by one half, the descent ends with more in the larger
      weight and with a higher risk-adjusted distance than the target it started from, although the same sum spread
      otherwise lies below the target. The covariance is far from degenerate. */
  lemma TwoSymbolsRise(all: seq<string>) returns (b: real)
    requires Distinct(all) && |all| == 2
    ensures Symmetric(RELATED) && PassesGuard(RELATED, 0.5, 1.5) && 0.86 <= b <= 0.945
    ensures var target, caps := Assign(all, TARGET), Assign(all, CAPS);
      && |Among(all, target.Keys)| == 2
      && GradientTarget(all, target, RELATED, caps, 1.0, 1.0) == Keep(all, Split(b))
    ensures Objective(Split(b), TARGET, RELATED, 1.0) >= 0.4434
    ensures Objective(TARGET, TARGET, RELATED, 1.0) == 0.42 && Objective(Split(0.65), TARGET, RELATED, 1.0) == 0.40875
  {
    b := GradientOfTwo(all);
    ObjectivesOfTwo(b);
    RelatedIsSymmetric();
    RelatedPasses();
  }

  lemma ObjectivesOfTwo(b: real)
    requires b >= 0.86
    ensures Square(RELATED, 2) && Objective(Split(b), TARGET, RELATED, 1.0) >= 0.4434
    ensures Objective(TARGET, TARGET, RELATED, 1.0) == 0.42 && Objective(Split(0.65), TARGET, RELATED, 1.0) == 0.40875
  {
    ObjectiveOfTwo(b);
    HigherAsItLeans(b);
    ObjectiveOfTwo(0.8);
    ObjectiveOfTwo(0.65);
    assert Split(0.8) == TARGET;
  }

  lemma GradientOfTwo(all: seq<string>) returns (b: real)
    requires Distinct(all) && |all| == 2
    ensures Square(RELATED, 2) && 0.86 <= b <= 0.945
    ensures var target, caps := Assign(all, TARGET), Assign(all, CAPS);
      && Among(all, target.Keys) == all
      && GradientTarget(all, target, RELATED, caps, 1.0, 1.0) == Keep(all, Split(b))
  {
    Assigned(all, TARGET);
    AmongAll(all, Assign(all, TARGET).Keys);
    PickAssigned(all, TARGET);
    PickAssigned(all, CAPS);
    StepOfTwo();
    assert Split(0.8) == TARGET;
    b := DescentOfTwo(all, Assign(all, CAPS), 0.8, Range(STEPS));
  }
}
