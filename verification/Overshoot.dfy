/** Ten symbols that move together, half of them the other way, on which the descent of
    ez/live/optimizer_allocator.py swings from side to side until it runs out of rounds. */
module Overshoot {
  import opened Reals
  import opened Simplex
  import opened Refill
  import opened Allocator
  import opened GradientLaws
  import opened DescentLaws
  import opened HedgedRisk

  // ---- one round -----------------------------------------------------------------------

  const AVERSION := 2.25

  /** Ten variances of 1, correlated by 0.99 one way or the other. */
  function Swing(n: nat): (sigma: seq<seq<real>>)
    ensures Square(sigma, n)
  {
    Hedged(n, 0.99, 0.01)
  }

  lemma TenHalved(n: nat, x: real)
    requires n == 10
    ensures Repeated((n + 1) / 2, x) == Repeated(n / 2, x) == 5.0 * x
  {
    RepeatedIsProduct(n / 2, x);
  }

  lemma SumOfTen(n: nat, a: real, b: real)
    requires n == 10
    ensures Sum(Alternating(n, a, b)) == 5.0 * a + 5.0 * b
  {
    SumOfAlternating(n, a, b);
    TenHalved(n, a);
    TenHalved(n, b);
  }

  lemma SwingOfTen(n: nat, a: real, b: real)
    requires n == 10
    ensures Dot(Sides(n), Alternating(n, a, b)) == 5.0 * (a - b)
  {
    Leaning(n, a, b);
    TenHalved(n, a);
    TenHalved(n, b);
  }

  /** The step from `a` and `b` with the target at 0.19 and 0.01 goes to `x` and `y`. */
  predicate Steps(a: real, b: real, x: real, y: real) {
    && x == a - 0.1 * ((a - 0.19) + AVERSION * (4.95 * (a - b) + 0.01 * a))
    && y == b - 0.1 * ((b - 0.01) + AVERSION * (4.95 * (b - a) + 0.01 * b))
  }

  lemma CandidateOfTen(n: nat, a: real, b: real, x: real, y: real)
    requires n == 10 && Steps(a, b, x, y)
    ensures Candidate(Alternating(n, a, b), Alternating(n, 0.19, 0.01), Swing(n), AVERSION, 0.1) == Alternating(n, x, y)
  {
    SwingOfTen(n, a, b);
    CandidateOfHedged(n, 0.99, 0.01, a, b, 0.19, 0.01, AVERSION, 0.1, 5.0 * (a - b), x, y);
  }

  /** Clipping to 0..0.2 keeps the sum at 1: nothing is lowered, dropped or filled up. */
  lemma ProjectedOfTen(n: nat, w: seq<real>, t: seq<real>, x: real, y: real, c: real, d: real)
    requires n == 10 && |w| == |t| == n && Candidate(w, t, Swing(n), AVERSION, 0.1) == Alternating(n, x, y)
    requires c == Clip(x, 0.2, 0.0) && d == Clip(y, 0.2, 0.0) && c + d == 0.2
    ensures Projected(w, t, Swing(n), Alternating(n, 0.2, 0.2), 1.0, AVERSION, 0.1) == Alternating(n, c, d)
  {
    var v, u := Alternating(n, x, y), Alternating(n, 0.2, 0.2);
    assert Clipped(v, u, 0.0) == Alternating(n, c, d);
    SumOfTen(n, c, d);
  }

  lemma IdleOfTen(n: nat, t: seq<real>, c: real, d: real)
    requires n == 10 && |t| == n && c + d == 0.2 && (c == 0.0 || c > TINY) && (d == 0.0 || d > TINY)
    ensures var p, u := Alternating(n, c, d), Alternating(n, 0.2, 0.2);
      DropsNothing(p, t, u, 1.0) && Refilled(p, t, u, 1.0) == p
  {
    var p := Alternating(n, c, d);
    SumOfTen(n, c, d);
    assert Trimmed(p) == p;
  }

  lemma RoundOfTen(n: nat, symbols: seq<string>, caps: Weights, a: real, b: real, x: real, y: real, c: real, d: real)
    requires n == 10 && Distinct(symbols) && |symbols| == n && Pick(symbols, caps) == Alternating(n, 0.2, 0.2)
    requires Steps(a, b, x, y)
    requires c == Clip(x, 0.2, 0.0) && d == Clip(y, 0.2, 0.0)
    requires c + d == 0.2 && (c == 0.0 || c > TINY) && (d == 0.0 || d > TINY)
    ensures Descended(symbols, Alternating(n, a, b), Alternating(n, 0.19, 0.01), Swing(n), caps, 1.0, AVERSION, 0.1)
      == Alternating(n, c, d)
  {
    var w, t := Alternating(n, a, b), Alternating(n, 0.19, 0.01);
    CandidateOfTen(n, a, b, x, y);
    ProjectedOfTen(n, w, t, x, y, c, d);
    IdleOfTen(n, t, c, d);
    RoundIsRefill(symbols, w, t, Swing(n), caps, 1.0, AVERSION, 0.1);
  }

  // ---- a hundred and twenty rounds -----------------------------------------------------

  /** Whether a round takes ten symbols from `a` and `b` to `c` and `d`, too far for the loop to stop. */
  ghost predicate Moves(n: nat, symbols: seq<string>, caps: Weights, a: real, b: real, c: real, d: real)
    requires n == |symbols|
  {
    var w, t, next := Alternating(n, a, b), Alternating(n, 0.19, 0.01), Alternating(n, c, d);
    Descended(symbols, w, t, Swing(n), caps, 1.0, AVERSION, 0.1) == next && !Settled(next, w)
  }

  lemma Far(n: nat, a: real, b: real, c: real, d: real)
    requires n == 10 && (c - a > 0.1 || c - a < -0.1)
    ensures !Settled(Alternating(n, c, d), Alternating(n, a, b))
  {
    assert Alternating(n, c, d)[0] - Alternating(n, a, b)[0] == c - a;
  }

  lemma MovesFar(n: nat, symbols: seq<string>, caps: Weights, a: real, b: real, x: real, y: real, c: real, d: real)
    requires n == 10 && Distinct(symbols) && |symbols| == n && Pick(symbols, caps) == Alternating(n, 0.2, 0.2)
    requires Steps(a, b, x, y)
    requires c == Clip(x, 0.2, 0.0) && d == Clip(y, 0.2, 0.0) && (c - a > 0.1 || c - a < -0.1)
    requires c + d == 0.2 && (c == 0.0 || c > TINY) && (d == 0.0 || d > TINY)
    ensures Moves(n, symbols, caps, a, b, c, d)
  {
    RoundOfTen(n, symbols, caps, a, b, x, y, c, d);
    Far(n, a, b, c, d);
  }

  lemma SidesSwap(n: nat, symbols: seq<string>, caps: Weights)
    requires n == 10 && Distinct(symbols) && |symbols| == n && Pick(symbols, caps) == Alternating(n, 0.2, 0.2)
    ensures Moves(n, symbols, caps, 0.2, 0.0, 0.0, 0.2)
  {
    MovesFar(n, symbols, caps, 0.2, 0.0, -0.0242, 0.22375, 0.0, 0.2);
  }

  lemma SidesSwapBack(n: nat, symbols: seq<string>, caps: Weights)
    requires n == 10 && Distinct(symbols) && |symbols| == n && Pick(symbols, caps) == Alternating(n, 0.2, 0.2)
    ensures Moves(n, symbols, caps, 0.0, 0.2, 0.2, 0.0)
  {
    MovesFar(n, symbols, caps, 0.0, 0.2, 0.24175, -0.0422, 0.2, 0.0);
  }

  /** The descent from `a` and `b` ends at every second cap. */
  ghost predicate EndsAside(n: nat, symbols: seq<string>, caps: Weights, a: real, b: real, rounds: seq<nat>)
    requires n == |symbols|
  {
    var w, t := Alternating(n, a, b), Alternating(n, 0.19, 0.01);
    Descent(symbols, w, t, Swing(n), caps, 1.0, AVERSION, 0.1, rounds) == Alternating(n, 0.2, 0.0)
  }

  lemma MovesOn(n: nat, symbols: seq<string>, caps: Weights, a: real, b: real, c: real, d: real, rounds: seq<nat>)
    requires n == |symbols| && Moves(n, symbols, caps, a, b, c, d) && rounds != []
    requires EndsAside(n, symbols, caps, c, d, rounds[1..])
    ensures EndsAside(n, symbols, caps, a, b, rounds)
  {
  }

  lemma MovesAndBack(n: nat, symbols: seq<string>, caps: Weights, a: real, b: real, c: real, d: real, rounds: seq<nat>)
    requires n == |symbols| && Moves(n, symbols, caps, a, b, c, d) && Moves(n, symbols, caps, c, d, a, b)
    requires |rounds| >= 2 && EndsAside(n, symbols, caps, a, b, rounds[1..][1..])
    ensures EndsAside(n, symbols, caps, a, b, rounds)
  {
    MovesOn(n, symbols, caps, c, d, a, b, rounds[1..]);
    MovesOn(n, symbols, caps, a, b, c, d, rounds);
  }

  lemma {:induction false} SwingsOn(n: nat, symbols: seq<string>, caps: Weights, rounds: seq<nat>, pairs: nat)
    requires n == |symbols| && |rounds| == 2 * pairs
    requires Moves(n, symbols, caps, 0.2, 0.0, 0.0, 0.2) && Moves(n, symbols, caps, 0.0, 0.2, 0.2, 0.0)
    ensures EndsAside(n, symbols, caps, 0.2, 0.0, rounds)
    decreases pairs
  {
    if pairs == 0 {
      assert rounds == [];
    } else {
      SwingsOn(n, symbols, caps, rounds[1..][1..], pairs - 1);
      MovesAndBack(n, symbols, caps, 0.2, 0.0, 0.0, 0.2, rounds);
    }
  }

  lemma StaysBetween(n: nat, symbols: seq<string>, caps: Weights, rounds: seq<nat>)
    requires n == 10 && Distinct(symbols) && |symbols| == n && Pick(symbols, caps) == Alternating(n, 0.2, 0.2)
    requires |rounds| % 2 == 0
    ensures EndsAside(n, symbols, caps, 0.2, 0.0, rounds)
  {
    SidesSwap(n, symbols, caps);
    SidesSwapBack(n, symbols, caps);
    SwingsOn(n, symbols, caps, rounds, |rounds| / 2);
  }

  lemma SecondOnwards(n: nat, symbols: seq<string>, caps: Weights, rounds: seq<nat>)
    requires n == 10 && Distinct(symbols) && |symbols| == n && Pick(symbols, caps) == Alternating(n, 0.2, 0.2)
    requires |rounds| % 2 == 1
    ensures EndsAside(n, symbols, caps, 0.0, 0.2, rounds)
  {
    StaysBetween(n, symbols, caps, rounds[1..]);
    SidesSwapBack(n, symbols, caps);
    MovesOn(n, symbols, caps, 0.0, 0.2, 0.2, 0.0, rounds);
  }

  lemma SwingsOut(n: nat, symbols: seq<string>, caps: Weights, rounds: seq<nat>)
    requires n == 10 && Distinct(symbols) && |symbols| == n && Pick(symbols, caps) == Alternating(n, 0.2, 0.2)
    requires rounds != [] && |rounds| % 2 == 0
    ensures EndsAside(n, symbols, caps, 0.19, 0.01, rounds)
  {
    SecondOnwards(n, symbols, caps, rounds[1..]);
    MovesFar(n, symbols, caps, 0.19, 0.01, -0.0109025, 0.2104525, 0.0, 0.2);
    MovesOn(n, symbols, caps, 0.19, 0.01, 0.0, 0.2, rounds);
  }

  // ---- the objective -------------------------------------------------------------------

  lemma LengthOfTen(n: nat, a: real, b: real)
    requires n == 10
    ensures Dot(Alternating(n, a, b), Alternating(n, a, b)) == 5.0 * Sq(a) + 5.0 * Sq(b)
  {
    DotOfAlternating(n, a, b, a, b);
    TenHalved(n, Weighed(a, a));
    TenHalved(n, Weighed(b, b));
  }

  lemma DistanceOfTen(n: nat, a: real, b: real)
    requires n == 10
    ensures Dist2(Alternating(n, a, b), Alternating(n, 0.19, 0.01)) == 5.0 * Sq(a - 0.19) + 5.0 * Sq(b - 0.01)
  {
    var x, t := Alternating(n, a, b), Alternating(n, 0.19, 0.01);
    assert Squares(x, t) == Alternating(n, Sq(a - 0.19), Sq(b - 0.01));
    SumOfTen(n, Sq(a - 0.19), Sq(b - 0.01));
  }

  lemma ObjectiveOfTen(n: nat, a: real, b: real, length: real)
    requires n == 10 && length == 5.0 * Sq(a) + 5.0 * Sq(b)
    ensures Objective(Alternating(n, a, b), Alternating(n, 0.19, 0.01), Swing(n), AVERSION)
      == (5.0 * Sq(a - 0.19) + 5.0 * Sq(b - 0.01)) / 2.0 + AVERSION * (0.99 * Sq(5.0 * (a - b)) + 0.01 * length) / 2.0
  {
    SwingOfTen(n, a, b);
    LengthOfTen(n, a, b);
    DistanceOfTen(n, a, b);
    HedgedForm(n, 0.99, 0.01, Alternating(n, a, b), 5.0 * (a - b), length);
  }

  /** With ten symbols the whole descent can end further up than it started, although the same sum spread evenly lies
      far lower: the step is too long, the iterates swing between the caps, and the last round decides. The covariance
      is far from degenerate. */
  lemma TenSymbolsOvershoot(all: seq<string>)
    requires Distinct(all) && |all| == 10
    ensures var t, result, even := Alternating(10, 0.19, 0.01), Alternating(10, 0.2, 0.0), Alternating(10, 0.1, 0.1);
      var sigma, target, caps := Swing(10), Assign(all, t), Assign(all, Alternating(10, 0.2, 0.2));
      && Symmetric(sigma) && PassesGuard(sigma, 0.01, 10.0) && |Among(all, target.Keys)| == 10
      && GradientTarget(all, target, sigma, caps, 1.0, AVERSION) == Keep(all, result)
      && Objective(even, t, sigma, AVERSION) == 0.041625 && Objective(t, t, sigma, AVERSION) == 0.90417375
      && Objective(result, t, sigma, AVERSION) == 1.1165
  {
    var n := |all|;
    HedgedIsCovariance(n, 0.99, 0.01);
    HedgedPasses(n, 0.99, 0.01);
    DescentOfTen(n, all);
    ObjectivesOfTen(n);
  }

  lemma StepOfTen(n: nat)
    requires n == 10
    ensures StepSize(Swing(n), n, AVERSION) == 0.1
  {
    HedgedTop(n, 0.99, 0.01, n);
  }

  lemma DictOfTen(n: nat, all: seq<string>, x: seq<real>)
    requires Distinct(all) && |all| == n == |x|
    ensures Among(all, Assign(all, x).Keys) == all && Pick(all, Assign(all, x)) == x
  {
    Assigned(all, x);
    AmongAll(all, Assign(all, x).Keys);
    PickAssigned(all, x);
  }

  lemma DescentOfTen(n: nat, all: seq<string>)
    requires Distinct(all) && |all| == n == 10
    ensures var target, caps := Assign(all, Alternating(n, 0.19, 0.01)), Assign(all, Alternating(n, 0.2, 0.2));
      && Among(all, target.Keys) == all
      && GradientTarget(all, target, Swing(n), caps, 1.0, AVERSION) == Keep(all, Alternating(n, 0.2, 0.0))
  {
    var t, u := Alternating(n, 0.19, 0.01), Alternating(n, 0.2, 0.2);
    var target, caps := Assign(all, t), Assign(all, u);
    DictOfTen(n, all, t);
    assert Pick(all, caps) == u by { DictOfTen(n, all, u); }
    DescentOfDicts(n, all, target, caps, t);
  }

  lemma DescentOfDicts(n: nat, all: seq<string>, target: Weights, caps: Weights, t: seq<real>)
    requires n == 10 && Distinct(all) && |all| == n && t == Alternating(n, 0.19, 0.01)
    requires Among(all, target.Keys) == all && Pick(all, target) == t && Pick(all, caps) == Alternating(n, 0.2, 0.2)
    ensures GradientTarget(all, target, Swing(n), caps, 1.0, AVERSION) == Keep(all, Alternating(n, 0.2, 0.0))
  {
    SwingsOut(n, all, caps, Range(STEPS));
    TargetAside(n, all, target, caps, t);
  }

  lemma TargetAside(n: nat, all: seq<string>, target: Weights, caps: Weights, t: seq<real>)
    requires n == 10 && |all| == n && t == Alternating(n, 0.19, 0.01)
    requires Among(all, target.Keys) == all && Pick(all, target) == t
    requires EndsAside(n, all, caps, 0.19, 0.01, Range(STEPS))
    ensures GradientTarget(all, target, Swing(n), caps, 1.0, AVERSION) == Keep(all, Alternating(n, 0.2, 0.0))
  {
    StepOfTen(n);
  }

  lemma ObjectivesOfTen(n: nat)
    requires n == 10
    ensures var t, result, even := Alternating(n, 0.19, 0.01), Alternating(n, 0.2, 0.0), Alternating(n, 0.1, 0.1);
      && Objective(even, t, Swing(n), AVERSION) == 0.041625 && Objective(t, t, Swing(n), AVERSION) == 0.90417375
      && Objective(result, t, Swing(n), AVERSION) == 1.1165
  {
    ObjectiveOfTen(n, 0.1, 0.1, 0.1);
    ObjectiveOfTen(n, 0.19, 0.01, 0.181);
    ObjectiveOfTen(n, 0.2, 0.0, 0.2);
  }
}
