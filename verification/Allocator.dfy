/** The constrained allocator, `optimize_target_weights` in ez/live/optimizer_allocator.py.
    A Python dict of weights is a map; a symbol without an entry has weight 0. */
module Allocator {
  import opened Reals
  import opened Simplex
  import opened Refill

  type Weights = map<string, real>

  function At(w: Weights, s: string): real { if s in w then w[s] else 0.0 }

  ghost predicate Distinct(symbols: seq<string>) {
    forall i, j | 0 <= i < j < |symbols| :: symbols[i] != symbols[j]
  }

  /** The values at these symbols. */
  function Pick(symbols: seq<string>, w: Weights): (r: seq<real>)
    ensures |r| == |symbols| && forall i | 0 <= i < |symbols| :: r[i] == At(w, symbols[i])
  {
    if symbols == [] then [] else [At(w, symbols[0])] + Pick(symbols[1..], w)
  }

  /** The dict of the entries above 1e-12. */
  function Keep(symbols: seq<string>, x: seq<real>): Weights
    requires |symbols| == |x|
  {
    if symbols == [] then map[]
    else
      var rest := Keep(symbols[1..], x[1..]);
      if x[0] > TINY then rest[symbols[0] := x[0]] else rest
  }

  lemma {:induction false} KeepFacts(symbols: seq<string>, x: seq<real>)
    requires |symbols| == |x| && Distinct(symbols)
    ensures forall s | s in Keep(symbols, x) :: s in symbols && Keep(symbols, x)[s] > TINY
    ensures Pick(symbols, Keep(symbols, x)) == Trimmed(x)
  {
    if symbols != [] {
      assert forall i, j | 0 <= i < j < |symbols| - 1 :: symbols[1..][i] != symbols[1..][j];
      KeepFacts(symbols[1..], x[1..]);
      var w, rest := Keep(symbols, x), Keep(symbols[1..], x[1..]);
      assert symbols[0] !in symbols[1..];
      forall i | 0 <= i < |symbols| ensures At(w, symbols[i]) == TrimWeight(x[i]) {
        if i > 0 {
          assert symbols[i] == symbols[1..][i - 1];
          assert Pick(symbols[1..], rest)[i - 1] == Trimmed(x[1..])[i - 1];
        }
      }
    }
  }

  /** `symbols` in the order of `all`, restricted to `keys`: what sorting the keys gives. */
  function Among(all: seq<string>, keys: set<string>): seq<string> {
    if all == [] then [] else (if all[0] in keys then [all[0]] else []) + Among(all[1..], keys)
  }

  lemma {:induction false} AmongFacts(all: seq<string>, keys: set<string>)
    requires Distinct(all)
    ensures Distinct(Among(all, keys)) && |Among(all, keys)| <= |all|
    ensures forall s :: s in Among(all, keys) <==> s in all && s in keys
  {
    if all != [] {
      assert forall i, j | 0 <= i < j < |all| - 1 :: all[1..][i] != all[1..][j];
      AmongFacts(all[1..], keys);
      assert all[0] !in all[1..];
    }
  }

  lemma {:induction false} AmongAll(all: seq<string>, keys: set<string>)
    requires forall s | s in all :: s in keys
    ensures Among(all, keys) == all
  {
    if all != [] { AmongAll(all[1..], keys); }
  }

  /** Symbols without an entry do not change the sum. */
  lemma {:induction false} SumAmong(all: seq<string>, keys: set<string>, w: Weights)
    requires w.Keys <= keys
    ensures Sum(Pick(Among(all, keys), w)) == Sum(Pick(all, w))
  {
    if all != [] {
      SumAmong(all[1..], keys, w);
      var rest := Among(all[1..], keys);
      if all[0] in keys {
        assert Among(all, keys) == [all[0]] + rest;
        assert Pick(Among(all, keys), w)[1..] == Pick(rest, w);
      } else {
        assert Among(all, keys) == rest && At(w, all[0]) == 0.0;
      }
      assert Pick(all, w)[1..] == Pick(all[1..], w);
    }
  }

  // ---- feasibility ---------------------------------------------------------------------

  /** Weights within 0..cap for symbols of `all`, adding up to at most `limit`. */
  ghost predicate Feasible(all: seq<string>, w: Weights, caps: Weights, limit: real) {
    && (forall s | s in w :: s in all && 0.0 < w[s] <= Max(0.0, At(caps, s)))
    && Sum(Pick(all, w)) <= limit
  }

  /** A trimmed vector in the box is a feasible dict. */
  lemma KeptIsFeasible(all: seq<string>, keys: set<string>, x: seq<real>, caps: Weights, limit: real)
    requires Distinct(all) && |x| == |Among(all, keys)| && InBox(x, Pick(Among(all, keys), caps)) && Sum(x) <= limit
    ensures var w := Keep(Among(all, keys), x);
      && Feasible(all, w, caps, limit) && w.Keys <= keys
      && Sum(Pick(all, w)) >= Sum(x) - |x| as real * TINY
  {
    var symbols := Among(all, keys);
    AmongFacts(all, keys);
    KeepFacts(symbols, x);
    var w := Keep(symbols, x);
    TrimmingIsSmall(x, Pick(symbols, caps));
    SumAmong(all, keys, w);
    forall s | s in w ensures 0.0 < w[s] <= Max(0.0, At(caps, s)) {
      var i :| 0 <= i < |symbols| && symbols[i] == s;
      assert Pick(symbols, w)[i] == Trimmed(x)[i] == TrimWeight(x[i]);
    }
  }

  // ---- projection ----------------------------------------------------------------------

  /** The threshold the values are lowered by: none when clipping them already fits the budget. */
  function Lowering(values: seq<real>, caps: seq<real>, budget: real): real
    requires |values| == |caps| > 0
  {
    if Total(values, caps, 0.0) <= budget + TINY then 0.0 else Threshold(values, caps, budget)
  }

  /** The values at the symbols that have one, lowered and clipped, before small weights are dropped. */
  function Untrimmed(all: seq<string>, values: Weights, caps: Weights, budget: real): (r: seq<real>)
    ensures |r| == |Among(all, values.Keys)|
  {
    var symbols := Among(all, values.Keys);
    if symbols == [] then []
    else Clipped(Pick(symbols, values), Pick(symbols, caps),
                 Lowering(Pick(symbols, values), Pick(symbols, caps), budget))
  }

  /** What `_project_capped_simplex` returns. */
  function Projection(all: seq<string>, values: Weights, caps: Weights, budget: real): Weights {
    if budget <= 0.0 then map[] else Keep(Among(all, values.Keys), Untrimmed(all, values, caps, budget))
  }

  method ProjectCappedSimplex(all: seq<string>, values: Weights, caps: Weights, budget: real) returns (r: Weights)
    ensures r == Projection(all, values, caps, budget)
  {
    var symbols := Among(all, values.Keys);
    if symbols == [] || budget <= 0.0 { return map[]; }
    var x := ClipToBudget(Pick(symbols, values), Pick(symbols, caps), budget);
    r := Keep(symbols, x);
  }

  method ClipToBudget(values: seq<real>, caps: seq<real>, budget: real) returns (x: seq<real>)
    requires |values| == |caps| > 0
    ensures x == Clipped(values, caps, Lowering(values, caps, budget))
  {
    x := Clipped(values, caps, 0.0);
    if Sum(x) > budget + TINY {
      var upper := Bisect(values, caps, budget);
      x := Clipped(values, caps, upper);
    }
  }

  /** What the lowering achieves on vectors. */
  lemma LoweringFits(values: seq<real>, caps: seq<real>, budget: real)
    requires |values| == |caps| > 0 && budget > 0.0
    ensures var t := Lowering(values, caps, budget);
      && t >= 0.0 && Total(values, caps, t) <= budget + TINY
      && (Total(values, caps, 0.0) > budget + TINY ==>
            t > 0.0 && budget - Slack(|values|, StartWidth(values, caps)) < Total(values, caps, t) <= budget)
  {
    if Total(values, caps, 0.0) > budget + TINY { ThresholdFacts(values, caps, budget); }
  }

  /** The clipped vector is in the box; its sum exceeds the budget by the tolerance at most, and not at all when
      the values had to be lowered. */
  lemma UntrimmedFits(all: seq<string>, values: Weights, caps: Weights, budget: real)
    requires budget > 0.0
    ensures var symbols := Among(all, values.Keys);
      var x := Untrimmed(all, values, caps, budget);
      && InBox(x, Pick(symbols, caps)) && Sum(x) <= budget + TINY
      && (Total(Pick(symbols, values), Pick(symbols, caps), 0.0) > budget + TINY ==> Sum(x) <= budget)
      && forall i | 0 <= i < |symbols| :: x[i] > TINY ==> At(values, symbols[i]) > TINY
  {
    var symbols := Among(all, values.Keys);
    if symbols != [] {
      var v, u := Pick(symbols, values), Pick(symbols, caps);
      LoweringFits(v, u, budget);
      ClippedFits(v, u, Lowering(v, u, budget));
    }
  }

  lemma ClippedFits(values: seq<real>, caps: seq<real>, t: real)
    requires |values| == |caps| && t >= 0.0
    ensures InBox(Clipped(values, caps, t), caps)
    ensures forall i | 0 <= i < |values| :: Clipped(values, caps, t)[i] > TINY ==> values[i] > TINY
  {
  }

  /** Every projection is feasible, whatever the values. */
  lemma ProjectionIsFeasible(all: seq<string>, values: Weights, caps: Weights, budget: real)
    requires Distinct(all) && budget >= 0.0
    ensures var r := Projection(all, values, caps, budget);
      Feasible(all, r, caps, budget + TINY) && r.Keys <= values.Keys && forall s | s in r :: At(values, s) > TINY
  {
    if budget <= 0.0 {
      EmptyIsFeasible(all, caps, budget + TINY);
    } else {
      UntrimmedFits(all, values, caps, budget);
      KeptIsFeasible(all, values.Keys, Untrimmed(all, values, caps, budget), caps, budget + TINY);
      forall s | s in Projection(all, values, caps, budget)
        ensures At(values, s) > TINY
      {
        KeptWasWanted(all, values, caps, budget, s);
      }
    }
  }

  /** When clipping alone exceeds the budget, nearly all of the budget is used: up to the bisection's
      last interval and the dropped weights. */
  lemma ProjectionUsesBudget(all: seq<string>, values: Weights, caps: Weights, budget: real)
    requires Distinct(all) && budget > 0.0 && Among(all, values.Keys) != []
    requires var symbols := Among(all, values.Keys);
      Total(Pick(symbols, values), Pick(symbols, caps), 0.0) > budget + TINY
    ensures var symbols := Among(all, values.Keys);
      var width := StartWidth(Pick(symbols, values), Pick(symbols, caps));
      budget - Slack(|symbols|, width) - |symbols| as real * TINY
        < Sum(Pick(all, Projection(all, values, caps, budget))) <= budget
  {
    var symbols := Among(all, values.Keys);
    UntrimmedFits(all, values, caps, budget);
    LoweringFits(Pick(symbols, values), Pick(symbols, caps), budget);
    KeptIsFeasible(all, values.Keys, Untrimmed(all, values, caps, budget), caps, budget);
  }

  /** Before small weights are dropped, the result is the nearest vector to the values among all in the box
      with no larger sum; when the clipped values fit the budget, among all in the box. */
  lemma ProjectionIsNearest(all: seq<string>, values: Weights, caps: Weights, budget: real, limit: real)
    requires budget > 0.0
    requires var symbols := Among(all, values.Keys);
      var sum := Sum(Untrimmed(all, values, caps, budget));
      if Total(Pick(symbols, values), Pick(symbols, caps), 0.0) > budget + TINY then limit == sum else limit >= sum
    ensures var symbols := Among(all, values.Keys);
      IsProjection(Untrimmed(all, values, caps, budget), Pick(symbols, values), Pick(symbols, caps), limit)
  {
    var symbols := Among(all, values.Keys);
    var v, u := Pick(symbols, values), Pick(symbols, caps);
    if symbols != [] {
      LoweringFits(v, u, budget);
      ClippedIsProjection(v, u, Lowering(v, u, budget), limit);
    } else {
      ClippedIsProjection(v, u, 0.0, limit);
    }
  }

  lemma EmptyIsFeasible(all: seq<string>, caps: Weights, limit: real)
    requires limit >= 0.0
    ensures Feasible(all, map[], caps, limit)
  {
    SumAmong(all, {}, map[]);
    NothingAmong(all);
  }

  lemma {:induction false} NothingAmong(all: seq<string>)
    ensures Among(all, {}) == []
  {
    if all != [] { NothingAmong(all[1..]); }
  }

  /** Only symbols with a value above 1e-12 come out of a projection. */
  lemma KeptWasWanted(all: seq<string>, values: Weights, caps: Weights, budget: real, s: string)
    requires Distinct(all) && budget > 0.0 && s in Projection(all, values, caps, budget)
    ensures At(values, s) > TINY
  {
    var symbols := Among(all, values.Keys);
    var x := Untrimmed(all, values, caps, budget);
    assert Distinct(symbols) by { AmongFacts(all, values.Keys); }
    var i := KeptAt(symbols, x, s);
    UntrimmedFits(all, values, caps, budget);
  }

  /** A kept symbol's place in the list. */
  lemma KeptAt(symbols: seq<string>, x: seq<real>, s: string) returns (i: nat)
    requires |symbols| == |x| && Distinct(symbols) && s in Keep(symbols, x)
    ensures i < |symbols| && symbols[i] == s && x[i] > TINY
  {
    KeepFacts(symbols, x);
    i :| 0 <= i < |symbols| && symbols[i] == s;
    assert Pick(symbols, Keep(symbols, x))[i] == Trimmed(x)[i] == TrimWeight(x[i]);
  }

  /** Leaving a symbol out leaves a shorter list. */
  lemma {:induction false} AmongMisses(all: seq<string>, keys: set<string>, s: string)
    requires s in all && s !in keys
    ensures |Among(all, keys)| < |all|
  {
    if all[0] == s { AmongIsShorter(all[1..], keys); } else { AmongMisses(all[1..], keys, s); }
  }

  lemma {:induction false} AmongIsShorter(all: seq<string>, keys: set<string>)
    ensures |Among(all, keys)| <= |all|
  {
    if all != [] { AmongIsShorter(all[1..], keys); }
  }

  // ---- blending and risk budgets -------------------------------------------------------

  function Mixed(all: seq<string>, base: Weights, alternative: Weights, strength: real): Weights {
    map s | s in all && (s in base || s in alternative) ::
      (1.0 - strength) * At(base, s) + strength * At(alternative, s)
  }

  function Blend(all: seq<string>, base: Weights, alternative: Weights, strength: real, caps: Weights,
                 budget: real): Weights
  {
    if strength <= 0.0 || alternative == map[] then base
    else Projection(all, Mixed(all, base, alternative, strength), caps, budget)
  }

  method BlendTargets(all: seq<string>, base: Weights, alternative: Weights, strength: real, caps: Weights,
                      budget: real)
    returns (r: Weights)
    ensures r == Blend(all, base, alternative, strength, caps, budget)
  {
    if strength <= 0.0 || alternative == map[] { return base; }
    r := ProjectCappedSimplex(all, Mixed(all, base, alternative, strength), caps, budget);
  }

  lemma BlendIsFeasible(all: seq<string>, base: Weights, alternative: Weights, strength: real, caps: Weights,
                        budget: real)
    requires Distinct(all) && budget >= 0.0 && Feasible(all, base, caps, budget + TINY)
    ensures Feasible(all, Blend(all, base, alternative, strength, caps, budget), caps, budget + TINY)
  {
    ProjectionIsFeasible(all, Mixed(all, base, alternative, strength), caps, budget);
  }

  function Share(budget: real, score: real, total: real): real
    requires total > 0.0
  {
    budget * score / total
  }

  /** The budget shared out by the scores of the requested symbols. */
  function ByScore(all: seq<string>, requested: Weights, budget: real, scores: Weights): Weights
    requires forall s | s in all :: s in scores && scores[s] > 0.0
  {
    var symbols := Among(all, requested.Keys);
    AmongIsPart(all, requested.Keys);
    PositiveTotal(symbols, scores);
    var total := Sum(Pick(symbols, scores));
    map s | s in symbols :: Share(budget, scores[s], total)
  }

  lemma {:induction false} AmongIsPart(all: seq<string>, keys: set<string>)
    ensures forall s :: s in Among(all, keys) <==> s in all && s in keys
  {
    if all != [] { AmongIsPart(all[1..], keys); }
  }

  function RiskTarget(all: seq<string>, requested: Weights, budget: real, caps: Weights, scores: Weights): Weights
    requires forall s | s in all :: s in scores && scores[s] > 0.0
  {
    if Among(all, requested.Keys) == [] then map[]
    else Projection(all, ByScore(all, requested, budget, scores), caps, budget)
  }

  /** `scores` are the inverse volatilities, positive by construction. */
  method RiskBudgetTarget(all: seq<string>, requested: Weights, budget: real, caps: Weights, scores: Weights)
    returns (r: Weights)
    requires forall s | s in all :: s in scores && scores[s] > 0.0
    ensures r == RiskTarget(all, requested, budget, caps, scores)
  {
    var symbols := Among(all, requested.Keys);
    if symbols == [] { return map[]; }
    r := ProjectCappedSimplex(all, ByScore(all, requested, budget, scores), caps, budget);
  }

  lemma {:induction false} PositiveTotal(symbols: seq<string>, scores: Weights)
    requires forall s | s in symbols :: s in scores && scores[s] > 0.0
    ensures Sum(Pick(symbols, scores)) >= 0.0 && (symbols != [] ==> Sum(Pick(symbols, scores)) > 0.0)
  {
    if symbols != [] {
      PositiveTotal(symbols[1..], scores);
      assert Pick(symbols, scores)[1..] == Pick(symbols[1..], scores);
      assert symbols[0] in symbols;
    }
  }

  // ---- projected gradient --------------------------------------------------------------

  const STEPS := 120

  function Dot(a: seq<real>, b: seq<real>): real
    requires |a| == |b|
  {
    if a == [] then 0.0 else a[0] * b[0] + Dot(a[1..], b[1..])
  }

  ghost predicate Square(sigma: seq<seq<real>>, n: nat) {
    |sigma| == n && forall i | 0 <= i < n :: |sigma[i]| == n
  }

  /** One gradient step from `w` towards `t` under risk `sigma`, before projection. */
  function Candidate(w: seq<real>, t: seq<real>, sigma: seq<seq<real>>, aversion: real, step: real): seq<real>
    requires |w| == |t| && Square(sigma, |w|)
  {
    seq(|w|, i requires 0 <= i < |w| => w[i] - step * ((w[i] - t[i]) + aversion * Dot(sigma[i], w)))
  }

  function Assign(symbols: seq<string>, x: seq<real>): Weights
    requires |symbols| == |x|
  {
    if symbols == [] then map[] else Assign(symbols[1..], x[1..])[symbols[0] := x[0]]
  }

  function MaxDiagonal(sigma: seq<seq<real>>, n: nat): real
    requires 0 < n <= |sigma| && forall i | 0 <= i < n :: n <= |sigma[i]|
  {
    if n == 1 then sigma[0][0] else Max(MaxDiagonal(sigma, n - 1), sigma[n - 1][n - 1])
  }

  predicate Settled(a: seq<real>, b: seq<real>)
    requires |a| == |b|
  {
    forall i | 0 <= i < |a| :: -0.000000001 <= a[i] - b[i] <= 0.000000001
  }

  function Priorities(t: seq<real>): (r: seq<real>)
    ensures |r| == |t|
  {
    seq(|t|, i requires 0 <= i < |t| => Max(t[i], LEAST_PRIORITY))
  }

  /** The next iterate: a gradient step, projected and filled up. */
  function Descended(symbols: seq<string>, w: seq<real>, t: seq<real>, sigma: seq<seq<real>>, caps: Weights,
                     budget: real, aversion: real, step: real): (r: seq<real>)
    requires |w| == |t| == |symbols| && Square(sigma, |w|)
    ensures |r| == |w|
  {
    var projected := Projection(symbols, Assign(symbols, Candidate(w, t, sigma, aversion, step)), caps, budget);
    FilledUp(Pick(symbols, projected), Pick(symbols, caps), Priorities(t), budget)
  }

  /** The iterate the descent ends at: it settles, or there are no more rounds. */
  function Descent(symbols: seq<string>, w: seq<real>, t: seq<real>, sigma: seq<seq<real>>, caps: Weights, budget: real,
                   aversion: real, step: real, rounds: seq<nat>): (r: seq<real>)
    requires |w| == |t| == |symbols| && Square(sigma, |w|)
    ensures |r| == |w|
    decreases |rounds|
  {
    if rounds == [] then w
    else
      var next := Descended(symbols, w, t, sigma, caps, budget, aversion, step);
      if Settled(next, w) then next else Descent(symbols, next, t, sigma, caps, budget, aversion, step, rounds[1..])
  }

  function StepFor(top: real, aversion: real): real { 1.0 / Max(1.0, 1.0 + aversion * top * 4.0) }

  function StepSize(sigma: seq<seq<real>>, n: nat, aversion: real): real
    requires n > 0 && Square(sigma, n)
  {
    StepFor(MaxDiagonal(sigma, n), aversion)
  }

  /** The descent starts at its own target. */
  function GradientTarget(all: seq<string>, target: Weights, sigma: seq<seq<real>>, caps: Weights, budget: real,
                          aversion: real): Weights
    requires aversion > 0.0 && Among(all, target.Keys) != [] ==> Square(sigma, |Among(all, target.Keys)|)
  {
    var symbols := Among(all, target.Keys);
    if aversion <= 0.0 then target
    else if symbols == [] then map[]
    else
      var t := Pick(symbols, target);
      Keep(symbols, Descent(symbols, t, t, sigma, caps, budget, aversion, StepSize(sigma, |symbols|, aversion),
                            Range(STEPS)))
  }

  lemma DescendedFits(symbols: seq<string>, w: seq<real>, t: seq<real>, sigma: seq<seq<real>>, caps: Weights,
                      budget: real, aversion: real, step: real)
    requires Distinct(symbols) && |w| == |t| == |symbols| && Square(sigma, |w|) && budget >= 0.0
    ensures Fits(Descended(symbols, w, t, sigma, caps, budget, aversion, step), symbols, caps, budget)
  {
    var values := Assign(symbols, Candidate(w, t, sigma, aversion, step));
    ProjectionIsFeasible(symbols, values, caps, budget);
    var p := Pick(symbols, Projection(symbols, values, caps, budget));
    PickInBox(symbols, Projection(symbols, values, caps, budget), caps, budget + TINY);
    FilledUpFacts(p, Pick(symbols, caps), Priorities(t), budget);
  }

  ghost predicate Fits(w: seq<real>, symbols: seq<string>, caps: Weights, budget: real) {
    |w| == |symbols| && InBox(w, Pick(symbols, caps)) && Sum(w) <= budget + TINY
  }

  /** Whatever the matrix, every iterate of the descent is feasible. */
  lemma {:induction false} DescentFits(symbols: seq<string>, w: seq<real>, t: seq<real>, sigma: seq<seq<real>>,
                                       caps: Weights, budget: real, aversion: real, step: real, rounds: seq<nat>)
    requires Distinct(symbols) && |w| == |t| == |symbols| && Square(sigma, |w|) && budget >= 0.0
      && Fits(w, symbols, caps, budget)
    ensures Fits(Descent(symbols, w, t, sigma, caps, budget, aversion, step, rounds), symbols, caps, budget)
    decreases |rounds|
  {
    if rounds != [] {
      DescendedFits(symbols, w, t, sigma, caps, budget, aversion, step);
      var next := Descended(symbols, w, t, sigma, caps, budget, aversion, step);
      DescentFits(symbols, next, t, sigma, caps, budget, aversion, step, rounds[1..]);
    }
  }

  lemma GradientIsFeasible(all: seq<string>, target: Weights, sigma: seq<seq<real>>, caps: Weights, budget: real,
                           aversion: real)
    requires Distinct(all) && budget >= 0.0 && Feasible(all, target, caps, budget + TINY)
    requires aversion > 0.0 && Among(all, target.Keys) != [] ==> Square(sigma, |Among(all, target.Keys)|)
    ensures Feasible(all, GradientTarget(all, target, sigma, caps, budget, aversion), caps, budget + TINY)
  {
    var symbols := Among(all, target.Keys);
    if aversion > 0.0 && symbols == [] { EmptyIsFeasible(all, caps, budget + TINY); }
    if aversion > 0.0 && symbols != [] {
      DescentIsFeasible(all, target, sigma, caps, budget, aversion, StepSize(sigma, |symbols|, aversion));
    }
  }

  lemma DescentIsFeasible(all: seq<string>, target: Weights, sigma: seq<seq<real>>, caps: Weights, budget: real,
                          aversion: real, step: real)
    requires Distinct(all) && budget >= 0.0 && Feasible(all, target, caps, budget + TINY)
    requires Square(sigma, |Among(all, target.Keys)|)
    ensures var symbols := Among(all, target.Keys);
      var t := Pick(symbols, target);
      Feasible(all, Keep(symbols, Descent(symbols, t, t, sigma, caps, budget, aversion, step, Range(STEPS))), caps,
               budget + TINY)
  {
    var symbols := Among(all, target.Keys);
    var t := Pick(symbols, target);
    assert Distinct(symbols) by { AmongFacts(all, target.Keys); }
    StartInBox(all, target, caps, budget + TINY);
    DescentFits(symbols, t, t, sigma, caps, budget, aversion, step, Range(STEPS));
    KeptIsFeasible(all, target.Keys, Descent(symbols, t, t, sigma, caps, budget, aversion, step, Range(STEPS)), caps,
                   budget + TINY);
  }

  method ProjectedGradient(all: seq<string>, target: Weights, sigma: seq<seq<real>>, caps: Weights, budget: real,
                           aversion: real)
    returns (r: Weights)
    requires aversion > 0.0 && Among(all, target.Keys) != [] ==> Square(sigma, |Among(all, target.Keys)|)
    ensures r == GradientTarget(all, target, sigma, caps, budget, aversion)
  {
    if aversion <= 0.0 { return target; }
    var symbols := Among(all, target.Keys);
    if symbols == [] { return map[]; }
    var w := DescendFrom(symbols, Pick(symbols, target), sigma, caps, budget, aversion,
                         StepSize(sigma, |symbols|, aversion));
    r := Keep(symbols, w);
  }

  lemma NextRound(symbols: seq<string>, w: seq<real>, t: seq<real>, sigma: seq<seq<real>>, caps: Weights, budget: real,
                  aversion: real, step: real, rounds: seq<nat>, k: nat)
    requires |w| == |t| == |symbols| && Square(sigma, |w|) && k < |rounds|
    ensures var next := Descended(symbols, w, t, sigma, caps, budget, aversion, step);
      Descent(symbols, w, t, sigma, caps, budget, aversion, step, rounds[k..])
        == if Settled(next, w) then next
           else Descent(symbols, next, t, sigma, caps, budget, aversion, step, rounds[k + 1..])
  {
    assert rounds[k..][1..] == rounds[k + 1..];
  }

  method DescendFrom(symbols: seq<string>, t: seq<real>, sigma: seq<seq<real>>, caps: Weights, budget: real,
                     aversion: real, step: real)
    returns (w: seq<real>)
    requires |t| == |symbols| && Square(sigma, |t|)
    ensures w == Descent(symbols, t, t, sigma, caps, budget, aversion, step, Range(STEPS))
  {
    w := t;
    ghost var rounds, whole := Range(STEPS), Descent(symbols, t, t, sigma, caps, budget, aversion, step, Range(STEPS));
    assert rounds[0..] == rounds;
    for k := 0 to STEPS
      invariant |w| == |symbols|
      invariant Descent(symbols, w, t, sigma, caps, budget, aversion, step, rounds[k..]) == whole
    {
      var projected := ProjectCappedSimplex(symbols, Assign(symbols, Candidate(w, t, sigma, aversion, step)), caps,
                                            budget);
      var next := FillToBudget(Pick(symbols, projected), Pick(symbols, caps), Priorities(t), budget);
      NextRound(symbols, w, t, sigma, caps, budget, aversion, step, rounds, k);
      var done := Settled(next, w);
      w := next;
      if done { break; }
    }
  }

  lemma PickInBox(symbols: seq<string>, w: Weights, caps: Weights, limit: real)
    requires Feasible(symbols, w, caps, limit)
    ensures InBox(Pick(symbols, w), Pick(symbols, caps)) && Sum(Pick(symbols, w)) <= limit
  {
  }

  lemma StartInBox(all: seq<string>, w: Weights, caps: Weights, limit: real)
    requires Distinct(all) && Feasible(all, w, caps, limit)
    ensures var symbols := Among(all, w.Keys);
      InBox(Pick(symbols, w), Pick(symbols, caps)) && Sum(Pick(symbols, w)) <= limit
  {
    AmongFacts(all, w.Keys);
    SumAmong(all, w.Keys, w);
  }
}
