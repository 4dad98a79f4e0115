/** Turnover compression and the whole of `optimize_target_weights` (ez/live/optimizer_allocator.py). */
module TargetOptimizer {
  import opened Options
  import opened Reals
  import opened Simplex
  import opened Refill
  import opened Allocator
  import SortedKeys

  const TURNOVER_TOLERANCE := 0.000000001

  function Moves(a: seq<real>, b: seq<real>): (r: seq<real>)
    requires |a| == |b|
    ensures |r| == |a| && forall i | 0 <= i < |a| :: r[i] == Abs(b[i] - a[i])
  {
    seq(|a|, i requires 0 <= i < |a| => Abs(b[i] - a[i]))
  }

  /** Total weight moved between two dicts over the symbols of `all`. */
  function Turnover(all: seq<string>, current: Weights, target: Weights): real {
    Sum(Moves(Pick(all, current), Pick(all, target)))
  }

  /** Part of the way from `a` to `b`. */
  function Towards(a: seq<real>, b: seq<real>, scale: real): (r: seq<real>)
    requires |a| == |b|
    ensures |r| == |a| && forall i | 0 <= i < |a| :: r[i] == a[i] + scale * (b[i] - a[i])
  {
    seq(|a|, i requires 0 <= i < |a| => a[i] + scale * (b[i] - a[i]))
  }

  function CompressTurnover(all: seq<string>, current: Weights, target: Weights, cap: real): Weights {
    var requested := Turnover(all, current, target);
    if requested <= 0.0 then target
    else Keep(all, Towards(Pick(all, current), Pick(all, target), Min(1.0, cap / requested)))
  }

  // ---- convexity -----------------------------------------------------------------------

  lemma PartOf(scale: real, d: real, part: real)
    requires 0.0 <= scale <= 1.0 && part == scale * d
    ensures if d >= 0.0 then 0.0 <= part <= d else d <= part <= 0.0
  {
    if d >= 0.0 {
      MulOrder(0.0, d, scale);
      MulOrder(scale, 1.0, d);
    } else {
      MulOrder(d, 0.0, scale);
      MulOrder(d, 0.0, 1.0 - scale);
    }
  }

  lemma BetweenBounds(a: real, b: real, scale: real, low: real, high: real)
    requires 0.0 <= scale <= 1.0 && low <= a <= high && low <= b <= high
    ensures low <= a + scale * (b - a) <= high
  {
    PartOf(scale, b - a, scale * (b - a));
  }

  /** A point between two vectors of the box is in the box, and its sum is between theirs. */
  lemma {:induction false} TowardsInBox(a: seq<real>, b: seq<real>, scale: real, caps: seq<real>)
    requires |a| == |b| == |caps| && 0.0 <= scale <= 1.0 && InBox(a, caps) && InBox(b, caps)
    ensures InBox(Towards(a, b, scale), caps)
  {
    forall i | 0 <= i < |a| ensures 0.0 <= Towards(a, b, scale)[i] <= Max(0.0, caps[i]) {
      BetweenBounds(a[i], b[i], scale, 0.0, Max(0.0, caps[i]));
    }
  }

  lemma TowardsTail(a: seq<real>, b: seq<real>, scale: real)
    requires |a| == |b| > 0
    ensures Towards(a, b, scale)[1..] == Towards(a[1..], b[1..], scale)
  {
    forall i | 0 <= i < |a| - 1 ensures Towards(a, b, scale)[1..][i] == Towards(a[1..], b[1..], scale)[i] {
      assert Towards(a, b, scale)[i + 1] == a[i + 1] + scale * (b[i + 1] - a[i + 1]);
    }
  }

  lemma {:induction false} TowardsSum(a: seq<real>, b: seq<real>, scale: real, sumA: real, sumB: real)
    requires |a| == |b| && sumA == Sum(a) && sumB == Sum(b)
    ensures Sum(Towards(a, b, scale)) == sumA + scale * (sumB - sumA)
  {
    if a != [] {
      TowardsSum(a[1..], b[1..], scale, sumA - a[0], sumB - b[0]);
      TowardsTail(a, b, scale);
      Distribute(scale, b[0] - a[0], (sumB - b[0]) - (sumA - a[0]));
    }
  }

  lemma TowardsFits(a: seq<real>, b: seq<real>, scale: real, limit: real)
    requires |a| == |b| && 0.0 <= scale <= 1.0 && Sum(a) <= limit && Sum(b) <= limit
    ensures Sum(Towards(a, b, scale)) <= limit
  {
    var sumA, sumB := Sum(a), Sum(b);
    TowardsSum(a, b, scale, sumA, sumB);
    BetweenBounds(sumA, sumB, scale, Min(sumA, sumB), limit);
  }

  lemma ScaledMove(a: real, b: real, scale: real, y: real, move: real, bound: real)
    requires scale >= 0.0 && y == a + scale * (b - a) && y >= 0.0 && move == Abs(b - a) && bound == scale * move
    ensures Abs(TrimWeight(y) - a) <= bound + TINY
  {
    if b >= a {
      MulOrder(0.0, b - a, scale);
      assert y - a == bound;
    } else {
      MulOrder(b - a, 0.0, scale);
      assert y - a == -bound;
    }
  }

  lemma {:induction false} SumWithin(s: seq<real>, t: seq<real>, slack: real)
    requires |s| == |t| && forall i | 0 <= i < |s| :: s[i] <= t[i] + slack
    ensures Sum(s) <= Sum(t) + |s| as real * slack
  {
    if s != [] {
      SumWithin(s[1..], t[1..], slack);
      AddMul(|s| - 1, slack);
    }
  }

  lemma MoveAt(a: seq<real>, b: seq<real>, scale: real, i: nat)
    requires |a| == |b| && 0.0 <= scale && i < |a| && Towards(a, b, scale)[i] >= 0.0
    ensures Moves(a, Trimmed(Towards(a, b, scale)))[i] <= Scaled(scale, Moves(a, b))[i] + TINY
  {
    ScaledMove(a[i], b[i], scale, Towards(a, b, scale)[i], Moves(a, b)[i], Scaled(scale, Moves(a, b))[i]);
  }

  /** Compressing moves at most `scale` of the way, plus 1e-12 for each dropped weight. */
  lemma CompressedMoves(a: seq<real>, b: seq<real>, scale: real)
    requires |a| == |b| && 0.0 <= scale
    requires forall i | 0 <= i < |a| :: Towards(a, b, scale)[i] >= 0.0
    ensures Sum(Moves(a, Trimmed(Towards(a, b, scale)))) <= Sum(Scaled(scale, Moves(a, b))) + |a| as real * TINY
  {
    var y := Towards(a, b, scale);
    forall i | 0 <= i < |a| ensures Moves(a, Trimmed(y))[i] <= Scaled(scale, Moves(a, b))[i] + TINY {
      MoveAt(a, b, scale, i);
    }
    SumWithin(Moves(a, Trimmed(y)), Scaled(scale, Moves(a, b)), TINY);
  }

  /** Scaling the turnover down to its cap. */
  lemma ScaledTurnover(moves: seq<real>, cap: real, scale: real)
    requires Sum(moves) > 0.0 && scale == cap / Sum(moves)
    ensures Sum(Scaled(scale, moves)) == cap
  {
    SumOfScaled(scale, moves, Sum(moves));
  }

  /** The compressed dict from a feasible current to a feasible target: within the caps and the
      budget, and within the turnover cap up to the dropped weights. */
  lemma CompressionFits(all: seq<string>, current: Weights, target: Weights, caps: Weights, limit: real, cap: real)
    requires Distinct(all) && Feasible(all, current, caps, limit) && Feasible(all, target, caps, limit)
    requires 0.0 <= cap < Turnover(all, current, target)
    ensures var r := CompressTurnover(all, current, target, cap);
      && Feasible(all, r, caps, limit)
      && Turnover(all, current, r) <= cap + |all| as real * TINY
      && forall s | s in r :: r[s] > TINY
  {
    var a, b := Pick(all, current), Pick(all, target);
    var scale := cap / Sum(Moves(a, b));
    ScaleIsPart(cap, Sum(Moves(a, b)), scale);
    PickInBox(all, current, caps, limit);
    PickInBox(all, target, caps, limit);
    TowardsInBox(a, b, scale, Pick(all, caps));
    TowardsFits(a, b, scale, limit);
    var y := Towards(a, b, scale);
    KeepFacts(all, y);
    KeepAllIsFeasible(all, y, caps, limit);
    CompressedMoves(a, b, scale);
    ScaledTurnover(Moves(a, b), cap, scale);
  }

  lemma ScaleIsPart(cap: real, total: real, scale: real)
    requires 0.0 <= cap < total && scale == cap / total
    ensures 0.0 <= scale <= 1.0 && scale == Min(1.0, cap / total)
  {
  }

  lemma KeepAllIsFeasible(all: seq<string>, x: seq<real>, caps: Weights, limit: real)
    requires Distinct(all) && |x| == |all| && InBox(x, Pick(all, caps)) && Sum(x) <= limit
    ensures Feasible(all, Keep(all, x), caps, limit)
  {
    KeepFacts(all, x);
    TrimmingIsSmall(x, Pick(all, caps));
    var w := Keep(all, x);
    forall s | s in w ensures 0.0 < w[s] <= Max(0.0, At(caps, s)) {
      var i :| 0 <= i < |all| && all[i] == s;
      assert Pick(all, w)[i] == Trimmed(x)[i] == TrimWeight(x[i]);
    }
  }

  lemma KeptEntry(symbols: seq<string>, w: Weights, i: nat)
    requires Distinct(symbols) && i < |symbols| && symbols[i] in w && w[symbols[i]] > TINY
    ensures At(Keep(symbols, Pick(symbols, w)), symbols[i]) == w[symbols[i]]
  {
    var v := Pick(symbols, w);
    KeepFacts(symbols, v);
    assert Pick(symbols, Keep(symbols, v))[i] == Trimmed(v)[i] == TrimWeight(v[i]);
  }

  lemma KeptDict(all: seq<string>, w: Weights)
    requires Distinct(all) && forall s | s in w :: s in all && w[s] > TINY
    ensures var symbols := Among(all, w.Keys); Keep(symbols, Pick(symbols, w)) == w
  {
    var symbols := Among(all, w.Keys);
    AmongFacts(all, w.Keys);
    KeepFacts(symbols, Pick(symbols, w));
    var r := Keep(symbols, Pick(symbols, w));
    forall s | s in w ensures s in r && r[s] == w[s] {
      var i :| 0 <= i < |symbols| && symbols[i] == s;
      KeptEntry(symbols, w, i);
    }
    SameDict(r, w);
  }

  lemma SameDict(a: Weights, b: Weights)
    requires forall s | s in a :: s in b
    requires forall s | s in b :: s in a && a[s] == b[s]
    ensures a == b
  {
  }

  lemma NothingToClip(symbols: seq<string>, w: Weights, caps: Weights)
    requires forall s | s in w :: 0.0 < w[s] <= Max(0.0, At(caps, s))
    ensures Clipped(Pick(symbols, w), Pick(symbols, caps), 0.0) == Pick(symbols, w)
  {
  }

  /** Projecting a dict that already fits, with no weight too small to keep, changes nothing. */
  lemma FittingIsUnchanged(all: seq<string>, w: Weights, caps: Weights, budget: real)
    requires Distinct(all) && Feasible(all, w, caps, budget + TINY) && (forall s | s in w :: w[s] > TINY)
      && budget > 0.0
    ensures Projection(all, w, caps, budget) == w
  {
    NothingToClip(Among(all, w.Keys), w, caps);
    SumAmong(all, w.Keys, w);
    KeptDict(all, w);
  }

  // ---- the optimizer -------------------------------------------------------------------

  datatype Outcome =
    | ShapeError  // the risk matrix does not match the symbols that still have a target
    | Allocated(weights: Weights, infeasible: bool)

  function Positive(w: Weights): Weights { map s | s in w && w[s] > 0.0 :: w[s] }

  function AsTargets(all: seq<string>, requested: Weights): Weights { map s | s in all :: At(requested, s) }

  /** The budget after clamping it to what the caps can hold. */
  function ClampedBudget(all: seq<string>, caps: Weights, budget: real): (r: real)
    ensures budget >= 0.0 ==> r >= 0.0
  {
    var room := CapRoom(Pick(all, caps));
    if room + TURNOVER_TOLERANCE < budget then room else budget
  }

  function CapRoom(caps: seq<real>): (r: real)
    ensures r >= 0.0
  {
    if caps == [] then 0.0 else Max(0.0, caps[0]) + CapRoom(caps[1..])
  }

  /** The target handed to the gradient steps: blended with the risk budget when asked for. */
  function Shaped(all: seq<string>, want: Weights, feasible: Weights, caps: Weights, limit: real, strength: real,
                  scores: Weights): Weights
    requires forall s | s in all :: s in scores && scores[s] > 0.0
  {
    if strength > 0.0 then Blend(all, feasible, RiskTarget(all, want, limit, caps, scores), strength, caps, limit)
      else feasible
  }

  /** The risk matrix has a row for every symbol of `all`, the target possibly fewer. */
  predicate ShapesDiffer(all: seq<string>, shaped: Weights, aversion: real) {
    aversion > 0.0 && 0 < |Among(all, shaped.Keys)| && |Among(all, shaped.Keys)| != |all|
  }

  /** Shaping by risk; `None` when the matrix product cannot be formed. */
  function RiskShaped(all: seq<string>, shaped: Weights, caps: Weights, limit: real, sigma: seq<seq<real>>,
                      aversion: real): Option<Weights>
    requires Square(sigma, |all|)
  {
    if ShapesDiffer(all, shaped, aversion) then None
      else Some(GradientTarget(all, shaped, sigma, caps, limit, aversion))
  }

  /** The target before the turnover cap. */
  function Optimized(all: seq<string>, want: Weights, caps: Weights, limit: real, sigma: Option<seq<seq<real>>>,
                     aversion: real, strength: real, scores: Weights): Option<Weights>
    requires (sigma.Some? ==> Square(sigma.value, |all|)) && forall s | s in all :: s in scores && scores[s] > 0.0
  {
    var feasible := Projection(all, AsTargets(all, want), caps, limit);
    if sigma.Some? && (aversion > 0.0 || strength > 0.0) then
      RiskShaped(all, Shaped(all, want, feasible, caps, limit, strength, scores), caps, limit, sigma.value, aversion)
    else Some(feasible)
  }

  /** Compression towards the current weights, projected again; given up when the cap is still missed. */
  function Capped(all: seq<string>, have: Weights, optimized: Weights, caps: Weights, limit: real, cap: real): Outcome {
    var projected := Projection(all, CompressTurnover(all, have, optimized, cap), caps, limit);
    if Turnover(all, have, projected) > cap + TURNOVER_TOLERANCE then Allocated(optimized, true)
      else Allocated(projected, false)
  }

  function WithinTurnover(all: seq<string>, have: Weights, optimized: Weights, caps: Weights, limit: real,
                          maxTurnover: Option<real>): (r: Outcome)
    ensures r.Allocated?
  {
    if maxTurnover.None? || Turnover(all, have, optimized) <= maxTurnover.value + TINY then Allocated(optimized, false)
    else Capped(all, have, optimized, caps, limit, maxTurnover.value)
  }

  /** The allocation for positive weights and a budget already clamped. */
  function Allocation(all: seq<string>, want: Weights, have: Weights, caps: Weights, limit: real,
                      maxTurnover: Option<real>, sigma: Option<seq<seq<real>>>, aversion: real, strength: real,
                      scores: Weights): Outcome
    requires (sigma.Some? ==> Square(sigma.value, |all|)) && forall s | s in all :: s in scores && scores[s] > 0.0
  {
    match Optimized(all, want, caps, limit, sigma, aversion, strength, scores)
    case None => ShapeError
    case Some(w) => WithinTurnover(all, have, w, caps, limit, maxTurnover)
  }

  /** The symbols with a positive requested or current weight, in order. */
  ghost function AllSymbols(requested: Weights, current: Weights): (all: seq<string>)
    ensures Distinct(all) && forall s :: s in all <==> s in Positive(requested) || s in Positive(current)
  {
    var keys := Positive(requested).Keys + Positive(current).Keys;
    assert Distinct(SortedKeys.Keys(keys)) by {
      forall i, j | 0 <= i < j < |SortedKeys.Keys(keys)| ensures SortedKeys.Keys(keys)[i] != SortedKeys.Keys(keys)[j] {
        SortedKeys.KeysAreDistinct(keys, i, j);
      }
    }
    SortedKeys.Keys(keys)
  }

  /** The covariance aligned to these symbols, when there is a usable one, and their inverse volatilities. */
  ghost predicate Aligned(all: seq<string>, sigma: Option<seq<seq<real>>>, scores: Weights) {
    (sigma.Some? ==> Square(sigma.value, |all|)) && forall s | s in all :: s in scores && scores[s] > 0.0
  }

  /** What `optimize_target_weights` returns. */
  ghost function TargetWeights(requested: Weights, current: Weights, budget: real, maxPosition: Option<real>,
                               maxTurnover: Option<real>, sigma: Option<seq<seq<real>>>, aversion: real, strength: real,
                               scores: Weights): Outcome
    requires Aligned(AllSymbols(requested, current), sigma, scores)
  {
    var all := AllSymbols(requested, current);
    var caps := CapsFor(all, maxPosition, budget);
    if all == [] || budget <= 0.0 then Allocated(map[], false)
    else Allocation(all, Positive(requested), Positive(current), caps, ClampedBudget(all, caps, budget), maxTurnover,
                    sigma, aversion, strength, scores)
  }

  function CapsFor(all: seq<string>, maxPosition: Option<real>, budget: real): Weights {
    map s | s in all :: if maxPosition.Some? then maxPosition.value else budget
  }

  // ---- as the code has it --------------------------------------------------------------

  method ShapeByRisk(all: seq<string>, want: Weights, feasible: Weights, caps: Weights, limit: real,
                     sigma: seq<seq<real>>, aversion: real, strength: real, scores: Weights)
    returns (r: Option<Weights>)
    requires Square(sigma, |all|) && forall s | s in all :: s in scores && scores[s] > 0.0
    ensures r == RiskShaped(all, Shaped(all, want, feasible, caps, limit, strength, scores), caps, limit, sigma,
                            aversion)
  {
    var target := feasible;
    if strength > 0.0 {
      var risky := RiskBudgetTarget(all, want, limit, caps, scores);
      target := BlendTargets(all, target, risky, strength, caps, limit);
    }
    if ShapesDiffer(all, target, aversion) { return None; }
    var optimized := ProjectedGradient(all, target, sigma, caps, limit, aversion);
    r := Some(optimized);
  }

  method CapTurnover(all: seq<string>, have: Weights, optimized: Weights, caps: Weights, limit: real,
                     maxTurnover: Option<real>)
    returns (outcome: Outcome)
    ensures outcome == WithinTurnover(all, have, optimized, caps, limit, maxTurnover)
  {
    if maxTurnover.None? || Turnover(all, have, optimized) <= maxTurnover.value + TINY {
      return Allocated(optimized, false);
    }
    var cap := maxTurnover.value;
    var projected := ProjectCappedSimplex(all, CompressTurnover(all, have, optimized, cap), caps, limit);
    if Turnover(all, have, projected) > cap + TURNOVER_TOLERANCE { return Allocated(optimized, true); }
    return Allocated(projected, false);
  }

  /** `sigma` is the aligned covariance when there is a usable one. */
  method OptimizeTargetWeights(requested: Weights, current: Weights, budget: real,
                               maxPosition: Option<real>, maxTurnover: Option<real>,
                               sigma: Option<seq<seq<real>>>, aversion: real, strength: real, scores: Weights)
    returns (outcome: Outcome)
    requires Aligned(AllSymbols(requested, current), sigma, scores)
    ensures outcome == TargetWeights(requested, current, budget, maxPosition, maxTurnover, sigma, aversion, strength,
                                     scores)
  {
    var all := SortedKeys.SortKeys(Positive(requested).Keys + Positive(current).Keys);
    if all == [] || budget <= 0.0 { return Allocated(map[], false); }
    var caps := CapsFor(all, maxPosition, budget);
    var limit := ClampedBudget(all, caps, budget);
    var want, have := Positive(requested), Positive(current);
    var optimized := ProjectCappedSimplex(all, AsTargets(all, want), caps, limit);
    if sigma.Some? && (aversion > 0.0 || strength > 0.0) {
      var o := ShapeByRisk(all, want, optimized, caps, limit, sigma.value, aversion, strength, scores);
      if o.None? { return ShapeError; }
      optimized := o.value;
    }
    outcome := CapTurnover(all, have, optimized, caps, limit, maxTurnover);
  }

  // ---- what every allocation keeps -----------------------------------------------------

  lemma ShapedIsFeasible(all: seq<string>, want: Weights, feasible: Weights, caps: Weights, limit: real, strength: real,
                         scores: Weights)
    requires Distinct(all) && limit >= 0.0 && Feasible(all, feasible, caps, limit + TINY)
    requires forall s | s in all :: s in scores && scores[s] > 0.0
    ensures Feasible(all, Shaped(all, want, feasible, caps, limit, strength, scores), caps, limit + TINY)
  {
    BlendIsFeasible(all, feasible, RiskTarget(all, want, limit, caps, scores), strength, caps, limit);
  }

  lemma RiskShapedIsFeasible(all: seq<string>, shaped: Weights, caps: Weights, limit: real, sigma: seq<seq<real>>,
                             aversion: real)
    requires Distinct(all) && limit >= 0.0 && Feasible(all, shaped, caps, limit + TINY) && Square(sigma, |all|)
    ensures var r := RiskShaped(all, shaped, caps, limit, sigma, aversion);
      r.Some? ==> Feasible(all, r.value, caps, limit + TINY)
  {
    if !ShapesDiffer(all, shaped, aversion) { GradientIsFeasible(all, shaped, sigma, caps, limit, aversion); }
  }

  lemma OptimizedIsFeasible(all: seq<string>, want: Weights, caps: Weights, limit: real, sigma: Option<seq<seq<real>>>,
                            aversion: real, strength: real, scores: Weights)
    requires Distinct(all) && limit >= 0.0
    requires (sigma.Some? ==> Square(sigma.value, |all|)) && forall s | s in all :: s in scores && scores[s] > 0.0
    ensures var r := Optimized(all, want, caps, limit, sigma, aversion, strength, scores);
      r.Some? ==> Feasible(all, r.value, caps, limit + TINY)
  {
    var feasible := Projection(all, AsTargets(all, want), caps, limit);
    ProjectionIsFeasible(all, AsTargets(all, want), caps, limit);
    ShapedIsFeasible(all, want, feasible, caps, limit, strength, scores);
    if sigma.Some? {
      RiskShapedIsFeasible(all, Shaped(all, want, feasible, caps, limit, strength, scores), caps, limit, sigma.value,
                           aversion);
    }
  }

  lemma LeavingCostsTheWeights(all: seq<string>, have: Weights)
    requires forall s | s in have :: have[s] > 0.0
    ensures Turnover(all, have, map[]) == Sum(Pick(all, have))
  {
    assert Moves(Pick(all, have), Pick(all, map[])) == Pick(all, have);
  }

  /** The current weights fit the caps and the budget. */
  ghost predicate CurrentFits(all: seq<string>, have: Weights, caps: Weights, limit: real) {
    Feasible(all, have, caps, limit + TINY)
  }

  /** Nobody is in the way of the turnover cap: it is not negative, the current weights fit, and there are few
      enough symbols for the trimming tolerances to add up to no more than the cap's. */
  ghost predicate CapReachable(all: seq<string>, have: Weights, caps: Weights, limit: real, maxTurnover: Option<real>) {
    |all| <= 1000 && (maxTurnover.Some? ==> maxTurnover.value >= 0.0) && CurrentFits(all, have, caps, limit)
  }

  /** Between feasible weights the compressed target survives the last projection, so the cap is met. */
  lemma CompressionSurvives(all: seq<string>, have: Weights, optimized: Weights, caps: Weights, limit: real, cap: real)
    requires Distinct(all) && limit >= 0.0 && CurrentFits(all, have, caps, limit)
      && Feasible(all, optimized, caps, limit + TINY)
    requires 0.0 <= cap < Turnover(all, have, optimized) && |all| <= 1000
    ensures var projected := Projection(all, CompressTurnover(all, have, optimized, cap), caps, limit);
      Turnover(all, have, projected) <= cap + TURNOVER_TOLERANCE
  {
    if limit <= 0.0 {
      LeavingCostsTheWeights(all, have);
    } else {
      CompressionFits(all, have, optimized, caps, limit + TINY, cap);
      FittingIsUnchanged(all, CompressTurnover(all, have, optimized, cap), caps, limit);
    }
  }

  /** The outcome is feasible; it meets the cap or says that it does not and keeps the optimized target; and when
      the current weights fit, it meets the cap for up to a thousand symbols. */
  lemma TurnoverIsCapped(all: seq<string>, have: Weights, optimized: Weights, caps: Weights, limit: real,
                         maxTurnover: Option<real>)
    requires Distinct(all) && limit >= 0.0 && Feasible(all, optimized, caps, limit + TINY)
    ensures var r := WithinTurnover(all, have, optimized, caps, limit, maxTurnover);
      && r.Allocated? && Feasible(all, r.weights, caps, limit + TINY)
      && (r.infeasible ==> r.weights == optimized)
      && (!r.infeasible && maxTurnover.Some?
          ==> Turnover(all, have, r.weights) <= maxTurnover.value + TURNOVER_TOLERANCE)
      && (CapReachable(all, have, caps, limit, maxTurnover) ==> !r.infeasible)
  {
    if maxTurnover.Some? && Turnover(all, have, optimized) > maxTurnover.value + TINY {
      CappedFits(all, have, optimized, caps, limit, maxTurnover.value);
    }
  }

  lemma CappedFits(all: seq<string>, have: Weights, optimized: Weights, caps: Weights, limit: real, cap: real)
    requires Distinct(all) && limit >= 0.0 && Feasible(all, optimized, caps, limit + TINY)
      && Turnover(all, have, optimized) > cap
    ensures var r := Capped(all, have, optimized, caps, limit, cap);
      && r.Allocated? && Feasible(all, r.weights, caps, limit + TINY)
      && (if r.infeasible then r.weights == optimized else Turnover(all, have, r.weights) <= cap + TURNOVER_TOLERANCE)
      && (CapReachable(all, have, caps, limit, Some(cap)) ==> !r.infeasible)
  {
    var compressed := CompressTurnover(all, have, optimized, cap);
    assert Feasible(all, Projection(all, compressed, caps, limit), caps, limit + TINY) by {
      ProjectionIsFeasible(all, compressed, caps, limit);
    }
    if CapReachable(all, have, caps, limit, Some(cap)) {
      CompressionSurvives(all, have, optimized, caps, limit, cap);
    }
  }

  /** Whatever the covariance, every allocation is within the caps and the clamped budget, meets the turnover cap
      unless it says otherwise, and does meet it for up to a thousand symbols when the current weights fit. */
  lemma TargetsKeepTheLimits(requested: Weights, current: Weights, budget: real, maxPosition: Option<real>,
                             maxTurnover: Option<real>, sigma: Option<seq<seq<real>>>, aversion: real, strength: real,
                             scores: Weights)
    requires AllSymbols(requested, current) != [] && budget > 0.0
      && Aligned(AllSymbols(requested, current), sigma, scores)
    ensures var r := TargetWeights(requested, current, budget, maxPosition, maxTurnover, sigma, aversion, strength,
                                   scores);
      var all := AllSymbols(requested, current);
      var caps := CapsFor(all, maxPosition, budget);
      var limit := ClampedBudget(all, caps, budget);
      r.Allocated? ==>
        && Feasible(all, r.weights, caps, limit + TINY)
        && (!r.infeasible && maxTurnover.Some?
            ==> Turnover(all, Positive(current), r.weights) <= maxTurnover.value + TURNOVER_TOLERANCE)
        && (CapReachable(all, Positive(current), caps, limit, maxTurnover) ==> !r.infeasible)
  {
    var all := AllSymbols(requested, current);
    var caps := CapsFor(all, maxPosition, budget);
    AllocationKeepsTheLimits(all, Positive(requested), Positive(current), caps, ClampedBudget(all, caps, budget),
                             maxTurnover,
                             sigma, aversion, strength, scores);
  }

  lemma AllocationKeepsTheLimits(all: seq<string>, want: Weights, have: Weights, caps: Weights, limit: real,
                                 maxTurnover: Option<real>, sigma: Option<seq<seq<real>>>, aversion: real,
                                 strength: real, scores: Weights)
    requires Distinct(all) && limit >= 0.0
    requires (sigma.Some? ==> Square(sigma.value, |all|)) && forall s | s in all :: s in scores && scores[s] > 0.0
    ensures var r := Allocation(all, want, have, caps, limit, maxTurnover, sigma, aversion, strength, scores);
      r.Allocated? ==>
        && Feasible(all, r.weights, caps, limit + TINY)
        && (!r.infeasible && maxTurnover.Some?
            ==> Turnover(all, have, r.weights) <= maxTurnover.value + TURNOVER_TOLERANCE)
        && (CapReachable(all, have, caps, limit, maxTurnover) ==> !r.infeasible)
  {
    var o := Optimized(all, want, caps, limit, sigma, aversion, strength, scores);
    OptimizedIsFeasible(all, want, caps, limit, sigma, aversion, strength, scores);
    if o.Some? { TurnoverIsCapped(all, have, o.value, caps, limit, maxTurnover); }
  }

  // ---- when the call fails -------------------------------------------------------------

  /** The shapes differ when some but not all symbols have a target. */
  lemma ShapesDifferWhen(all: seq<string>, shaped: Weights, aversion: real)
    requires Distinct(all) && forall s | s in shaped :: s in all
    ensures ShapesDiffer(all, shaped, aversion) <==> aversion > 0.0 && shaped != map[] && exists s ::
      s in all && s !in shaped
  {
    AmongFacts(all, shaped.Keys);
    if shaped != map[] {
      NonemptyAmong(all, shaped);
    } else {
      assert shaped.Keys == {};
      NothingAmong(all);
    }
    if s :| s in all && s !in shaped { AmongMisses(all, shaped.Keys, s); } else { AmongAll(all, shaped.Keys); }
  }

  lemma OptimizedFails(all: seq<string>, want: Weights, caps: Weights, limit: real, sigma: Option<seq<seq<real>>>,
                       aversion: real, strength: real, scores: Weights)
    requires (sigma.Some? ==> Square(sigma.value, |all|)) && forall s | s in all :: s in scores && scores[s] > 0.0
    ensures Optimized(all, want, caps, limit, sigma, aversion, strength, scores).None?
      <==> sigma.Some? && ShapesDiffer(all, ShapedRequest(all, want, caps, limit, strength, scores), aversion)
  {
  }

  lemma AllocationFails(all: seq<string>, want: Weights, have: Weights, caps: Weights, limit: real,
                        maxTurnover: Option<real>, sigma: Option<seq<seq<real>>>, aversion: real, strength: real,
                        scores: Weights)
    requires (sigma.Some? ==> Square(sigma.value, |all|)) && forall s | s in all :: s in scores && scores[s] > 0.0
    ensures Allocation(all, want, have, caps, limit, maxTurnover, sigma, aversion, strength, scores).ShapeError?
      <==> Optimized(all, want, caps, limit, sigma, aversion, strength, scores).None?
  {
  }

  /** The call fails if and only if a risk aversion is applied to a covariance with a row for a symbol that has no
      weight in the shaped target. */
  lemma FailsExactly(requested: Weights, current: Weights, budget: real, maxPosition: Option<real>,
                     maxTurnover: Option<real>, sigma: Option<seq<seq<real>>>, aversion: real, strength: real,
                     scores: Weights, shaped: Weights)
    requires Aligned(AllSymbols(requested, current), sigma, scores)
    requires var all := AllSymbols(requested, current);
      var caps := CapsFor(all, maxPosition, budget);
      shaped == ShapedRequest(all, Positive(requested), caps, ClampedBudget(all, caps, budget), strength, scores)
    ensures TargetWeights(requested, current, budget, maxPosition, maxTurnover, sigma, aversion, strength,
                          scores).ShapeError?
      <==> budget > 0.0 && sigma.Some? && aversion > 0.0 && shaped != map[]
           && exists s :: s in AllSymbols(requested, current) && s !in shaped
  {
    var all := AllSymbols(requested, current);
    if all != [] && budget > 0.0 {
      var caps := CapsFor(all, maxPosition, budget);
      var outcome := TargetWeights(requested, current, budget, maxPosition, maxTurnover, sigma, aversion, strength,
                                   scores);
      assert outcome.ShapeError? <==> sigma.Some? && aversion > 0.0 && shaped != map[] && exists s ::
        s in all && s !in shaped by {
        AllocationFailsExactly(all, Positive(requested), Positive(current), caps, ClampedBudget(all, caps, budget),
                               maxTurnover,
                               sigma, aversion, strength, scores, shaped);
      }
    }
  }

  lemma AllocationFailsExactly(all: seq<string>, want: Weights, have: Weights, caps: Weights, limit: real,
                               maxTurnover: Option<real>, sigma: Option<seq<seq<real>>>, aversion: real, strength: real,
                               scores: Weights, shaped: Weights)
    requires Distinct(all) && limit >= 0.0
    requires (sigma.Some? ==> Square(sigma.value, |all|)) && forall s | s in all :: s in scores && scores[s] > 0.0
    requires shaped == ShapedRequest(all, want, caps, limit, strength, scores)
    ensures Allocation(all, want, have, caps, limit, maxTurnover, sigma, aversion, strength, scores).ShapeError?
      <==> sigma.Some? && aversion > 0.0 && shaped != map[] && exists s :: s in all && s !in shaped
  {
    assert forall s | s in shaped :: s in all by { ShapedRequestIsFeasible(all, want, caps, limit, strength, scores); }
    ShapesDifferWhen(all, shaped, aversion);
    OptimizedFails(all, want, caps, limit, sigma, aversion, strength, scores);
    AllocationFails(all, want, have, caps, limit, maxTurnover, sigma, aversion, strength, scores);
  }

  /** The projected request, shaped. */
  function ShapedRequest(all: seq<string>, want: Weights, caps: Weights, limit: real, strength: real,
                         scores: Weights): Weights
    requires forall s | s in all :: s in scores && scores[s] > 0.0
  {
    Shaped(all, want, Projection(all, AsTargets(all, want), caps, limit), caps, limit, strength, scores)
  }

  lemma ShapedRequestIsFeasible(all: seq<string>, want: Weights, caps: Weights, limit: real, strength: real,
                                scores: Weights)
    requires Distinct(all) && limit >= 0.0 && forall s | s in all :: s in scores && scores[s] > 0.0
    ensures Feasible(all, ShapedRequest(all, want, caps, limit, strength, scores), caps, limit + TINY)
  {
    ProjectionIsFeasible(all, AsTargets(all, want), caps, limit);
    ShapedIsFeasible(all, want, Projection(all, AsTargets(all, want), caps, limit), caps, limit, strength, scores);
  }

  /** Without a risk budget a held symbol that is no longer requested is enough, as long as anything is. */
  lemma HeldSymbolsFail(requested: Weights, current: Weights, budget: real, maxPosition: Option<real>,
                        maxTurnover: Option<real>, sigma: seq<seq<real>>, aversion: real, scores: Weights, s: string)
    requires Aligned(AllSymbols(requested, current), Some(sigma), scores)
    requires budget > 0.0 && aversion > 0.0 && s in Positive(current) && s !in Positive(requested)
    requires var all := AllSymbols(requested, current);
      var caps := CapsFor(all, maxPosition, budget);
      Projection(all, AsTargets(all, Positive(requested)), caps, ClampedBudget(all, caps, budget)) != map[]
    ensures TargetWeights(requested, current, budget, maxPosition, maxTurnover, Some(sigma), aversion, 0.0,
                          scores).ShapeError?
  {
    var all := AllSymbols(requested, current);
    var caps := CapsFor(all, maxPosition, budget);
    var shaped := ShapedRequest(all, Positive(requested), caps, ClampedBudget(all, caps, budget), 0.0, scores);
    FailsExactly(requested, current, budget, maxPosition, maxTurnover, Some(sigma), aversion, 0.0, scores, shaped);
    ProjectionIsFeasible(all, AsTargets(all, Positive(requested)), caps, ClampedBudget(all, caps, budget));
  }

  lemma NonemptyAmong(all: seq<string>, w: Weights)
    requires Distinct(all) && w != map[] && forall s | s in w :: s in all
    ensures Among(all, w.Keys) != []
  {
    AmongFacts(all, w.Keys);
    var s :| s in w;
    assert s in Among(all, w.Keys);
  }
}
