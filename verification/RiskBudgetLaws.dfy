/** The inverse-volatility target of the allocator (ez/live/optimizer_allocator.py). */
module RiskBudgetLaws {
  import opened Reals
  import opened Simplex
  import opened Refill
  import opened Allocator
  import opened TargetOptimizer

  lemma ShareOfSum(limit: real, a: real, b: real, total: real)
    requires total > 0.0
    ensures Share(limit, a + b, total) == Share(limit, a, total) + Share(limit, b, total)
    ensures Share(limit, 0.0, total) == 0.0
  {
    var rate := limit / total;
    ShareIsRate(limit, a, total, rate);
    ShareIsRate(limit, b, total, rate);
    ShareIsRate(limit, a + b, total, rate);
    ShareIsRate(limit, 0.0, total, rate);
    Distribute(rate, a, b);
  }

  lemma {:induction false} SharesOf(symbols: seq<string>, w: Weights, limit: real, scores: Weights, total: real)
    requires total > 0.0 && forall s | s in symbols :: s in scores && s in w && w[s] == Share(limit, scores[s], total)
    ensures Sum(Pick(symbols, w)) == Share(limit, Sum(Pick(symbols, scores)), total)
  {
    if symbols == [] {
      ShareOfSum(limit, 0.0, 0.0, total);
    } else {
      var s, rest := symbols[0], symbols[1..];
      assert s in symbols;
      SharesOf(rest, w, limit, scores, total);
      ShareOfSum(limit, scores[s], Sum(Pick(rest, scores)), total);
      assert Pick(symbols, w)[1..] == Pick(rest, w) && Pick(symbols, scores)[1..] == Pick(rest, scores);
    }
  }

  lemma WholeShare(limit: real, total: real)
    requires total > 0.0
    ensures Share(limit, total, total) == limit
  {
  }

  /** The inverse-volatility shares use up the whole budget. */
  lemma SharesUseTheBudget(all: seq<string>, want: Weights, limit: real, scores: Weights)
    requires Distinct(all) && Among(all, want.Keys) != [] && forall s | s in all :: s in scores && scores[s] > 0.0
    ensures Sum(Pick(all, ByScore(all, want, limit, scores))) == limit
  {
    var symbols, shares := Among(all, want.Keys), ByScore(all, want, limit, scores);
    AmongFacts(all, want.Keys);
    PositiveTotal(symbols, scores);
    var total := Sum(Pick(symbols, scores));
    SharesOf(symbols, shares, limit, scores, total);
    WholeShare(limit, total);
    SumAmong(all, want.Keys, shares);
  }

  /** Weights in the same proportion as the scores. */
  ghost predicate Proportional(w: Weights, scores: Weights) {
    forall s, t | s in w && t in w && s in scores && t in scores :: SameRatio(w[s], scores[s], w[t], scores[t])
  }

  predicate SameRatio(x: real, a: real, y: real, b: real) { x * b == y * a }

  lemma SameRate(limit: real, a: real, b: real, total: real)
    requires total > 0.0
    ensures SameRatio(Share(limit, a, total), a, Share(limit, b, total), b)
  {
    var rate := limit / total;
    ShareIsRate(limit, a, total, rate);
    ShareIsRate(limit, b, total, rate);
  }

  lemma SharesAreProportional(all: seq<string>, want: Weights, limit: real, scores: Weights)
    requires Distinct(all) && forall s | s in all :: s in scores && scores[s] > 0.0
    ensures Proportional(ByScore(all, want, limit, scores), scores)
  {
    var symbols, shares := Among(all, want.Keys), ByScore(all, want, limit, scores);
    AmongFacts(all, want.Keys);
    PositiveTotal(symbols, scores);
    var total := Sum(Pick(symbols, scores));
    forall s, t | s in shares && t in shares && s in scores && t in scores
      ensures SameRatio(shares[s], scores[s], shares[t], scores[t])
    {
      SameRate(limit, scores[s], scores[t], total);
    }
  }

  /** Every share is kept by a projection: above 1e-12 and within its cap. */
  ghost predicate SharesFit(shares: Weights, caps: Weights)
  {
    forall s | s in shares :: TINY < shares[s] <= At(caps, s)
  }

  lemma FittingSharesStay(all: seq<string>, want: Weights, limit: real, caps: Weights, scores: Weights)
    requires Distinct(all) && limit > 0.0 && Among(all, want.Keys) != [] && forall s | s in all ::
      s in scores && scores[s] > 0.0
    requires SharesFit(ByScore(all, want, limit, scores), caps)
    ensures RiskTarget(all, want, limit, caps, scores) == ByScore(all, want, limit, scores)
  {
    var shares := ByScore(all, want, limit, scores);
    AmongFacts(all, want.Keys);
    SharesUseTheBudget(all, want, limit, scores);
    FittingIsUnchanged(all, shares, caps, limit);
  }

  /** Whatever the scores the risk budget is feasible; when every share fits its cap, it uses the whole budget and gives
      every requested symbol weight in proportion to its score. */
  lemma RiskTargetIsProportional(all: seq<string>, want: Weights, limit: real, caps: Weights, scores: Weights)
    requires Distinct(all) && limit >= 0.0 && forall s | s in all :: s in scores && scores[s] > 0.0
    ensures Feasible(all, RiskTarget(all, want, limit, caps, scores), caps, limit + TINY)
    ensures limit > 0.0 && Among(all, want.Keys) != [] && SharesFit(ByScore(all, want, limit, scores), caps) ==>
      && Sum(Pick(all, RiskTarget(all, want, limit, caps, scores))) == limit
      && Proportional(RiskTarget(all, want, limit, caps, scores), scores)
  {
    var symbols := Among(all, want.Keys);
    if symbols == [] {
      EmptyIsFeasible(all, caps, limit + TINY);
    } else {
      ProjectionIsFeasible(all, ByScore(all, want, limit, scores), caps, limit);
    }
    if limit > 0.0 && symbols != [] && SharesFit(ByScore(all, want, limit, scores), caps) {
      FittingSharesStay(all, want, limit, caps, scores);
      SharesUseTheBudget(all, want, limit, scores);
      SharesAreProportional(all, want, limit, scores);
    }
  }
}
