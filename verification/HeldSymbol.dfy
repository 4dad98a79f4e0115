/** A holding that is no longer requested makes the allocator fail (ez/live/optimizer_allocator.py). */
module HeldSymbol {
  import opened Options
  import opened Simplex
  import opened Allocator
  import opened TargetOptimizer
  import SortedKeys

  const WANTED: Weights := map["A" := 1.0]
  const HOLDING: Weights := map["B" := 1.0]

  lemma BothSymbols()
    ensures AllSymbols(WANTED, HOLDING) == ["A", "B"]
  {
    var all, both := AllSymbols(WANTED, HOLDING), ["A", "B"];
    assert Positive(WANTED).Keys + Positive(HOLDING).Keys == {"A", "B"};
    assert both[0] == "A" && both[1] == "B";
    SortedKeys.ListingIsUnique(both, {"A", "B"});
  }

  /** The projected request keeps the requested symbol. */
  lemma WantedIsKept()
    ensures var all := ["A", "B"];
      var caps := CapsFor(all, None, 1.0);
      ClampedBudget(all, caps, 1.0) == 1.0 && "A" in Projection(all, AsTargets(all, Positive(WANTED)), caps, 1.0)
  {
    var all := ["A", "B"];
    var caps, values := CapsFor(all, None, 1.0), AsTargets(all, Positive(WANTED));
    assert all[1..] == ["B"] && all[1..][1..] == [];
    assert Pick(all, caps) == [1.0, 1.0] && [1.0, 1.0][1..] == [1.0] && [1.0][1..] == [];
    AmongAll(all, values.Keys);
    assert Pick(all, values) == [1.0, 0.0];
    OnlyOneHasWeight();
    assert Untrimmed(all, values, caps, 1.0) == [1.0, 0.0];
  }

  lemma OnlyOneHasWeight()
    ensures Clipped([1.0, 0.0], [1.0, 1.0], 0.0) == [1.0, 0.0] && Total([1.0, 0.0], [1.0, 1.0], 0.0) == 1.0
  {
    assert Clipped([1.0, 0.0], [1.0, 1.0], 0.0) == [1.0, 0.0] && [1.0, 0.0][1..] == [0.0] && [0.0][1..] == [];
  }

  /** From all of B to all of A, with any risk aversion: the covariance has two rows, the target one symbol. */
  lemma SwitchingFails(sigma: seq<seq<real>>, aversion: real, scores: Weights)
    requires Square(sigma, 2) && aversion > 0.0 && forall s | s in ["A", "B"] :: s in scores && scores[s] > 0.0
    ensures Aligned(AllSymbols(WANTED, HOLDING), Some(sigma), scores)
    ensures TargetWeights(WANTED, HOLDING, 1.0, None, None, Some(sigma), aversion, 0.0, scores).ShapeError?
  {
    BothSymbols();
    WantedIsKept();
    HeldSymbolsFail(WANTED, HOLDING, 1.0, None, None, sigma, aversion, scores, "B");
  }
}
