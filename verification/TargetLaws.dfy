/** What blending, clamping and the turnover cap do to weights, and when the optimizer leaves the requested weights as
    they are (ez/live/optimizer_allocator.py). */
module TargetLaws {
  import opened Options
  import opened Reals
  import opened Simplex
  import opened Refill
  import opened Allocator
  import opened TargetOptimizer

  // ---- the budget ------------------------------------------------------------------------

  /** No weights within the caps add up to more than the caps have room for. */
  lemma {:induction false} RoomHoldsAll(x: seq<real>, caps: seq<real>)
    requires |x| == |caps| && InBox(x, caps)
    ensures Sum(x) <= CapRoom(caps)
  {
    if x != [] {
      assert 0.0 <= x[0] <= Max(0.0, caps[0]);
      forall i | 0 <= i < |x| - 1 ensures 0.0 <= x[1..][i] <= Max(0.0, caps[1..][i]) {
        assert 0.0 <= x[i + 1] <= Max(0.0, caps[i + 1]);
      }
      RoomHoldsAll(x[1..], caps[1..]);
    }
  }

  /** Filling every cap uses all the room. */
  lemma {:induction false} RoomIsFilled(caps: seq<real>)
    requires forall i | 0 <= i < |caps| :: caps[i] >= 0.0
    ensures Sum(caps) == CapRoom(caps)
  {
    if caps != [] { RoomIsFilled(caps[1..]); }
  }

  /** Clamping the budget to the caps keeps all weights that fit the caps and the budget, and leaves no budget that the
      caps have no room for beyond the tolerance. */
  lemma ClampingLosesNothing(all: seq<string>, caps: Weights, budget: real, w: Weights)
    requires forall s | s in all :: At(caps, s) >= 0.0
    ensures var r := ClampedBudget(all, caps, budget);
      && (Feasible(all, w, caps, budget) ==> Feasible(all, w, caps, r))
      && r <= budget && r <= Sum(Pick(all, caps)) + TURNOVER_TOLERANCE
      && (r == budget || r == Sum(Pick(all, caps)))
  {
    RoomIsFilled(Pick(all, caps));
    if Feasible(all, w, caps, budget) {
      PickInBox(all, w, caps, budget);
      RoomHoldsAll(Pick(all, w), Pick(all, caps));
    }
  }

  // ---- blending --------------------------------------------------------------------------

  /** The part of the way from one weight to the other. */
  function PartWay(a: real, b: real, strength: real): real { a + Weighed(strength, b - a) }

  lemma MixedIsPartWay(all: seq<string>, base: Weights, alternative: Weights, strength: real, s: string)
    requires s in all
    ensures At(Mixed(all, base, alternative, strength), s) == PartWay(At(base, s), At(alternative, s), strength)
  {
    var a, b := At(base, s), At(alternative, s);
    assert (1.0 - strength) * a + strength * b == a + Weighed(strength, b - a);
  }

  lemma MixedIsTowards(all: seq<string>, base: Weights, alternative: Weights, strength: real)
    ensures Pick(all, Mixed(all, base, alternative, strength))
      == Towards(Pick(all, base), Pick(all, alternative), strength)
  {
    forall i | 0 <= i < |all|
      ensures Pick(all, Mixed(all, base, alternative, strength))[i]
        == Towards(Pick(all, base), Pick(all, alternative), strength)[i]
    {
      MixedIsPartWay(all, base, alternative, strength, all[i]);
      TowardsAt(Pick(all, base), Pick(all, alternative), strength, i);
    }
  }

  lemma TowardsAt(a: seq<real>, b: seq<real>, part: real, i: nat)
    requires |a| == |b| && i < |a|
    ensures Towards(a, b, part)[i] == PartWay(a[i], b[i], part)
  {
  }

  /** No weight of the blend is too small to keep. */
  ghost predicate NoneTiny(w: Weights) { forall s | s in w :: w[s] > TINY }

  lemma MixedFits(all: seq<string>, base: Weights, alternative: Weights, strength: real, caps: Weights, limit: real)
    requires 0.0 <= strength <= 1.0
    requires Feasible(all, base, caps, limit) && Feasible(all, alternative, caps, limit)
    requires NoneTiny(Mixed(all, base, alternative, strength))
    ensures Feasible(all, Mixed(all, base, alternative, strength), caps, limit)
  {
    var mixed := Mixed(all, base, alternative, strength);
    PickInBox(all, base, caps, limit);
    PickInBox(all, alternative, caps, limit);
    MixedIsTowards(all, base, alternative, strength);
    TowardsInBox(Pick(all, base), Pick(all, alternative), strength, Pick(all, caps));
    TowardsFits(Pick(all, base), Pick(all, alternative), strength, limit);
    forall s | s in mixed ensures 0.0 < mixed[s] <= Max(0.0, At(caps, s)) {
      var i :| 0 <= i < |all| && all[i] == s;
      assert Pick(all, mixed)[i] == mixed[s] && Pick(all, caps)[i] == At(caps, s);
    }
  }

  lemma BlendIs(all: seq<string>, base: Weights, alternative: Weights, strength: real, caps: Weights, budget: real,
                mixed: Weights)
    requires Distinct(all) && budget > 0.0 && strength > 0.0 && alternative != map[]
    requires mixed == Mixed(all, base, alternative, strength) && NoneTiny(mixed)
    requires Feasible(all, mixed, caps, budget + TINY)
    ensures Blend(all, base, alternative, strength, caps, budget) == mixed
  {
    FittingIsUnchanged(all, mixed, caps, budget);
  }

  /** A blend of two targets that fit moves every weight that part of the way from the first to the second. */
  lemma BlendMovesPart(all: seq<string>, base: Weights, alternative: Weights, strength: real, caps: Weights,
                       budget: real, s: string)
    requires Distinct(all) && s in all && budget > 0.0 && 0.0 <= strength <= 1.0 && alternative != map[]
    requires Feasible(all, base, caps, budget + TINY) && Feasible(all, alternative, caps, budget + TINY)
    requires NoneTiny(Mixed(all, base, alternative, strength))
    ensures At(Blend(all, base, alternative, strength, caps, budget), s)
      == PartWay(At(base, s), At(alternative, s), strength)
  {
    if strength == 0.0 {
      NoPart(At(base, s), At(alternative, s));
    } else {
      var mixed := Mixed(all, base, alternative, strength);
      assert Feasible(all, mixed, caps, budget + TINY) by {
        MixedFits(all, base, alternative, strength, caps, budget + TINY);
      }
      BlendIs(all, base, alternative, strength, caps, budget, mixed);
      MixedIsPartWay(all, base, alternative, strength, s);
    }
  }

  lemma NoPart(a: real, b: real)
    ensures PartWay(a, b, 0.0) == a
  {
  }

  // ---- the turnover cap ------------------------------------------------------------------

  /** A turnover cap that binds moves every weight the same part of the way from the current to the optimized one, up to
      weights too small to keep: the part that the cap is of the whole turnover. */
  lemma CapMovesPart(all: seq<string>, have: Weights, optimized: Weights, caps: Weights, limit: real, cap: real,
                     part: real, s: string)
    requires Distinct(all) && |all| <= 1000 && s in all && limit > 0.0 && cap >= 0.0
    requires CurrentFits(all, have, caps, limit) && Feasible(all, optimized, caps, limit + TINY)
    requires cap + TINY < Turnover(all, have, optimized) && Weighed(part, Turnover(all, have, optimized)) == cap
    ensures var r := WithinTurnover(all, have, optimized, caps, limit, Some(cap));
      && r.Allocated? && !r.infeasible
      && 0.0 <= PartWay(At(have, s), At(optimized, s), part) - At(r.weights, s) <= TINY
  {
    var turnover, r := Turnover(all, have, optimized), CompressTurnover(all, have, optimized, cap);
    PartIs(part, turnover, cap);
    CapKeepsCompressed(all, have, optimized, caps, limit, cap, r);
    assert r == Keep(all, Towards(Pick(all, have), Pick(all, optimized), part)) by {
      ScaleIsPart(cap, turnover, part);
    }
    CompressedAt(all, have, optimized, part, s, caps, limit + TINY);
  }

  lemma CapKeepsCompressed(all: seq<string>, have: Weights, optimized: Weights, caps: Weights, limit: real, cap: real,
                           r: Weights)
    requires Distinct(all) && |all| <= 1000 && limit > 0.0 && cap >= 0.0
    requires r == CompressTurnover(all, have, optimized, cap)
    requires CurrentFits(all, have, caps, limit) && Feasible(all, optimized, caps, limit + TINY)
    requires cap + TINY < Turnover(all, have, optimized)
    ensures WithinTurnover(all, have, optimized, caps, limit, Some(cap)) == Allocated(r, false)
  {
    assert Projection(all, r, caps, limit) == r by {
      CompressionFits(all, have, optimized, caps, limit + TINY, cap);
      FittingIsUnchanged(all, r, caps, limit);
    }
    CompressionSurvives(all, have, optimized, caps, limit, cap);
  }

  lemma PartIs(part: real, whole: real, cap: real)
    requires 0.0 <= cap < whole && Weighed(part, whole) == cap
    ensures part == cap / whole && 0.0 <= part <= 1.0
  {
    var q := cap / whole;
    assert q * whole == cap;
    if part < q { StrictlySameSigns(q - part, whole, (q - part) * whole); }
    if part > q { StrictlySameSigns(part - q, whole, (part - q) * whole); }
    ScaleIsPart(cap, whole, q);
  }

  lemma CompressedAt(all: seq<string>, have: Weights, optimized: Weights, part: real, s: string, caps: Weights,
                     limit: real)
    requires Distinct(all) && s in all && 0.0 <= part <= 1.0
    requires Feasible(all, have, caps, limit) && Feasible(all, optimized, caps, limit)
    ensures var y := Towards(Pick(all, have), Pick(all, optimized), part);
      0.0 <= PartWay(At(have, s), At(optimized, s), part) - At(Keep(all, y), s) <= TINY
  {
    var a, b := Pick(all, have), Pick(all, optimized);
    var i :| 0 <= i < |all| && all[i] == s;
    assert InBox(a, Pick(all, caps)) by { PickInBox(all, have, caps, limit); }
    assert InBox(b, Pick(all, caps)) by { PickInBox(all, optimized, caps, limit); }
    KeptTowards(all, a, b, part, Pick(all, caps), i);
  }

  lemma KeptTowards(all: seq<string>, a: seq<real>, b: seq<real>, part: real, caps: seq<real>, i: nat)
    requires Distinct(all) && |a| == |b| == |caps| == |all| && i < |all| && 0.0 <= part <= 1.0
    requires InBox(a, caps) && InBox(b, caps)
    ensures 0.0 <= PartWay(a[i], b[i], part) - At(Keep(all, Towards(a, b, part)), all[i]) <= TINY
  {
    var value := PartWay(a[i], b[i], part);
    PartWayIsPositive(a[i], b[i], part, caps[i]);
    KeptAtIndex(all, Towards(a, b, part), i);
    TowardsAt(a, b, part, i);
    TrimmedIsClose(value);
  }

  lemma PartWayIsPositive(x: real, y: real, part: real, cap: real)
    requires 0.0 <= part <= 1.0 && 0.0 <= x <= Max(0.0, cap) && 0.0 <= y <= Max(0.0, cap)
    ensures PartWay(x, y, part) >= 0.0
  {
    BetweenBounds(x, y, part, 0.0, Max(0.0, cap));
  }

  lemma TrimmedIsClose(x: real)
    requires x >= 0.0
    ensures 0.0 <= x - TrimWeight(x) <= TINY
  {
  }

  lemma KeptAtIndex(all: seq<string>, y: seq<real>, i: nat)
    requires Distinct(all) && |y| == |all| && i < |all|
    ensures At(Keep(all, y), all[i]) == TrimWeight(y[i])
  {
    KeepFacts(all, y);
    assert Pick(all, Keep(all, y))[i] == Trimmed(y)[i];
  }

  // ---- the whole call --------------------------------------------------------------------

  /** There is no covariance, or nothing asks for it. */
  predicate RiskUnused(sigma: Option<seq<seq<real>>>, aversion: real, strength: real) {
    sigma.None? || (aversion <= 0.0 && strength <= 0.0)
  }

  /** Weights that fit the caps and the budget are what the projection of the requested ones gives. */
  lemma FittingTargetsStay(all: seq<string>, want: Weights, caps: Weights, limit: real)
    requires Distinct(all) && limit > 0.0 && Feasible(all, want, caps, limit + TINY) && NoneTiny(want)
    ensures Projection(all, AsTargets(all, want), caps, limit) == want
  {
    var targets := AsTargets(all, want);
    AmongAll(all, targets.Keys);
    assert Pick(all, targets) == Pick(all, want);
    PickInBox(all, want, caps, limit + TINY);
    InBoxIsClipped(Pick(all, want), Pick(all, caps));
    NothingIsLowered(all, targets, caps, limit);
    KeepsWhole(all, want);
  }

  lemma NothingIsLowered(all: seq<string>, values: Weights, caps: Weights, budget: real)
    requires budget > 0.0 && Among(all, values.Keys) == all
    requires Clipped(Pick(all, values), Pick(all, caps), 0.0) == Pick(all, values)
    requires Sum(Pick(all, values)) <= budget + TINY
    ensures Projection(all, values, caps, budget) == Keep(all, Pick(all, values))
  {
  }

  lemma InBoxIsClipped(x: seq<real>, caps: seq<real>)
    requires |x| == |caps| && InBox(x, caps)
    ensures Clipped(x, caps, 0.0) == x
  {
    forall i | 0 <= i < |x| ensures Clipped(x, caps, 0.0)[i] == x[i] { assert 0.0 <= x[i] <= Max(0.0, caps[i]); }
  }

  lemma KeepsWhole(all: seq<string>, w: Weights)
    requires Distinct(all) && NoneTiny(w) && forall s | s in w :: s in all
    ensures Keep(all, Pick(all, w)) == w
  {
    var r := Keep(all, Pick(all, w));
    KeepFacts(all, Pick(all, w));
    forall s | s in all ensures (s in r <==> s in w) && (s in w ==> r[s] == w[s]) {
      var i :| 0 <= i < |all| && all[i] == s;
      KeptAtIndex(all, Pick(all, w), i);
    }
    SameDict(r, w);
  }

  /** Without a use of the covariance, requested weights that fit the caps and the clamped budget are the allocation, if
      moving to them stays within the turnover cap. */
  lemma FittingRequestIsGranted(requested: Weights, current: Weights, budget: real, maxPosition: Option<real>,
                                maxTurnover: Option<real>, sigma: Option<seq<seq<real>>>, aversion: real,
                                strength: real, scores: Weights)
    requires Aligned(AllSymbols(requested, current), sigma, scores) && RiskUnused(sigma, aversion, strength)
    requires var all := AllSymbols(requested, current);
      var caps := CapsFor(all, maxPosition, budget);
      && all != [] && budget > 0.0 && ClampedBudget(all, caps, budget) > 0.0
      && Feasible(all, Positive(requested), caps, ClampedBudget(all, caps, budget) + TINY)
      && NoneTiny(Positive(requested))
      && (maxTurnover.Some? ==> Turnover(all, Positive(current), Positive(requested)) <= maxTurnover.value + TINY)
    ensures TargetWeights(requested, current, budget, maxPosition, maxTurnover, sigma, aversion, strength, scores)
      == Allocated(Positive(requested), false)
  {
    var all := AllSymbols(requested, current);
    var caps := CapsFor(all, maxPosition, budget);
    FittingTargetsStay(all, Positive(requested), caps, ClampedBudget(all, caps, budget));
  }
}
