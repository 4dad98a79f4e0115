/** Filling projected weights up to the budget, `_fill_to_budget` in ez/live/optimizer_allocator.py,
    on vectors over one list of symbols (an absent weight is 0). */
module Refill {
  import opened Reals
  import opened Simplex

  const TINY := 0.000000000001
  const LEAST_PRIORITY := 0.00000001
  const PASSES := 12

  predicate Expandable(weight: real, cap: real) { cap - weight > TINY }

  /** The priority of every symbol that still has room, 0 for the others. */
  function Shares(w: seq<real>, caps: seq<real>, priority: seq<real>): (r: seq<real>)
    requires |w| == |caps| == |priority|
    ensures |r| == |w|
  {
    if w == [] then []
    else
      var first := if Expandable(w[0], caps[0]) then Max(priority[0], LEAST_PRIORITY) else 0.0;
      [first] + Shares(w[1..], caps[1..], priority[1..])
  }

  /** What one pass adds to one symbol. */
  function Added(w: real, cap: real, priority: real, residual: real, denom: real): real
    requires denom > 0.0
  {
    if Expandable(w, cap) then Min(cap - w, residual * Max(priority, LEAST_PRIORITY) / denom) else 0.0
  }

  function Adds(w: seq<real>, caps: seq<real>, priority: seq<real>, residual: real, denom: real): (r: seq<real>)
    requires |w| == |caps| == |priority| && denom > 0.0
    ensures |r| == |w|
    ensures forall i | 0 <= i < |w| :: r[i] == Added(w[i], caps[i], priority[i], residual, denom)
  {
    if w == [] then []
    else [Added(w[0], caps[0], priority[0], residual, denom)] + Adds(w[1..], caps[1..], priority[1..], residual, denom)
  }

  function Plus(a: seq<real>, b: seq<real>): (r: seq<real>)
    requires |a| == |b|
    ensures |r| == |a| && forall i | 0 <= i < |a| :: r[i] == a[i] + b[i]
  {
    if a == [] then [] else [a[0] + b[0]] + Plus(a[1..], b[1..])
  }

  lemma {:induction false} SumOfPlus(a: seq<real>, b: seq<real>)
    requires |a| == |b|
    ensures Sum(Plus(a, b)) == Sum(a) + Sum(b)
  {
    if a != [] {
      SumOfPlus(a[1..], b[1..]);
      assert Plus(a, b)[1..] == Plus(a[1..], b[1..]);
    }
  }

  /** Symbols that still have room. */
  function Open(w: seq<real>, caps: seq<real>): nat
    requires |w| == |caps|
  {
    if w == [] then 0 else (if Expandable(w[0], caps[0]) then 1 else 0) + Open(w[1..], caps[1..])
  }

  lemma {:induction false} OpenBounds(w: seq<real>, caps: seq<real>)
    requires |w| == |caps|
    ensures Open(w, caps) <= |w|
    ensures Open(w, caps) == 0 ==> forall i | 0 <= i < |w| :: !Expandable(w[i], caps[i])
  {
    if w != [] { OpenBounds(w[1..], caps[1..]); }
  }

  lemma {:induction false} SharesArePositive(w: seq<real>, caps: seq<real>, priority: seq<real>)
    requires |w| == |caps| == |priority|
    ensures Sum(Shares(w, caps, priority)) >= 0.0
    ensures Open(w, caps) > 0 ==> Sum(Shares(w, caps, priority)) >= LEAST_PRIORITY
  {
    if w != [] {
      SharesArePositive(w[1..], caps[1..], priority[1..]);
      assert Shares(w, caps, priority)[1..] == Shares(w[1..], caps[1..], priority[1..]);
    }
  }

  /** A share of the residual as a rate times the priority. */
  lemma ShareIsRate(residual: real, part: real, denom: real, rate: real)
    requires denom > 0.0 && rate * denom == residual
    ensures residual * part / denom == rate * part
  {
    assert residual * part == (rate * part) * denom;
  }

  lemma PositiveShare(rate: real, part: real, product: real)
    requires rate > 0.0 && part > 0.0 && product == rate * part
    ensures product > 0.0
  {
  }

  /** One symbol in one pass: it gets its whole share, or it gets all the room it had, which is not tiny. */
  lemma AddedFacts(w: real, cap: real, priority: real, residual: real, denom: real, rate: real, share: real)
    requires denom > 0.0 && rate > 0.0 && rate * denom == residual
    requires share == rate * (if Expandable(w, cap) then Max(priority, LEAST_PRIORITY) else 0.0)
    ensures var add := Added(w, cap, priority, residual, denom);
      && 0.0 <= add <= share && (Expandable(w, cap) ==> add <= cap - w)
      && (Expandable(w + add, cap) ==> Expandable(w, cap))
      && (add == share || (add > TINY && Expandable(w, cap) && !Expandable(w + add, cap)))
  {
    if Expandable(w, cap) {
      ShareIsRate(residual, Max(priority, LEAST_PRIORITY), denom, rate);
      PositiveShare(rate, Max(priority, LEAST_PRIORITY), share);
    } else {
      assert share == 0.0;
    }
  }

  /** One pass: it hands out the whole residual, or it fills up a symbol. */
  lemma {:induction false} PassProgress(w: seq<real>, caps: seq<real>, priority: seq<real>, residual: real, denom: real,
                                        rate: real)
    requires |w| == |caps| == |priority| && denom > 0.0 && rate > 0.0 && rate * denom == residual
    ensures var adds, shares := Adds(w, caps, priority, residual, denom), Scaled(rate, Shares(w, caps, priority));
      var after := Plus(w, adds);
      && 0.0 <= Sum(adds) <= Sum(shares)
      && Open(after, caps) <= Open(w, caps)
      && (Sum(adds) == Sum(shares) || (Sum(adds) > TINY && Open(after, caps) < Open(w, caps)))
  {
    if w != [] {
      var adds, shares := Adds(w, caps, priority, residual, denom), Scaled(rate, Shares(w, caps, priority));
      AddedFacts(w[0], caps[0], priority[0], residual, denom, rate, shares[0]);
      PassProgress(w[1..], caps[1..], priority[1..], residual, denom, rate);
      PassTail(w, caps, priority, residual, denom, rate);
    }
  }

  lemma PassTail(w: seq<real>, caps: seq<real>, priority: seq<real>, residual: real, denom: real, rate: real)
    requires |w| == |caps| == |priority| > 0 && denom > 0.0
    ensures var adds := Adds(w, caps, priority, residual, denom);
      && adds[1..] == Adds(w[1..], caps[1..], priority[1..], residual, denom)
      && Scaled(rate, Shares(w, caps, priority))[1..] == Scaled(rate, Shares(w[1..], caps[1..], priority[1..]))
      && Plus(w, adds)[1..] == Plus(w[1..], adds[1..])
  {
    ScaledTail(rate, Shares(w, caps, priority));
    assert Shares(w, caps, priority)[1..] == Shares(w[1..], caps[1..], priority[1..]);
  }

  lemma RateOf(residual: real, denom: real) returns (rate: real)
    requires residual > 0.0 && denom > 0.0
    ensures rate > 0.0 && rate * denom == residual
  {
    rate := residual / denom;
  }

  lemma SharesAddUp(shares: seq<real>, rate: real, denom: real, residual: real)
    requires denom == Sum(shares) && rate * denom == residual
    ensures Sum(Scaled(rate, shares)) == residual
  {
    SumOfScaled(rate, shares, denom);
  }

  lemma PassTotals(w: seq<real>, caps: seq<real>, priority: seq<real>, residual: real, denom: real)
    requires |w| == |caps| == |priority| && denom == Sum(Shares(w, caps, priority)) && denom > 0.0 && residual > 0.0
    ensures var adds := Adds(w, caps, priority, residual, denom);
      var after := Plus(w, adds);
      && 0.0 <= Sum(adds) <= residual && Open(after, caps) <= Open(w, caps)
      && (Sum(adds) == residual || (Sum(adds) > TINY && Open(after, caps) < Open(w, caps)))
  {
    var rate := RateOf(residual, denom);
    SharesAddUp(Shares(w, caps, priority), rate, denom, residual);
    PassProgress(w, caps, priority, residual, denom, rate);
  }

  lemma AddedStaysBelowCap(w: real, cap: real, priority: real, residual: real, denom: real)
    requires denom > 0.0 && residual > 0.0
    ensures var add := Added(w, cap, priority, residual, denom);
      0.0 <= add && (add > 0.0 ==> w + add <= cap)
  {
    var rate := RateOf(residual, denom);
    var share := rate * (if Expandable(w, cap) then Max(priority, LEAST_PRIORITY) else 0.0);
    AddedFacts(w, cap, priority, residual, denom, rate, share);
  }

  lemma PassStaysInBox(w: seq<real>, caps: seq<real>, priority: seq<real>, residual: real, denom: real)
    requires |w| == |caps| == |priority| && InBox(w, caps) && denom > 0.0 && residual > 0.0
    ensures InBox(Plus(w, Adds(w, caps, priority, residual, denom)), caps)
  {
    var after := Plus(w, Adds(w, caps, priority, residual, denom));
    forall i | 0 <= i < |w| ensures 0.0 <= after[i] <= Max(0.0, caps[i]) {
      AddedStaysBelowCap(w[i], caps[i], priority[i], residual, denom);
    }
  }

  /** What a pass does to the weights, the residual and the room left. */
  lemma PassFacts(w: seq<real>, caps: seq<real>, priority: seq<real>, residual: real)
    requires |w| == |caps| == |priority| && InBox(w, caps) && Open(w, caps) > 0 && residual > TINY
    ensures var denom := Sum(Shares(w, caps, priority));
      && denom > 0.0
      && var adds := Adds(w, caps, priority, residual, denom);
         var after := Plus(w, adds);
         && InBox(after, caps) && Sum(after) == Sum(w) + Sum(adds)
         && TINY < Sum(adds) <= residual
         && (Sum(adds) == residual || Open(after, caps) < Open(w, caps))
  {
    SharesArePositive(w, caps, priority);
    var denom := Sum(Shares(w, caps, priority));
    PassTotals(w, caps, priority, residual, denom);
    PassStaysInBox(w, caps, priority, residual, denom);
    SumOfPlus(w, Adds(w, caps, priority, residual, denom));
  }

  function TrimWeight(x: real): real { if x > TINY then x else 0.0 }

  /** Drops weights of at most 1e-12. */
  function Trimmed(x: seq<real>): (r: seq<real>)
    ensures |r| == |x| && forall i | 0 <= i < |x| :: r[i] == TrimWeight(x[i])
  {
    if x == [] then [] else [TrimWeight(x[0])] + Trimmed(x[1..])
  }

  /** Trimming a vector in the box keeps it there and lowers the sum by at most 1e-12 a symbol. */
  lemma {:induction false} TrimmingIsSmall(x: seq<real>, caps: seq<real>)
    requires |x| == |caps| && InBox(x, caps)
    ensures InBox(Trimmed(x), caps)
    ensures Sum(x) - |x| as real * TINY <= Sum(Trimmed(x)) <= Sum(x)
  {
    if x != [] {
      TrimmingIsSmall(x[1..], caps[1..]);
      assert Trimmed(x)[1..] == Trimmed(x[1..]);
    }
  }

  /** The weights after up to a pass for each of `rounds` over the symbols with room. */
  function FilledFrom(w: seq<real>, caps: seq<real>, priority: seq<real>, residual: real,
                      rounds: seq<nat>): (r: seq<real>)
    requires |w| == |caps| == |priority|
    ensures |r| == |w|
    decreases |rounds|
  {
    var denom := Sum(Shares(w, caps, priority));
    if rounds == [] || Open(w, caps) == 0 || residual <= TINY || denom <= 0.0 then w
    else
      var adds := Adds(w, caps, priority, residual, denom);
      if Sum(adds) <= TINY then Plus(w, adds)
      else FilledFrom(Plus(w, adds), caps, priority, residual - Sum(adds), rounds[1..])
  }

  function FilledUp(w: seq<real>, caps: seq<real>, priority: seq<real>, budget: real): (r: seq<real>)
    requires |w| == |caps| == |priority|
    ensures |r| == |w|
  {
    if Sum(w) >= budget - TINY then w else Trimmed(FilledFrom(w, caps, priority, budget - Sum(w), Range(PASSES)))
  }

  /** The passes never leave the box nor exceed the residual; with as many passes as symbols with room they leave
      nothing to hand out or nobody with room. */
  lemma {:induction false} FilledFromFacts(w: seq<real>, caps: seq<real>, priority: seq<real>, residual: real,
                                           rounds: seq<nat>)
    requires |w| == |caps| == |priority| && InBox(w, caps) && residual >= 0.0
    ensures var r := FilledFrom(w, caps, priority, residual, rounds);
      && InBox(r, caps) && Sum(w) <= Sum(r) <= Sum(w) + residual
      && (Open(w, caps) <= |rounds| ==> Sum(w) + residual - Sum(r) <= TINY || Open(r, caps) == 0)
    decreases |rounds|
  {
    if rounds != [] && Open(w, caps) > 0 && residual > TINY {
      PassFacts(w, caps, priority, residual);
      var adds := Adds(w, caps, priority, residual, Sum(Shares(w, caps, priority)));
      FilledFromFacts(Plus(w, adds), caps, priority, residual - Sum(adds), rounds[1..]);
    }
  }

  lemma FilledEnds(w: seq<real>, caps: seq<real>, priority: seq<real>, budget: real, rounds: seq<nat>)
    requires |w| == |caps| == |priority| && InBox(w, caps) && Sum(w) <= budget
    ensures var end := FilledFrom(w, caps, priority, budget - Sum(w), rounds);
      && InBox(end, caps) && Sum(w) <= Sum(end) <= budget && InBox(Trimmed(end), caps) && Sum(Trimmed(end)) <= budget
      && (|w| <= |rounds| ==> budget - Sum(end) <= TINY || forall i | 0 <= i < |w| :: !Expandable(end[i], caps[i]))
  {
    var end := FilledFrom(w, caps, priority, budget - Sum(w), rounds);
    FilledFromFacts(w, caps, priority, budget - Sum(w), rounds);
    OpenBounds(w, caps);
    OpenBounds(end, caps);
    TrimmingIsSmall(end, caps);
  }

  /** What the refill leaves: weights in their boxes and no more than the budget; with at most twelve symbols the
      loop ends with a residual of at most 1e-12 or with every symbol within 1e-12 of its cap. */
  lemma FilledUpFacts(w: seq<real>, caps: seq<real>, priority: seq<real>, budget: real)
    requires |w| == |caps| == |priority| && InBox(w, caps)
    ensures var r := FilledUp(w, caps, priority, budget); InBox(r, caps) && Sum(r) <= Max(Sum(w), budget)
    ensures Sum(w) >= budget - TINY ==> FilledUp(w, caps, priority, budget) == w
    ensures Sum(w) < budget - TINY ==>
      var end := FilledFrom(w, caps, priority, budget - Sum(w), Range(PASSES));
      && FilledUp(w, caps, priority, budget) == Trimmed(end) && InBox(end, caps) && Sum(w) <= Sum(end) <= budget
      && (|w| <= PASSES ==> budget - Sum(end) <= TINY || forall i | 0 <= i < |w| :: !Expandable(end[i], caps[i]))
  {
    if Sum(w) < budget - TINY { FilledEnds(w, caps, priority, budget, Range(PASSES)); }
  }

  /** Hands the unused budget to symbols with room, in proportion to their priority. */
  method FillToBudget(weights: seq<real>, caps: seq<real>, priority: seq<real>, budget: real)
    returns (filled: seq<real>)
    requires |weights| == |caps| == |priority|
    ensures filled == FilledUp(weights, caps, priority, budget)
  {
    var total := Sum(weights);
    if total >= budget - TINY { return weights; }
    var adjusted := FillInRounds(weights, caps, priority, budget - total, Range(PASSES));
    return Trimmed(adjusted);
  }

  method FillInRounds(weights: seq<real>, caps: seq<real>, priority: seq<real>, unused: real, rounds: seq<nat>)
    returns (adjusted: seq<real>)
    requires |weights| == |caps| == |priority|
    ensures adjusted == FilledFrom(weights, caps, priority, unused, rounds)
  {
    adjusted := weights;
    var residual := unused;
    assert rounds[0..] == rounds;
    for pass := 0 to |rounds|
      invariant |adjusted| == |weights|
      invariant FilledFrom(adjusted, caps, priority, residual, rounds[pass..])
        == FilledFrom(weights, caps, priority, unused, rounds)
    {
      if Open(adjusted, caps) == 0 || residual <= TINY { break; }
      var denom := Sum(Shares(adjusted, caps, priority));
      if denom <= 0.0 { break; }
      assert rounds[pass..][1..] == rounds[pass + 1..];
      var adds := Adds(adjusted, caps, priority, residual, denom);
      adjusted := Plus(adjusted, adds);
      var consumed := Sum(adds);
      if consumed <= TINY { break; }
      residual := residual - consumed;
    }
  }
}
