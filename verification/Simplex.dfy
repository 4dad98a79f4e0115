/** Vectors clipped at a common threshold: the mathematics of the capped-simplex projection
    (`_project_capped_simplex` in ez/live/optimizer_allocator.py). */
module Simplex {
  import opened Reals

  function Sum(s: seq<real>): real {
    if s == [] then 0.0 else s[0] + Sum(s[1..])
  }

  function Clip(value: real, cap: real, t: real): real { Max(0.0, Min(cap, value - t)) }

  /** Every value lowered by `t`, then clipped to 0..cap. */
  function Clipped(values: seq<real>, caps: seq<real>, t: real): (r: seq<real>)
    requires |values| == |caps|
    ensures |r| == |values|
    ensures forall i | 0 <= i < |r| :: r[i] == Clip(values[i], caps[i], t)
  {
    if values == [] then [] else [Clip(values[0], caps[0], t)] + Clipped(values[1..], caps[1..], t)
  }

  function Total(values: seq<real>, caps: seq<real>, t: real): real
    requires |values| == |caps|
  {
    Sum(Clipped(values, caps, t))
  }

  lemma {:induction false} TotalUnfolds(values: seq<real>, caps: seq<real>, t: real)
    requires |values| == |caps| > 0
    ensures Total(values, caps, t) == Clip(values[0], caps[0], t) + Total(values[1..], caps[1..], t)
  {
    assert Clipped(values, caps, t)[1..] == Clipped(values[1..], caps[1..], t);
  }

  lemma ClipFalls(value: real, cap: real, t: real, s: real)
    requires t <= s
    ensures Clip(value, cap, s) <= Clip(value, cap, t) <= Clip(value, cap, s) + (s - t)
  {
  }

  /** `x` added up `n` times. */
  function Repeated(n: nat, x: real): real { if n == 0 then 0.0 else Repeated(n - 1, x) + x }

  lemma AddMul(n: nat, x: real)
    ensures (n + 1) as real * x == n as real * x + x
  {
  }

  lemma {:induction false} RepeatedIsProduct(n: nat, x: real)
    ensures Repeated(n, x) == n as real * x
  {
    if n > 0 {
      RepeatedIsProduct(n - 1, x);
      AddMul(n - 1, x);
    }
  }

  lemma {:induction false} TotalFallsByRepeats(values: seq<real>, caps: seq<real>, t: real, s: real)
    requires |values| == |caps| && t <= s
    ensures Total(values, caps, s) <= Total(values, caps, t) <= Total(values, caps, s) + Repeated(|values|, s - t)
  {
    if values != [] {
      TotalUnfolds(values, caps, t);
      TotalUnfolds(values, caps, s);
      ClipFalls(values[0], caps[0], t, s);
      TotalFallsByRepeats(values[1..], caps[1..], t, s);
    }
  }

  /** Raising the threshold lowers the total, and by no more than the raise times the dimension. */
  lemma TotalFalls(values: seq<real>, caps: seq<real>, t: real, s: real)
    requires |values| == |caps| && t <= s
    ensures Total(values, caps, s) <= Total(values, caps, t) <= Total(values, caps, s) + |values| as real * (s - t)
  {
    TotalFallsByRepeats(values, caps, t, s);
    RepeatedIsProduct(|values|, s - t);
  }

  // ---- distances -----------------------------------------------------------------------

  function Sq(x: real): real { x * x }

  function Squares(a: seq<real>, b: seq<real>): (r: seq<real>)
    requires |a| == |b|
    ensures |r| == |a| && forall i | 0 <= i < |a| :: r[i] == Sq(a[i] - b[i])
  {
    seq(|a|, i requires 0 <= i < |a| => Sq(a[i] - b[i]))
  }

  function Dist2(a: seq<real>, b: seq<real>): real
    requires |a| == |b|
  {
    Sum(Squares(a, b))
  }

  predicate InBox(y: seq<real>, caps: seq<real>)
    requires |y| == |caps|
  {
    forall i | 0 <= i < |y| :: 0.0 <= y[i] <= Max(0.0, caps[i])
  }

  lemma SameSigns(a: real, b: real)
    requires (a >= 0.0 && b >= 0.0) || (a <= 0.0 && b <= 0.0)
    ensures a * b >= 0.0
  {
  }

  lemma ClipVariation(value: real, cap: real, t: real, y: real, x: real, paid: real)
    requires 0.0 <= y <= Max(0.0, cap) && x == Clip(value, cap, t) && paid == Weighed(t, x - y)
    ensures Sq(y - value) >= Sq(x - value) + Sq(y - x) + 2.0 * paid
  {
    var slack := x - value + t;
    var saved := slack * (y - x);
    assert saved >= 0.0 by { if slack != 0.0 && y != x { SameSigns(slack, y - x); } }
    SquareBetween(value, x, y, t, slack, saved, paid);
  }

  lemma SquareBetween(value: real, x: real, y: real, t: real, slack: real, saved: real, paid: real)
    requires slack == x - value + t && saved == slack * (y - x) && paid == t * (x - y)
    ensures Sq(y - value) == Sq(x - value) + Sq(y - x) + 2.0 * saved + 2.0 * paid
  {
  }

  function Minus(a: seq<real>, b: seq<real>): seq<real>
    requires |a| == |b|
  {
    seq(|a|, i requires 0 <= i < |a| => a[i] - b[i])
  }

  lemma {:induction false} SumOfMinus(a: seq<real>, b: seq<real>)
    requires |a| == |b|
    ensures Sum(Minus(a, b)) == Sum(a) - Sum(b)
  {
    if a != [] {
      SumOfMinus(a[1..], b[1..]);
      assert Minus(a, b)[1..] == Minus(a[1..], b[1..]);
    }
  }

  function Scaled(t: real, s: seq<real>): seq<real> {
    seq(|s|, i requires 0 <= i < |s| => Weighed(t, s[i]))
  }

  lemma ScaledTail(t: real, s: seq<real>)
    requires s != []
    ensures Scaled(t, s)[1..] == Scaled(t, s[1..])
  {
    forall i | 0 <= i < |s| - 1 ensures Scaled(t, s)[1..][i] == Scaled(t, s[1..])[i] {
      assert Scaled(t, s)[i + 1] == t * s[i + 1];
    }
  }

  lemma {:induction false} SumOfScaled(t: real, s: seq<real>, sum: real)
    requires sum == Sum(s)
    ensures Sum(Scaled(t, s)) == t * sum
  {
    if s != [] {
      SumOfScaled(t, s[1..], sum - s[0]);
      ScaledTail(t, s);
      Distribute(t, s[0], sum - s[0]);
    }
  }

  lemma ScaledIsNotNegative(t: real, s: seq<real>)
    requires t >= 0.0 && (t > 0.0 ==> Sum(s) >= 0.0)
    ensures Sum(Scaled(t, s)) >= 0.0
  {
    var sum := Sum(s);
    SumOfScaled(t, s, sum);
    NotNegative(t, sum, Sum(Scaled(t, s)));
  }

  lemma NotNegative(t: real, sum: real, product: real)
    requires product == t * sum && t >= 0.0 && (t > 0.0 ==> sum >= 0.0)
    ensures product >= 0.0
  {
    if t == 0.0 {
      assert product == 0.0;
    } else if sum > 0.0 {
      StrictlySameSigns(t, sum, product);
    }
  }

  lemma {:induction false} SumsDominate(a: seq<real>, b: seq<real>, c: seq<real>, d: seq<real>)
    requires |a| == |b| == |c| == |d|
    requires forall i | 0 <= i < |a| :: a[i] >= b[i] + c[i] + 2.0 * d[i]
    ensures Sum(a) >= Sum(b) + Sum(c) + 2.0 * Sum(d)
  {
    if a != [] { SumsDominate(a[1..], b[1..], c[1..], d[1..]); }
  }

  /** `paid` bounds, coordinate by coordinate, what moving from `x` to `y` gains. */
  ghost predicate Variation(values: seq<real>, x: seq<real>, y: seq<real>, paid: seq<real>) {
    && |values| == |x| == |y| == |paid|
    && forall i | 0 <= i < |x| :: Sq(y[i] - values[i]) >= Sq(x[i] - values[i]) + Sq(y[i] - x[i]) + 2.0 * paid[i]
  }

  lemma ClippedVariation(values: seq<real>, caps: seq<real>, t: real, y: seq<real>)
    requires |values| == |caps| == |y| && InBox(y, caps)
    ensures var x := Clipped(values, caps, t); Variation(values, x, y, Scaled(t, Minus(x, y)))
  {
    var x := Clipped(values, caps, t);
    forall i | 0 <= i < |x|
      ensures Sq(y[i] - values[i]) >= Sq(x[i] - values[i]) + Sq(y[i] - x[i]) + 2.0 * Scaled(t, Minus(x, y))[i]
    {
      ScaledMinusAt(t, x, y, i);
      ClipVariation(values[i], caps[i], t, y[i], x[i], Scaled(t, Minus(x, y))[i]);
    }
  }

  lemma ScaledMinusAt(t: real, x: seq<real>, y: seq<real>, i: nat)
    requires |x| == |y| && i < |x|
    ensures Scaled(t, Minus(x, y))[i] == Weighed(t, x[i] - y[i])
  {
    assert Minus(x, y)[i] == x[i] - y[i];
  }

  /** Moving away costs the distance moved, up to what is paid. */
  lemma MovingCosts(values: seq<real>, x: seq<real>, y: seq<real>, paid: seq<real>)
    requires Variation(values, x, y, paid)
    ensures Dist2(y, values) >= Dist2(x, values) + Dist2(y, x) + 2.0 * Sum(paid)
  {
    SumsDominate(Squares(y, values), Squares(x, values), Squares(y, x), paid);
  }

  lemma SquarePositive(d: real)
    requires d != 0.0
    ensures Sq(d) > 0.0
  {
    StrictlySameSigns(d, d, Sq(d));
  }

  lemma SquareDefinite(d: real)
    ensures Sq(d) >= 0.0 && (Sq(d) == 0.0 ==> d == 0.0)
  {
    if d != 0.0 { SquarePositive(d); }
  }

  lemma {:induction false} SumOfNonnegative(s: seq<real>)
    requires forall i | 0 <= i < |s| :: s[i] >= 0.0
    ensures Sum(s) >= 0.0 && (Sum(s) == 0.0 ==> forall i | 0 <= i < |s| :: s[i] == 0.0)
  {
    if s != [] { SumOfNonnegative(s[1..]); }
  }

  lemma Dist2Definite(a: seq<real>, b: seq<real>)
    requires |a| == |b|
    ensures Dist2(a, b) >= 0.0 && (Dist2(a, b) == 0.0 ==> a == b)
  {
    forall i | 0 <= i < |a| ensures Squares(a, b)[i] >= 0.0 && (Squares(a, b)[i] == 0.0 ==> a[i] == b[i]) {
      SquareDefinite(a[i] - b[i]);
    }
    SumOfNonnegative(Squares(a, b));
    if Dist2(a, b) == 0.0 {
      assert forall i | 0 <= i < |a| :: Squares(a, b)[i] == 0.0;
    }
  }

  /** `x` is the Euclidean projection of `values` onto the vectors in 0..cap whose sum is at most `limit`. */
  ghost predicate IsProjection(x: seq<real>, values: seq<real>, caps: seq<real>, limit: real) {
    && |x| == |values| == |caps| && InBox(x, caps) && Sum(x) <= limit
    && forall y: seq<real> | |y| == |x| && InBox(y, caps) && Sum(y) <= limit ::
         Dist2(x, values) <= Dist2(y, values) && (Dist2(x, values) == Dist2(y, values) ==> y == x)
  }

  lemma NoVectorIsNearer(values: seq<real>, caps: seq<real>, t: real, y: seq<real>)
    requires |values| == |caps| == |y| && InBox(y, caps)
    requires t == 0.0 || (t > 0.0 && Sum(y) <= Total(values, caps, t))
    ensures var x := Clipped(values, caps, t);
      Dist2(x, values) <= Dist2(y, values) && (Dist2(x, values) == Dist2(y, values) ==> y == x)
  {
    var x := Clipped(values, caps, t);
    ClippedVariation(values, caps, t, y);
    SumOfMinus(x, y);
    ScaledIsNotNegative(t, Minus(x, y));
    Nearest(values, x, y, Scaled(t, Minus(x, y)));
  }

  lemma Nearest(values: seq<real>, x: seq<real>, y: seq<real>, paid: seq<real>)
    requires Variation(values, x, y, paid) && Sum(paid) >= 0.0
    ensures Dist2(x, values) <= Dist2(y, values) && (Dist2(x, values) == Dist2(y, values) ==> y == x)
  {
    MovingCosts(values, x, y, paid);
    Dist2Definite(y, x);
  }

  /** Clipping at a non-negative threshold projects onto the sum it reaches; at zero, onto any larger one. */
  lemma ClippedIsProjection(values: seq<real>, caps: seq<real>, t: real, limit: real)
    requires |values| == |caps| && t >= 0.0
    requires Total(values, caps, t) <= limit && (t > 0.0 ==> limit == Total(values, caps, t))
    ensures IsProjection(Clipped(values, caps, t), values, caps, limit)
  {
    var x := Clipped(values, caps, t);
    forall y: seq<real> | |y| == |x| && InBox(y, caps) && Sum(y) <= limit
      ensures Dist2(x, values) <= Dist2(y, values) && (Dist2(x, values) == Dist2(y, values) ==> y == x)
    {
      NoVectorIsNearer(values, caps, t, y);
    }
  }

  // ---- bisection -----------------------------------------------------------------------

  function Pow2(k: nat): (r: real)
    ensures r >= 1.0
  {
    if k == 0 then 1.0 else 2.0 * Pow2(k - 1)
  }

  function Range(n: nat): seq<nat> { seq(n, i => i) }

  /** The interval left after a halving for each of `rounds`. */
  function Halved(width: real, rounds: seq<nat>): real {
    if rounds == [] then width else Halved(width, rounds[..|rounds| - 1]) / 2.0
  }

  /** That is the first one divided by two to their number. */
  lemma {:induction false} HalvedIsDivided(width: real, rounds: seq<nat>)
    ensures Halved(width, rounds) == width / Pow2(|rounds|)
  {
    if rounds != [] {
      HalvedIsDivided(width, rounds[..|rounds| - 1]);
      HalfOfQuotient(width, Pow2(|rounds| - 1));
    }
  }

  lemma HalfOfQuotient(width: real, power: real)
    requires power >= 1.0
    ensures width / power / 2.0 == width / (2.0 * power)
  {
    var q := width / power;
    assert q * power == width;
    assert (q / 2.0) * (2.0 * power) == width;
  }

  const ROUNDS := 80

  /** How far below the budget eighty halvings of an interval may leave `n` clipped values. */
  function Slack(n: nat, width: real): real { n as real * Halved(width, Range(ROUNDS)) }

  predicate IsLowest(x: real, s: seq<real>) { x in s && forall i | 0 <= i < |s| :: x <= s[i] }

  method Lowest(s: seq<real>) returns (x: real)
    requires s != []
    ensures IsLowest(x, s)
  {
    x := s[0];
    for i := 1 to |s|
      invariant x in s && forall j | 0 <= j < i :: x <= s[j]
    {
      if s[i] < x { x := s[i]; }
    }
  }

  function Least(s: seq<real>): (x: real)
    requires s != []
    ensures IsLowest(x, s)
  {
    if |s| == 1 then s[0] else Min(Least(s[..|s| - 1]), s[|s| - 1])
  }

  lemma LowestIsLeast(x: real, s: seq<real>)
    requires s != [] && IsLowest(x, s)
    ensures x == Least(s)
  {
    assert IsLowest(Least(s), s);
    var i :| 0 <= i < |s| && s[i] == x;
    var j :| 0 <= j < |s| && s[j] == Least(s);
    assert x <= s[j] && Least(s) <= s[i];
  }

  function Negated(a: seq<real>): seq<real> { seq(|a|, i requires 0 <= i < |a| => -a[i]) }

  lemma {:induction false} TotalAtTop(values: seq<real>, caps: seq<real>, top: real)
    requires |values| == |caps| && forall i | 0 <= i < |values| :: values[i] <= top
    ensures Total(values, caps, top) == 0.0
  {
    if values != [] {
      TotalUnfolds(values, caps, top);
      TotalAtTop(values[1..], caps[1..], top);
    }
  }

  lemma {:induction false} TotalAtBottom(values: seq<real>, caps: seq<real>, bottom: real)
    requires |values| == |caps| && forall i | 0 <= i < |values| :: bottom <= values[i] - caps[i]
    ensures Total(values, caps, bottom) >= Total(values, caps, 0.0)
  {
    if values != [] {
      TotalUnfolds(values, caps, bottom);
      TotalUnfolds(values, caps, 0.0);
      TotalAtBottom(values[1..], caps[1..], bottom);
    }
  }

  /** The interval 0 < threshold where the total crosses the budget. */
  lemma StartBrackets(values: seq<real>, caps: seq<real>, budget: real, lo: real, hi: real)
    requires |values| == |caps| && budget > 0.0 && Total(values, caps, 0.0) > budget
    requires IsLowest(lo, Minus(values, caps)) && IsLowest(-hi, Negated(values))
    ensures Total(values, caps, lo) > budget >= Total(values, caps, hi)
  {
    forall i | 0 <= i < |values| ensures values[i] <= hi && lo <= values[i] - caps[i] {
      assert -hi <= Negated(values)[i] && lo <= Minus(values, caps)[i];
    }
    TotalAtTop(values, caps, hi);
    TotalAtBottom(values, caps, lo);
  }

  lemma EndBrackets(values: seq<real>, caps: seq<real>, budget: real, lower: real, upper: real, gap: real)
    requires |values| == |caps| && Total(values, caps, 0.0) > budget && upper == lower + gap
    requires Total(values, caps, lower) > budget >= Total(values, caps, upper)
    ensures upper > 0.0
    ensures budget - |values| as real * gap < Total(values, caps, upper)
  {
    if upper <= lower { TotalFalls(values, caps, upper, lower); }
    TotalFalls(values, caps, lower, upper);
    if upper <= 0.0 { TotalFalls(values, caps, upper, 0.0); }
    assert upper - lower == gap;
  }

  lemma {:induction false} SumAppend(s: seq<real>, x: real)
    ensures Sum(s + [x]) == Sum(s) + x
  {
    if s == [] {
      assert [] + [x] == [x] && [x][1..] == [];
    } else {
      assert (s + [x])[1..] == s[1..] + [x];
      SumAppend(s[1..], x);
    }
  }

  /** Adds up the clipped values. */
  method TotalAt(values: seq<real>, caps: seq<real>, t: real) returns (total: real)
    requires |values| == |caps|
    ensures total == Total(values, caps, t)
  {
    total := 0.0;
    ghost var clipped := Clipped(values, caps, t);
    for i := 0 to |values|
      invariant total == Sum(clipped[..i])
    {
      total := total + Clip(values[i], caps[i], t);
      SumAppend(clipped[..i], clipped[i]);
      assert clipped[..i + 1] == clipped[..i] + [clipped[i]];
    }
    assert clipped[..|values|] == clipped;
  }

  lemma NarrowEnough(values: seq<real>, caps: seq<real>, budget: real, lower: real, upper: real, width: real)
    requires |values| == |caps| && Total(values, caps, 0.0) > budget && upper - lower == Halved(width, Range(ROUNDS))
    requires Total(values, caps, lower) > budget >= Total(values, caps, upper)
    ensures upper > 0.0 && budget - Slack(|values|, width) < Total(values, caps, upper)
  {
    EndBrackets(values, caps, budget, lower, upper, Halved(width, Range(ROUNDS)));
  }

  /** The total crosses the budget between `lower` and `upper`. */
  ghost predicate Brackets(values: seq<real>, caps: seq<real>, budget: real, lower: real, upper: real)
    requires |values| == |caps|
  {
    Total(values, caps, lower) > budget >= Total(values, caps, upper)
  }

  /** The interval after a round of bisection for each of `rounds`. */
  function Bracketed(values: seq<real>, caps: seq<real>, budget: real, lo: real, hi: real,
                     rounds: seq<nat>): (real, real)
    requires |values| == |caps|
  {
    if rounds == [] then (lo, hi)
    else
      var (lower, upper) := Bracketed(values, caps, budget, lo, hi, rounds[..|rounds| - 1]);
      var midpoint := (lower + upper) / 2.0;
      if Total(values, caps, midpoint) > budget then (midpoint, upper) else (lower, midpoint)
  }

  /** The least threshold that can matter. */
  function StartLow(values: seq<real>, caps: seq<real>): (lo: real)
    requires |values| == |caps| > 0
    ensures IsLowest(lo, Minus(values, caps))
  {
    Least(Minus(values, caps))
  }

  /** The greatest, where nothing is left. */
  function StartHigh(values: seq<real>): (hi: real)
    requires values != []
    ensures IsLowest(-hi, Negated(values))
  {
    -Least(Negated(values))
  }

  /** The threshold the search ends at. */
  function Threshold(values: seq<real>, caps: seq<real>, budget: real): real
    requires |values| == |caps| > 0
  {
    Bracketed(values, caps, budget, StartLow(values, caps), StartHigh(values), Range(ROUNDS)).1
  }

  /** Every round keeps the crossing inside and halves the interval. */
  lemma {:induction false} BracketedFacts(values: seq<real>, caps: seq<real>, budget: real, lo: real, hi: real,
                                          rounds: seq<nat>)
    requires |values| == |caps| && Brackets(values, caps, budget, lo, hi)
    ensures var (lower, upper) := Bracketed(values, caps, budget, lo, hi, rounds);
      Brackets(values, caps, budget, lower, upper) && upper - lower == Halved(hi - lo, rounds)
  {
    if rounds != [] { BracketedFacts(values, caps, budget, lo, hi, rounds[..|rounds| - 1]); }
  }

  /** The width of the interval the search starts from. */
  function StartWidth(values: seq<real>, caps: seq<real>): real
    requires |values| == |caps| > 0
  {
    StartHigh(values) - StartLow(values, caps)
  }

  lemma SearchEnds(values: seq<real>, caps: seq<real>, budget: real, lo: real, hi: real, width: real)
    requires |values| == |caps| && Total(values, caps, 0.0) > budget && Brackets(values, caps, budget, lo, hi)
      && width == hi - lo
    ensures var upper := Bracketed(values, caps, budget, lo, hi, Range(ROUNDS)).1;
      upper > 0.0 && budget - Slack(|values|, width) < Total(values, caps, upper) <= budget
  {
    BracketedFacts(values, caps, budget, lo, hi, Range(ROUNDS));
    var end := Bracketed(values, caps, budget, lo, hi, Range(ROUNDS));
    NarrowEnough(values, caps, budget, end.0, end.1, width);
  }

  /** When clipping alone exceeds the budget, the threshold is positive and the total there just below the budget. */
  lemma ThresholdFacts(values: seq<real>, caps: seq<real>, budget: real)
    requires |values| == |caps| > 0 && budget > 0.0 && Total(values, caps, 0.0) > budget
    ensures var t := Threshold(values, caps, budget);
      t > 0.0 && budget - Slack(|values|, StartWidth(values, caps)) < Total(values, caps, t) <= budget
  {
    StartBrackets(values, caps, budget, StartLow(values, caps), StartHigh(values));
    SearchEnds(values, caps, budget, StartLow(values, caps), StartHigh(values), StartWidth(values, caps));
  }

  /** Eighty halvings. */
  method Narrow(values: seq<real>, caps: seq<real>, budget: real, lo: real, hi: real) returns (lower: real, upper: real)
    requires |values| == |caps|
    ensures (lower, upper) == Bracketed(values, caps, budget, lo, hi, Range(ROUNDS))
  {
    lower, upper := lo, hi;
    for k := 0 to ROUNDS
      invariant (lower, upper) == Bracketed(values, caps, budget, lo, hi, Range(k))
    {
      var midpoint := (lower + upper) / 2.0;
      var total := TotalAt(values, caps, midpoint);
      assert Range(k + 1)[..k] == Range(k);
      if total > budget {
        lower := midpoint;
      } else {
        upper := midpoint;
      }
    }
  }

  /** The search for the threshold, between the least and the greatest that can matter. */
  method Bisect(values: seq<real>, caps: seq<real>, budget: real) returns (upper: real)
    requires |values| == |caps| > 0
    ensures upper == Threshold(values, caps, budget)
  {
    var lo := Lowest(Minus(values, caps));
    assert lo == StartLow(values, caps) by { LowestIsLeast(lo, Minus(values, caps)); }
    var negHighest := Lowest(Negated(values));
    var hi := -negHighest;
    assert hi == StartHigh(values) by { LowestIsLeast(negHighest, Negated(values)); }
    var lower;
    lower, upper := Narrow(values, caps, budget, lo, hi);
  }
}
