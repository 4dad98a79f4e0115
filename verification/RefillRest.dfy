/** Where rounds of ez/live/optimizer_allocator.py that fill the weights up to the budget come to rest, and when that is
    the best among the weights with as much of the target. */
module RefillRest {
  import opened Reals
  import opened Simplex
  import opened Refill
  import opened Allocator
  import opened GradientLaws
  import opened DescentLaws
  import opened RefillShares

  // ---- a rest point of rounds that refill ------------------------------------------------

  /** No weights with as much of the target have a lower risk-adjusted distance to it. */
  ghost predicate IsLeast(w: seq<real>, t: seq<real>, sigma: seq<seq<real>>, u: seq<real>, aversion: real)
    requires |w| == |t| == |u| && Square(sigma, |w|)
  {
    forall y: seq<real> | |y| == |w| && AsMuch(y, w, u, Priorities(t)) ::
      Objective(w, t, sigma, aversion) <= Objective(y, t, sigma, aversion)
  }

  /** And none but these have one as low. */
  ghost predicate IsOnlyLeast(w: seq<real>, t: seq<real>, sigma: seq<seq<real>>, u: seq<real>, aversion: real)
    requires |w| == |t| == |u| && Square(sigma, |w|)
  {
    && IsLeast(w, t, sigma, u, aversion)
    && forall y: seq<real> | |y| == |w| && AsMuch(y, w, u, Priorities(t)) ::
         Objective(w, t, sigma, aversion) == Objective(y, t, sigma, aversion) ==> y == w
  }

  /** These weights have exactly as much of the target and a lower distance. */
  ghost predicate Beats(y: seq<real>, w: seq<real>, t: seq<real>, sigma: seq<seq<real>>, u: seq<real>, aversion: real)
    requires |w| == |t| == |u| == |y| && Square(sigma, |w|)
  {
    && AsMuch(y, w, u, Priorities(t)) && Dot(Priorities(t), y) == Dot(Priorities(t), w)
    && Objective(y, t, sigma, aversion) < Objective(w, t, sigma, aversion)
  }

  ghost predicate IsBeaten(w: seq<real>, t: seq<real>, sigma: seq<seq<real>>, u: seq<real>, aversion: real)
    requires |w| == |t| == |u| && Square(sigma, |w|)
  {
    exists y: seq<real> :: |y| == |w| && Beats(y, w, t, sigma, u, aversion)
  }

  /** How far the step would take a symbol down. */
  function Pull(w: seq<real>, v: seq<real>, i: nat): real
    requires |w| == |v| && i < |w|
  {
    w[i] - v[i]
  }

  /** For its priority the step pulls no harder at `i` than at `j`. */
  predicate PulledNoHarder(w: seq<real>, v: seq<real>, priority: seq<real>, i: nat, j: nat)
    requires |w| == |v| == |priority| && i < |w| && j < |w|
  {
    Weighed(Pull(w, v, i), priority[j]) <= Weighed(Pull(w, v, j), priority[i])
  }

  /** For their priorities the step pulls no symbol that could lose weight harder than one that could gain some. */
  ghost predicate EvenlyPulled(w: seq<real>, v: seq<real>, u: seq<real>, priority: seq<real>)
    requires |w| == |v| == |u| == |priority|
  {
    forall i, j | 0 <= i < |w| && 0 <= j < |w| && w[i] > 0.0 && Expandable(w[j], u[j]) ::
      PulledNoHarder(w, v, priority, i, j)
  }

  /** The step takes no symbol that holds weight below 0. */
  predicate WantsNoShort(w: seq<real>, v: seq<real>)
    requires |w| == |v|
  {
    forall i | 0 <= i < |w| && w[i] > 0.0 :: v[i] >= 0.0
  }

  /** The step takes one symbol with room below 0 and another one not. */
  ghost predicate WantsShort(w: seq<real>, v: seq<real>, u: seq<real>)
    requires |w| == |v| == |u|
  {
    exists i, j | 0 <= i < |w| && 0 <= j < |w| ::
      Expandable(w[i], u[i]) && Expandable(w[j], u[j]) && v[i] < 0.0 <= v[j]
  }

  /** What the refill makes of the pull at a symbol. */
  lemma PullFacts(v: seq<real>, u: seq<real>, p: seq<real>, w: seq<real>, priority: seq<real>, rate: real, i: nat,
                  share: real)
    requires |v| == |u| == |w| == |priority| && p == Clipped(v, u, 0.0) && InBox(w, u) && rate > 0.0 && i < |v|
    requires priority[i] >= LEAST_PRIORITY && InProportion(p, w, u, priority, rate)
    requires share == Weighed(rate, priority[i])
    ensures share > 0.0
    ensures Expandable(w[i], u[i]) ==> Pull(w, v, i) >= share
    ensures Expandable(w[i], u[i]) && v[i] < 0.0 ==> w[i] > 0.0 && Pull(w, v, i) > share
    ensures v[i] >= 0.0 ==> Pull(w, v, i) <= share
  {
    HandedOutAt(p, w, u, priority, rate, i);
    PositivePart(rate, priority[i], share);
    PullAtSymbol(v[i], u[i], p[i], w[i], share, Pull(w, v, i));
  }

  lemma PositivePart(rate: real, priority: real, share: real)
    requires rate > 0.0 && priority >= LEAST_PRIORITY && share == Weighed(rate, priority)
    ensures share > 0.0
  {
    StrictlySameSigns(rate, priority, share);
  }

  lemma PullAtSymbol(v: real, cap: real, p: real, w: real, share: real, pull: real)
    requires p == Clip(v, cap, 0.0) && HandedOut(p, w, cap, share) && 0.0 <= w <= Max(0.0, cap) && share > 0.0
    requires pull == w - v
    ensures Expandable(w, cap) ==> pull >= share
    ensures Expandable(w, cap) && v < 0.0 ==> w > 0.0 && pull > share
    ensures v >= 0.0 ==> pull <= share
  {
  }

  lemma CrossedBelow(rate: real, a: real, b: real, x: real, y: real)
    requires a > 0.0 && b > 0.0 && x <= Weighed(rate, a) && y >= Weighed(rate, b)
    ensures Weighed(x, b) <= Weighed(y, a)
  {
    CrossedSwap(rate, a, b);
    MulOrder(x, Weighed(rate, a), b);
    MulOrder(Weighed(rate, b), y, a);
  }

  lemma CrossedAbove(rate: real, a: real, b: real, x: real, y: real)
    requires a > 0.0 && b > 0.0 && x > Weighed(rate, a) && y <= Weighed(rate, b)
    ensures Weighed(x, b) > Weighed(y, a)
  {
    CrossedSwap(rate, a, b);
    var more := x - Weighed(rate, a);
    StrictlySameSigns(more, b, Weighed(more, b));
    SharesAdd(Weighed(rate, a), more, b);
    MulOrder(y, Weighed(rate, b), a);
  }

  lemma CrossedSwap(rate: real, a: real, b: real)
    ensures Weighed(Weighed(rate, a), b) == Weighed(Weighed(rate, b), a)
  {
  }

  lemma NoShortIsEven(v: seq<real>, u: seq<real>, p: seq<real>, w: seq<real>, priority: seq<real>, rate: real)
    requires |v| == |u| == |w| == |priority| && p == Clipped(v, u, 0.0) && InBox(w, u) && rate > 0.0
    requires (forall i | 0 <= i < |priority| :: priority[i] >= LEAST_PRIORITY) && InProportion(p, w, u, priority, rate)
    requires WantsNoShort(w, v)
    ensures EvenlyPulled(w, v, u, priority)
  {
    forall i, j | 0 <= i < |w| && 0 <= j < |w| && w[i] > 0.0 && Expandable(w[j], u[j])
      ensures PulledNoHarder(w, v, priority, i, j)
    {
      EvenPair(v, u, p, w, priority, rate, i, j);
    }
  }

  lemma ShortIsUneven(v: seq<real>, u: seq<real>, p: seq<real>, w: seq<real>, priority: seq<real>, rate: real)
    requires |v| == |u| == |w| == |priority| && p == Clipped(v, u, 0.0) && InBox(w, u) && rate > 0.0
    requires (forall i | 0 <= i < |priority| :: priority[i] >= LEAST_PRIORITY) && InProportion(p, w, u, priority, rate)
    requires WantsShort(w, v, u)
    ensures !EvenlyPulled(w, v, u, priority)
  {
    var i, j :| 0 <= i < |w| && 0 <= j < |w| && Expandable(w[i], u[i]) && Expandable(w[j], u[j])
      && v[i] < 0.0 <= v[j];
    EvenPair(v, u, p, w, priority, rate, i, j);
  }

  lemma EvenPair(v: seq<real>, u: seq<real>, p: seq<real>, w: seq<real>, priority: seq<real>, rate: real, i: nat,
                 j: nat)
    requires |v| == |u| == |w| == |priority| && p == Clipped(v, u, 0.0) && InBox(w, u) && rate > 0.0
    requires i < |w| && j < |w| && priority[i] >= LEAST_PRIORITY && priority[j] >= LEAST_PRIORITY
    requires InProportion(p, w, u, priority, rate)
    ensures v[i] >= 0.0 && Expandable(w[j], u[j]) ==> PulledNoHarder(w, v, priority, i, j)
    ensures Expandable(w[i], u[i]) && v[i] < 0.0 <= v[j] ==> w[i] > 0.0 && !PulledNoHarder(w, v, priority, i, j)
  {
    PullFacts(v, u, p, w, priority, rate, i, Weighed(rate, priority[i]));
    PullFacts(v, u, p, w, priority, rate, j, Weighed(rate, priority[j]));
    if v[i] >= 0.0 && Expandable(w[j], u[j]) {
      CrossedBelow(rate, priority[i], priority[j], Pull(w, v, i), Pull(w, v, j));
    }
    if Expandable(w[i], u[i]) && v[i] < 0.0 <= v[j] {
      CrossedAbove(rate, priority[i], priority[j], Pull(w, v, i), Pull(w, v, j));
    }
  }

  // ---- evenly pulled weights are the least -----------------------------------------------

  /** The symbols with room are pulled at least at this rate, and one of them no harder. */
  ghost predicate LeastRate(w: seq<real>, v: seq<real>, u: seq<real>, priority: seq<real>, n: nat, rate: real, at: int)
    requires |w| == |v| == |u| == |priority| && n <= |w|
  {
    && rate >= 0.0 && -1 <= at < n && (forall j | 0 <= j < n && Expandable(w[j], u[j]) :: at >= 0)
    && (forall j | 0 <= j < n && Expandable(w[j], u[j]) :: Pull(w, v, j) >= Weighed(rate, priority[j]))
    && (at >= 0 ==> Expandable(w[at], u[at]) && Pull(w, v, at) == Weighed(rate, priority[at]))
  }

  lemma {:induction false} FindLeastRate(w: seq<real>, v: seq<real>, u: seq<real>, priority: seq<real>, n: nat)
    returns (rate: real, at: int)
    requires |w| == |v| == |u| == |priority| && n <= |w|
    requires forall j | 0 <= j < |w| :: priority[j] >= LEAST_PRIORITY
    requires forall j | 0 <= j < |w| && Expandable(w[j], u[j]) :: Pull(w, v, j) >= 0.0
    ensures LeastRate(w, v, u, priority, n, rate, at)
  {
    rate, at := 0.0, -1;
    if n > 0 {
      rate, at := FindLeastRate(w, v, u, priority, n - 1);
      if Expandable(w[n - 1], u[n - 1]) {
        var last := RateAt(Pull(w, v, n - 1), priority[n - 1]);
        if at == -1 || last < rate {
          SlowerRate(w, v, u, priority, n - 1, rate, at, last);
          rate, at := last, n - 1;
        } else {
          MulOrder(rate, last, priority[n - 1]);
        }
      }
    }
  }

  lemma SlowerRate(w: seq<real>, v: seq<real>, u: seq<real>, priority: seq<real>, n: nat, rate: real, at: int,
                   last: real)
    requires |w| == |v| == |u| == |priority| && n < |w| && LeastRate(w, v, u, priority, n, rate, at)
    requires forall j | 0 <= j < |w| :: priority[j] >= LEAST_PRIORITY
    requires Expandable(w[n], u[n]) && last >= 0.0 && Pull(w, v, n) == Weighed(last, priority[n])
    requires at == -1 || last < rate
    ensures LeastRate(w, v, u, priority, n + 1, last, n)
  {
    forall j | 0 <= j < n && Expandable(w[j], u[j]) ensures Pull(w, v, j) >= Weighed(last, priority[j]) {
      MulOrder(last, rate, priority[j]);
    }
  }

  lemma RateAt(pull: real, priority: real) returns (rate: real)
    requires pull >= 0.0 && priority > 0.0
    ensures rate >= 0.0 && pull == Weighed(rate, priority)
  {
    rate := pull / priority;
    if rate < 0.0 { StrictlySameSigns(-rate, priority, -pull); }
  }

  /** No symbol with weight is pulled at a higher rate. */
  lemma NoneFaster(w: seq<real>, v: seq<real>, u: seq<real>, priority: seq<real>, rate: real, at: int, i: nat)
    requires |w| == |v| == |u| == |priority| && i < |w| && w[i] > 0.0 && EvenlyPulled(w, v, u, priority)
    requires LeastRate(w, v, u, priority, |w|, rate, at) && at >= 0 && priority[at] >= LEAST_PRIORITY
    ensures Pull(w, v, i) <= Weighed(rate, priority[i])
  {
    assert PulledNoHarder(w, v, priority, i, at);
    Cancelled(Pull(w, v, i), rate, priority[i], priority[at], Pull(w, v, at));
  }

  lemma Cancelled(pull: real, rate: real, a: real, b: real, least: real)
    requires b > 0.0 && least == Weighed(rate, b) && Weighed(pull, b) <= Weighed(least, a)
    ensures pull <= Weighed(rate, a)
  {
    assert least * a == (rate * a) * b;
    if pull > rate * a { StrictlySameSigns(pull - rate * a, b, (pull - rate * a) * b); }
  }

  lemma EvenAtSymbol(pull: real, way: real, share: real)
    requires (way > 0.0 ==> pull >= share) && (way < 0.0 ==> pull <= share)
    ensures Weighed(pull, way) >= Weighed(share, way)
  {
    NotOpposed(pull - share, way);
    Distribute(way, pull - share, share);
  }

  lemma EvenAlong(w: seq<real>, v: seq<real>, u: seq<real>, priority: seq<real>, rate: real, at: int, y: seq<real>,
                  along: real)
    requires |w| == |v| == |u| == |priority| == |y| && EvenlyPulled(w, v, u, priority)
    requires LeastRate(w, v, u, priority, |w|, rate, at) && at >= 0
    requires forall j | 0 <= j < |w| :: priority[j] >= LEAST_PRIORITY
    requires AsMuch(y, w, u, priority) && along == Dot(priority, Minus(y, w))
    ensures Dot(Minus(w, v), Minus(y, w)) >= 0.0
  {
    var e, shares := Minus(y, w), Scaled(rate, priority);
    forall i | 0 <= i < |w| ensures Weighed(Minus(w, v)[i], e[i]) >= Weighed(shares[i], e[i]) {
      ScaledAt(rate, priority, i);
      if w[i] > 0.0 { NoneFaster(w, v, u, priority, rate, at, i); }
      EvenAtSymbol(Minus(w, v)[i], e[i], shares[i]);
    }
    DotOrder(Minus(w, v), shares, e);
    ScaledAlong(priority, rate, e, along);
    AlongIsNotNegative(priority, w, y, along);
    UpShare(rate, along);
  }

  /** Where nobody has room, no other weights have as much. */
  lemma {:induction false} NobodyGains(w: seq<real>, y: seq<real>, priority: seq<real>)
    requires |w| == |y| == |priority| && forall i | 0 <= i < |w| :: y[i] <= w[i] && priority[i] > 0.0
    ensures Dot(priority, y) <= Dot(priority, w) && (Dot(priority, y) == Dot(priority, w) ==> y == w)
  {
    if w != [] {
      NobodyGains(w[1..], y[1..], priority[1..]);
      DotFirst(priority, y);
      DotFirst(priority, w);
      SmallerFactor(priority[0], y[0], w[0]);
      if y[0] < w[0] { StrictlySameSigns(priority[0], w[0] - y[0], priority[0] * (w[0] - y[0])); }
      assert y[1..] == w[1..] && y[0] == w[0] ==> y == w by {
        assert y == [y[0]] + y[1..] && w == [w[0]] + w[1..];
      }
    }
  }

  lemma SlopeOfPull(w: seq<real>, t: seq<real>, sigma: seq<seq<real>>, aversion: real, step: real, e: seq<real>,
                    slope: real)
    requires |w| == |t| == |e| && Square(sigma, |w|) && slope == Dot(Gradient(w, t, sigma, aversion), e)
    ensures Dot(Minus(w, Candidate(w, t, sigma, aversion, step)), e) == Weighed(step, slope)
  {
    var v, g := Candidate(w, t, sigma, aversion, step), Gradient(w, t, sigma, aversion);
    CandidateIsStep(w, t, sigma, aversion, step);
    assert Minus(w, v) == Scaled(step, g);
    ScaledAlong(g, step, e, slope);
  }

  lemma EvenIsLeastAt(w: seq<real>, t: seq<real>, sigma: seq<seq<real>>, u: seq<real>, aversion: real, step: real,
                      v: seq<real>, y: seq<real>)
    requires |w| == |t| == |u| == |v| == |y| == |sigma| && Symmetric(sigma) && Semidefinite(sigma)
    requires aversion >= 0.0 && step > 0.0 && v == Candidate(w, t, sigma, aversion, step)
    requires forall j | 0 <= j < |w| && Expandable(w[j], u[j]) :: Pull(w, v, j) >= 0.0
    requires EvenlyPulled(w, v, u, Priorities(t)) && AsMuch(y, w, u, Priorities(t))
    ensures Objective(w, t, sigma, aversion) <= Objective(y, t, sigma, aversion)
    ensures Objective(w, t, sigma, aversion) == Objective(y, t, sigma, aversion) ==> y == w
  {
    var priority := Priorities(t);
    var rate, at := FindLeastRate(w, v, u, priority, |w|);
    if at == -1 {
      NobodyGains(w, y, priority);
      assert y == w;
    } else {
      EvenIsUphill(w, t, sigma, u, aversion, step, v, y, priority, rate, at);
      UphillIsHigher(w, y, t, sigma, aversion);
    }
  }

  lemma EvenIsUphill(w: seq<real>, t: seq<real>, sigma: seq<seq<real>>, u: seq<real>, aversion: real, step: real,
                     v: seq<real>, y: seq<real>, priority: seq<real>, rate: real, at: int)
    requires |w| == |t| == |u| == |v| == |y| == |priority| && Square(sigma, |w|)
    requires step > 0.0 && v == Candidate(w, t, sigma, aversion, step)
    requires EvenlyPulled(w, v, u, priority) && AsMuch(y, w, u, priority)
    requires LeastRate(w, v, u, priority, |w|, rate, at) && at >= 0
    requires forall j | 0 <= j < |w| :: priority[j] >= LEAST_PRIORITY
    ensures Dot(Gradient(w, t, sigma, aversion), Minus(y, w)) >= 0.0
  {
    var slope := Dot(Gradient(w, t, sigma, aversion), Minus(y, w));
    EvenAlong(w, v, u, priority, rate, at, y, Dot(priority, Minus(y, w)));
    SlopeOfPull(w, t, sigma, aversion, step, Minus(y, w), slope);
    PositiveRate(step, slope, Weighed(step, slope));
  }

  lemma UphillIsHigher(w: seq<real>, y: seq<real>, t: seq<real>, sigma: seq<seq<real>>, aversion: real)
    requires |w| == |t| == |y| == |sigma| && Symmetric(sigma) && Semidefinite(sigma) && aversion >= 0.0
    requires Dot(Gradient(w, t, sigma, aversion), Minus(y, w)) >= 0.0
    ensures Objective(w, t, sigma, aversion) <= Objective(y, t, sigma, aversion)
    ensures Objective(w, t, sigma, aversion) == Objective(y, t, sigma, aversion) ==> y == w
  {
    var d := WayTo(w, y);
    AboveAlong(w, d, t, sigma, aversion);
    Dist2Definite(y, w);
  }

  // ---- unevenly pulled weights are not ---------------------------------------------------

  /** Weight of `i` for weight of `j`, with the same priorities in all. */
  function Exchange(priority: seq<real>, i: nat, j: nat): (d: seq<real>)
    requires i < |priority| && j < |priority| && i != j
    ensures |d| == |priority|
  {
    Plus(Scaled(-priority[j], Unit(|priority|, i)), Scaled(priority[i], Unit(|priority|, j)))
  }

  lemma ExchangeAt(priority: seq<real>, i: nat, j: nat, k: nat)
    requires i < |priority| && j < |priority| && i != j && k < |priority|
    ensures Exchange(priority, i, j)[k] == if k == i then -priority[j] else if k == j then priority[i] else 0.0
  {
    ScaledAt(-priority[j], Unit(|priority|, i), k);
    ScaledAt(priority[i], Unit(|priority|, j), k);
  }

  lemma DotExchange(a: seq<real>, priority: seq<real>, i: nat, j: nat, lost: real, gained: real)
    requires |a| == |priority| && i < |priority| && j < |priority| && i != j
    requires lost == Weighed(a[i], priority[j]) && gained == Weighed(a[j], priority[i])
    ensures Dot(a, Exchange(priority, i, j)) == gained - lost
  {
    var taken := Weighed(a[i], -priority[j]);
    NegatedShare(a[i], priority[j]);
    DotOfUnits(a, -priority[j], priority[i], i, j, taken, gained);
  }

  lemma DotOfUnits(a: seq<real>, x: real, y: real, i: nat, j: nat, first: real, second: real)
    requires i < |a| && j < |a| && first == Weighed(a[i], x) && second == Weighed(a[j], y)
    ensures |Scaled(x, Unit(|a|, i))| == |Scaled(y, Unit(|a|, j))| == |a|
    ensures Dot(a, Plus(Scaled(x, Unit(|a|, i)), Scaled(y, Unit(|a|, j)))) == first + second
  {
    DotPlus(a, Scaled(x, Unit(|a|, i)), Scaled(y, Unit(|a|, j)));
    ExchangePart(a, x, i);
    ExchangePart(a, y, j);
  }

  lemma ExchangePart(a: seq<real>, k: real, i: nat)
    requires i < |a|
    ensures |Scaled(k, Unit(|a|, i))| == |a| && Dot(a, Scaled(k, Unit(|a|, i))) == Weighed(a[i], k)
  {
    DotUnit(a, i);
    DotScaled(a, k, Unit(|a|, i), a[i]);
  }

  /** How much can be exchanged. */
  lemma RoomFor(have: real, room: real, a: real, b: real) returns (theta: real)
    requires have > 0.0 && room > 0.0 && a > 0.0 && b > 0.0
    ensures theta > 0.0 && Weighed(theta, a) <= have && Weighed(theta, b) <= room
  {
    var x, y := have / a, room / b;
    assert x * a == have && y * b == room;
    if x <= 0.0 { MulOrder(x, 0.0, a); }
    if y <= 0.0 { MulOrder(y, 0.0, b); }
    theta := Min(x, y);
    MulOrder(theta, x, a);
    MulOrder(theta, y, b);
  }

  lemma ExchangeFits(w: seq<real>, u: seq<real>, priority: seq<real>, i: nat, j: nat, theta: real)
    requires |w| == |u| == |priority| && i < |w| && j < |w| && i != j && InBox(w, u) && theta > 0.0
    requires (forall k | 0 <= k < |w| :: priority[k] >= LEAST_PRIORITY) && Expandable(w[j], u[j])
    requires Weighed(theta, priority[j]) <= w[i] && Weighed(theta, priority[i]) <= u[j] - w[j]
    ensures |Scaled(theta, Exchange(priority, i, j))| == |w|
    ensures var y := Plus(w, Scaled(theta, Exchange(priority, i, j)));
      InBox(y, u) && forall k | 0 <= k < |w| && !Expandable(w[k], u[k]) :: y[k] <= w[k]
  {
    var d := Exchange(priority, i, j);
    var y := Plus(w, Scaled(theta, d));
    UpShare(theta, priority[j]);
    UpShare(theta, priority[i]);
    forall k | 0 <= k < |w|
      ensures 0.0 <= y[k] <= Max(0.0, u[k]) && (!Expandable(w[k], u[k]) ==> y[k] <= w[k])
    {
      ScaledAt(theta, d, k);
      ExchangeAt(priority, i, j, k);
      ExchangedAt(theta, priority[j], priority[i], d[k], y[k] - w[k]);
    }
  }

  lemma ExchangedAt(theta: real, down: real, up: real, d: real, change: real)
    requires (d == -down || d == up || d == 0.0) && change == Weighed(theta, d)
    ensures d == -down ==> change == -Weighed(theta, down)
    ensures d == up ==> change == Weighed(theta, up)
    ensures d == 0.0 ==> change == 0.0
  {
    NegatedShare(theta, down);
  }

  lemma NegatedShare(k: real, x: real)
    ensures Weighed(k, -x) == -Weighed(k, x)
  {
  }

  /** An exchange against the pull lowers the objective. */
  lemma UnevenIsBeaten(w: seq<real>, t: seq<real>, sigma: seq<seq<real>>, u: seq<real>, aversion: real, step: real,
                       v: seq<real>) returns (y: seq<real>)
    requires |w| == |t| == |u| == |v| == |sigma| && Symmetric(sigma) && Semidefinite(sigma) && InBox(w, u)
    requires aversion >= 0.0 && step > 0.0 && v == Candidate(w, t, sigma, aversion, step)
    requires !EvenlyPulled(w, v, u, Priorities(t))
    ensures |y| == |w| && Beats(y, w, t, sigma, u, aversion)
  {
    var priority := Priorities(t);
    var d := UnevenStep(w, t, sigma, u, aversion, step, v, priority);
    y := PartOfExchange(w, t, sigma, u, aversion, d);
  }

  lemma UnevenStep(w: seq<real>, t: seq<real>, sigma: seq<seq<real>>, u: seq<real>, aversion: real, step: real,
                   v: seq<real>, priority: seq<real>) returns (d: seq<real>)
    requires |w| == |t| == |u| == |v| == |priority| && Square(sigma, |w|) && InBox(w, u)
    requires forall k | 0 <= k < |w| :: priority[k] >= LEAST_PRIORITY
    requires step > 0.0 && v == Candidate(w, t, sigma, aversion, step) && !EvenlyPulled(w, v, u, priority)
    ensures |d| == |w| && InBox(Plus(w, d), u) && Dot(priority, d) == 0.0
    ensures forall k | 0 <= k < |w| && !Expandable(w[k], u[k]) :: Plus(w, d)[k] <= w[k]
    ensures Dot(Gradient(w, t, sigma, aversion), d) < 0.0
  {
    var i, j := UnevenPair(w, v, u, priority);
    AgainstThePull(w, t, sigma, aversion, step, v, priority, i, j);
    d := ExchangeStep(w, t, sigma, u, aversion, priority, i, j);
  }

  lemma UnevenPair(w: seq<real>, v: seq<real>, u: seq<real>, priority: seq<real>) returns (i: nat, j: nat)
    requires |w| == |v| == |u| == |priority| && !EvenlyPulled(w, v, u, priority)
    ensures i < |w| && j < |w| && w[i] > 0.0 && Expandable(w[j], u[j]) && !PulledNoHarder(w, v, priority, i, j)
  {
    i, j :| 0 <= i < |w| && 0 <= j < |w| && w[i] > 0.0 && Expandable(w[j], u[j])
      && !PulledNoHarder(w, v, priority, i, j);
  }

  lemma AgainstThePull(w: seq<real>, t: seq<real>, sigma: seq<seq<real>>, aversion: real, step: real, v: seq<real>,
                       priority: seq<real>, i: nat, j: nat)
    requires |w| == |t| == |v| == |priority| && Square(sigma, |w|) && i < |w| && j < |w| && step > 0.0
    requires v == Candidate(w, t, sigma, aversion, step) && !PulledNoHarder(w, v, priority, i, j)
    ensures i != j && Dot(Gradient(w, t, sigma, aversion), Exchange(priority, i, j)) < 0.0
  {
    var slope := Dot(Gradient(w, t, sigma, aversion), Exchange(priority, i, j));
    SlopeOfPull(w, t, sigma, aversion, step, Exchange(priority, i, j), slope);
    PullAlongExchange(w, v, priority, i, j);
    FallingRate(step, slope, Weighed(step, slope));
  }

  lemma PullAlongExchange(w: seq<real>, v: seq<real>, priority: seq<real>, i: nat, j: nat)
    requires |w| == |v| == |priority| && i < |w| && j < |w| && i != j && !PulledNoHarder(w, v, priority, i, j)
    ensures Dot(Minus(w, v), Exchange(priority, i, j)) < 0.0
  {
    DotExchange(Minus(w, v), priority, i, j, Weighed(Pull(w, v, i), priority[j]), Weighed(Pull(w, v, j), priority[i]));
  }

  /** As much of an exchange as the weight of one symbol and the room of the other allow. */
  lemma ExchangeStep(w: seq<real>, t: seq<real>, sigma: seq<seq<real>>, u: seq<real>, aversion: real,
                     priority: seq<real>, i: nat, j: nat) returns (d: seq<real>)
    requires |w| == |t| == |u| == |priority| && Square(sigma, |w|) && InBox(w, u)
    requires forall k | 0 <= k < |w| :: priority[k] >= LEAST_PRIORITY
    requires i < |w| && j < |w| && i != j && w[i] > 0.0 && Expandable(w[j], u[j])
    requires Dot(Gradient(w, t, sigma, aversion), Exchange(priority, i, j)) < 0.0
    ensures |d| == |w| && InBox(Plus(w, d), u) && Dot(priority, d) == 0.0
    ensures forall k | 0 <= k < |w| && !Expandable(w[k], u[k]) :: Plus(w, d)[k] <= w[k]
    ensures Dot(Gradient(w, t, sigma, aversion), d) < 0.0
  {
    var most := RoomFor(w[i], u[j] - w[j], priority[j], priority[i]);
    d := Scaled(most, Exchange(priority, i, j));
    var slope := Dot(Gradient(w, t, sigma, aversion), Exchange(priority, i, j));
    DotScaled(Gradient(w, t, sigma, aversion), most, Exchange(priority, i, j), slope);
    FallingPart(most, slope);
    ExchangeFits(w, u, priority, i, j, most);
    DotExchange(priority, priority, i, j, Weighed(priority[i], priority[j]), Weighed(priority[j], priority[i]));
    DotScaled(priority, most, Exchange(priority, i, j), 0.0);
  }

  lemma FallingPart(k: real, slope: real)
    requires k > 0.0 && slope < 0.0
    ensures Weighed(k, slope) < 0.0
  {
    StrictlySameSigns(k, -slope, -Weighed(k, slope));
  }

  lemma PartOfExchange(w: seq<real>, t: seq<real>, sigma: seq<seq<real>>, u: seq<real>, aversion: real, d: seq<real>)
    returns (y: seq<real>)
    requires |w| == |t| == |u| == |d| == |sigma| && Symmetric(sigma) && Semidefinite(sigma) && InBox(w, u)
    requires aversion >= 0.0 && InBox(Plus(w, d), u) && Dot(Priorities(t), d) == 0.0
    requires forall k | 0 <= k < |w| && !Expandable(w[k], u[k]) :: Plus(w, d)[k] <= w[k]
    requires Dot(Gradient(w, t, sigma, aversion), d) < 0.0
    ensures |y| == |w| && Beats(y, w, t, sigma, u, aversion)
  {
    var theta := LowerAlong(w, d, t, sigma, aversion);
    y := Plus(w, Scaled(theta, d));
    PartIsAsMuch(w, u, Priorities(t), d, theta, y);
  }

  lemma PartIsAsMuch(w: seq<real>, u: seq<real>, priority: seq<real>, d: seq<real>, theta: real, y: seq<real>)
    requires |w| == |u| == |d| == |priority| && InBox(w, u) && InBox(Plus(w, d), u) && Dot(priority, d) == 0.0
    requires forall k | 0 <= k < |w| && !Expandable(w[k], u[k]) :: Plus(w, d)[k] <= w[k]
    requires 0.0 < theta <= 1.0 && |Scaled(theta, d)| == |w| && y == Plus(w, Scaled(theta, d))
    ensures AsMuch(y, w, u, priority) && Dot(priority, y) == Dot(priority, w)
  {
    StaysInBox(w, d, u, theta);
    StaysBelow(w, d, u, theta);
    DotScaled(priority, theta, d, 0.0);
    DotPlus(priority, w, Scaled(theta, d));
  }

  /** Part of a way that raises no symbol without room raises none either. */
  lemma StaysBelow(w: seq<real>, d: seq<real>, u: seq<real>, theta: real)
    requires |w| == |d| == |u| && 0.0 < theta
    requires forall k | 0 <= k < |w| && !Expandable(w[k], u[k]) :: Plus(w, d)[k] <= w[k]
    ensures |Scaled(theta, d)| == |w|
    ensures forall k | 0 <= k < |w| && !Expandable(w[k], u[k]) :: Plus(w, Scaled(theta, d))[k] <= w[k]
  {
    forall k | 0 <= k < |w| && !Expandable(w[k], u[k]) ensures Plus(w, Scaled(theta, d))[k] <= w[k] {
      assert Plus(w, d)[k] <= w[k];
      ScaledAt(theta, d, k);
      DownShare(theta, d[k]);
    }
  }

  // ---- the main results ------------------------------------------------------------------

  /** When a round of the loop that refills returns the weights it started from, these are the least, and the only
      least, among the weights in the caps that raise no full symbol and have as much of the target, if and only if the
      step pulls evenly at them; otherwise weights with exactly as much of the target lie lower. The step pulls evenly
      when it takes no symbol that holds weight below 0, and it does not when it takes one symbol with room below 0 and
      another one not. */
  lemma RefilledRestIsLeastExactly(symbols: seq<string>, w: seq<real>, t: seq<real>, sigma: seq<seq<real>>,
                                   caps: Weights, u: seq<real>, budget: real, aversion: real, step: real, most: real,
                                   v: seq<real>)
    requires Distinct(symbols) && symbols != [] && |w| == |t| == |symbols| == |sigma| && budget > 0.0
    requires Symmetric(sigma) && Semidefinite(sigma) && aversion >= 0.0
    requires u == Pick(symbols, caps) && step == StepSize(sigma, |w|, aversion)
    requires InBox(t, u) && (forall s | s in caps :: caps[s] <= most) && most >= 0.0
    requires DescentLaws.Narrow(|symbols|, 2.0 * most + budget + TINY)
    requires Refills(w, t, sigma, u, budget, aversion, step) && v == Candidate(w, t, sigma, aversion, step)
    requires Descended(symbols, w, t, sigma, caps, budget, aversion, step) == w
    ensures IsLeast(w, t, sigma, u, aversion) <==> EvenlyPulled(w, v, u, Priorities(t))
    ensures if EvenlyPulled(w, v, u, Priorities(t)) then IsOnlyLeast(w, t, sigma, u, aversion)
            else IsBeaten(w, t, sigma, u, aversion)
    ensures WantsNoShort(w, v) ==> EvenlyPulled(w, v, u, Priorities(t))
    ensures WantsShort(w, v, u) ==> !EvenlyPulled(w, v, u, Priorities(t))
  {
    DescendedFits(symbols, w, t, sigma, caps, budget, aversion, step);
    var rate := RefilledRound(symbols, w, t, sigma, caps, u, budget, aversion, step, most, w);
    StepOf(sigma, aversion);
    LeastExactly(w, t, sigma, u, aversion, step, v, Clamped(w, t, sigma, u, aversion, step), Priorities(t), rate);
  }

  lemma ShortDecides(v: seq<real>, u: seq<real>, p: seq<real>, w: seq<real>, priority: seq<real>, rate: real)
    requires |v| == |u| == |w| == |priority| && p == Clipped(v, u, 0.0) && InBox(w, u) && rate > 0.0
    requires (forall i | 0 <= i < |priority| :: priority[i] >= LEAST_PRIORITY) && InProportion(p, w, u, priority, rate)
    ensures WantsNoShort(w, v) ==> EvenlyPulled(w, v, u, priority)
    ensures WantsShort(w, v, u) ==> !EvenlyPulled(w, v, u, priority)
  {
    if WantsNoShort(w, v) { NoShortIsEven(v, u, p, w, priority, rate); }
    if WantsShort(w, v, u) { ShortIsUneven(v, u, p, w, priority, rate); }
  }

  lemma LeastExactly(w: seq<real>, t: seq<real>, sigma: seq<seq<real>>, u: seq<real>, aversion: real, step: real,
                     v: seq<real>, p: seq<real>, priority: seq<real>, rate: real)
    requires |w| == |t| == |u| == |sigma| && Symmetric(sigma) && Semidefinite(sigma) && InBox(w, u)
    requires aversion >= 0.0 && step > 0.0 && v == Candidate(w, t, sigma, aversion, step) && p == Clipped(v, u, 0.0)
    requires priority == Priorities(t) && InProportion(p, w, u, priority, rate) && rate > 0.0
    ensures IsLeast(w, t, sigma, u, aversion) <==> EvenlyPulled(w, v, u, priority)
    ensures if EvenlyPulled(w, v, u, priority) then IsOnlyLeast(w, t, sigma, u, aversion)
            else IsBeaten(w, t, sigma, u, aversion)
    ensures WantsNoShort(w, v) ==> EvenlyPulled(w, v, u, priority)
    ensures WantsShort(w, v, u) ==> !EvenlyPulled(w, v, u, priority)
  {
    ShortDecides(v, u, p, w, priority, rate);
    if EvenlyPulled(w, v, u, priority) {
      RoomIsPulled(v, u, p, w, priority, rate);
      EvenIsOnlyLeast(w, t, sigma, u, aversion, step, v);
    } else {
      var y := UnevenIsBeaten(w, t, sigma, u, aversion, step, v);
    }
  }

  lemma RoomIsPulled(v: seq<real>, u: seq<real>, p: seq<real>, w: seq<real>, priority: seq<real>, rate: real)
    requires |v| == |u| == |w| == |priority| && p == Clipped(v, u, 0.0) && InBox(w, u) && rate > 0.0
    requires (forall i | 0 <= i < |priority| :: priority[i] >= LEAST_PRIORITY) && InProportion(p, w, u, priority, rate)
    ensures forall j | 0 <= j < |w| && Expandable(w[j], u[j]) :: Pull(w, v, j) >= 0.0
  {
    forall j | 0 <= j < |w| && Expandable(w[j], u[j]) ensures Pull(w, v, j) >= 0.0 {
      PullFacts(v, u, p, w, priority, rate, j, Weighed(rate, priority[j]));
    }
  }

  lemma EvenIsOnlyLeast(w: seq<real>, t: seq<real>, sigma: seq<seq<real>>, u: seq<real>, aversion: real, step: real,
                        v: seq<real>)
    requires |w| == |t| == |u| == |v| == |sigma| && Symmetric(sigma) && Semidefinite(sigma)
    requires aversion >= 0.0 && step > 0.0 && v == Candidate(w, t, sigma, aversion, step)
    requires forall j | 0 <= j < |w| && Expandable(w[j], u[j]) :: Pull(w, v, j) >= 0.0
    requires EvenlyPulled(w, v, u, Priorities(t))
    ensures IsOnlyLeast(w, t, sigma, u, aversion)
  {
    forall y: seq<real> | |y| == |w| && AsMuch(y, w, u, Priorities(t))
      ensures Objective(w, t, sigma, aversion) <= Objective(y, t, sigma, aversion)
      ensures Objective(w, t, sigma, aversion) == Objective(y, t, sigma, aversion) ==> y == w
    {
      EvenIsLeastAt(w, t, sigma, u, aversion, step, v, y);
    }
  }
}
