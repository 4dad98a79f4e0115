/** Covariances of symbols that move together, half of them the other way, each with some risk of its own; and what the
    guard of ez/live/optimizer_allocator.py asks of a covariance before the descent may use it. */
module HedgedRisk {
  import opened Reals
  import opened Simplex
  import opened Refill
  import opened Allocator
  import opened GradientLaws
  import opened DescentLaws
  import opened StepSizeLaws

  // ---- vectors that alternate ----------------------------------------------------------

  function Alternating(n: nat, a: real, b: real): (r: seq<real>)
    ensures |r| == n && forall i | 0 <= i < n :: r[i] == if i % 2 == 0 then a else b
  {
    seq(n, i => if i % 2 == 0 then a else b)
  }

  /** Half the symbols one way, half the other. */
  function Sides(n: nat): (r: seq<real>)
    ensures |r| == n && forall i | 0 <= i < n :: r[i] == if i % 2 == 0 then 1.0 else -1.0
  {
    Alternating(n, 1.0, -1.0)
  }

  lemma AlternatingTail(n: nat, a: real, b: real)
    requires n >= 1
    ensures Alternating(n, a, b)[1..] == Alternating(n - 1, b, a)
  {
  }

  lemma {:induction false} SumOfAlternating(n: nat, a: real, b: real)
    ensures Sum(Alternating(n, a, b)) == Repeated((n + 1) / 2, a) + Repeated(n / 2, b)
  {
    if n > 0 {
      AlternatingTail(n, a, b);
      SumOfAlternating(n - 1, b, a);
    }
  }

  lemma {:induction false} DotOfAlternating(n: nat, a: real, b: real, c: real, d: real)
    ensures Dot(Alternating(n, a, b), Alternating(n, c, d))
      == Repeated((n + 1) / 2, Weighed(a, c)) + Repeated(n / 2, Weighed(b, d))
  {
    if n > 0 {
      AlternatingTail(n, a, b);
      AlternatingTail(n, c, d);
      DotOfAlternating(n - 1, b, a, d, c);
      DotFirst(Alternating(n, a, b), Alternating(n, c, d));
      assert Repeated((n + 1) / 2, Weighed(a, c)) == Repeated((n - 1) / 2, Weighed(a, c)) + Weighed(a, c);
    }
  }

  /** How far an alternating vector leans to the first side. */
  lemma Leaning(n: nat, a: real, b: real)
    ensures Dot(Sides(n), Alternating(n, a, b)) == Repeated((n + 1) / 2, a) - Repeated(n / 2, b)
  {
    DotOfAlternating(n, 1.0, -1.0, a, b);
    assert Weighed(1.0, a) == a && Weighed(-1.0, b) == -b;
    RepeatedOpposite(n / 2, b);
  }

  lemma {:induction false} RepeatedOpposite(n: nat, x: real)
    ensures Repeated(n, -x) == -Repeated(n, x)
  {
    if n > 0 { RepeatedOpposite(n - 1, x); }
  }

  // ---- the matrix ----------------------------------------------------------------------

  function HedgedRow(n: nat, q: real, r: real, i: nat): (row: seq<real>)
    ensures |row| == n
  {
    Plus(Scaled(if i % 2 == 0 then q else -q, Sides(n)), Scaled(r, Unit(n, i)))
  }

  /** A common risk of `q` on either side and one of `r` for each symbol alone. */
  function Hedged(n: nat, q: real, r: real): (sigma: seq<seq<real>>)
    ensures Square(sigma, n) && forall i | 0 <= i < n :: sigma[i] == HedgedRow(n, q, r, i)
  {
    seq(n, i requires 0 <= i < n => HedgedRow(n, q, r, i))
  }

  lemma HedgedEntry(n: nat, q: real, r: real, i: nat, j: nat)
    requires i < n && j < n
    ensures Hedged(n, q, r)[i][j] == (if i % 2 == j % 2 then q else -q) + (if i == j then r else 0.0)
  {
    var side := if i % 2 == 0 then q else -q;
    ScaledAt(side, Sides(n), j);
    ScaledAt(r, Unit(n, i), j);
  }

  /** What the matrix makes of a vector that leans by `k`. */
  lemma HedgedTimesAt(n: nat, q: real, r: real, z: seq<real>, k: real, i: nat)
    requires |z| == n && k == Dot(Sides(n), z) && i < n
    ensures Dot(Hedged(n, q, r)[i], z) == (if i % 2 == 0 then Weighed(q, k) else -Weighed(q, k)) + Weighed(r, z[i])
  {
    var side := if i % 2 == 0 then q else -q;
    DotSwap(HedgedRow(n, q, r, i), z);
    DotPlus(z, Scaled(side, Sides(n)), Scaled(r, Unit(n, i)));
    DotSwap(Sides(n), z);
    DotScaled(z, side, Sides(n), k);
    DotUnit(z, i);
    DotScaled(z, r, Unit(n, i), z[i]);
    OppositeFactor(q, k);
  }

  lemma OppositeFactor(q: real, k: real)
    ensures Weighed(-q, k) == -Weighed(q, k)
  {
  }

  lemma HedgedTimes(n: nat, q: real, r: real, z: seq<real>, k: real)
    requires |z| == n && k == Dot(Sides(n), z)
    ensures Times(Hedged(n, q, r), z) == Plus(Scaled(Weighed(q, k), Sides(n)), Scaled(r, z))
  {
    var common := Weighed(q, k);
    var all := Plus(Scaled(common, Sides(n)), Scaled(r, z));
    forall i | 0 <= i < n ensures Times(Hedged(n, q, r), z)[i] == all[i] {
      HedgedTimesAt(n, q, r, z, k, i);
      ScaledAt(common, Sides(n), i);
      ScaledAt(r, z, i);
      BySide(common, Sides(n)[i]);
    }
  }

  lemma BySide(x: real, side: real)
    ensures side == 1.0 ==> Weighed(x, side) == x
    ensures side == -1.0 ==> Weighed(x, side) == -x
  {
  }

  lemma HedgedForm(n: nat, q: real, r: real, z: seq<real>, k: real, length: real)
    requires |z| == n && k == Dot(Sides(n), z) && length == Dot(z, z)
    ensures Form(Hedged(n, q, r), z, z) == Weighed(q, Sq(k)) + Weighed(r, length)
  {
    var common := Weighed(q, k);
    HedgedTimes(n, q, r, z, k);
    DotOfTwo(z, Sides(n), common, r, k, length);
    CommonPart(q, k);
  }

  lemma DotOfTwo(z: seq<real>, v: seq<real>, c: real, r: real, k: real, length: real)
    requires |z| == |v| && k == Dot(v, z) && length == Dot(z, z)
    ensures Dot(z, Plus(Scaled(c, v), Scaled(r, z))) == Weighed(c, k) + Weighed(r, length)
  {
    DotPlus(z, Scaled(c, v), Scaled(r, z));
    DotSwap(v, z);
    DotScaled(z, c, v, k);
    DotScaled(z, r, z, length);
  }

  lemma CommonPart(q: real, k: real)
    ensures Weighed(Weighed(q, k), k) == Weighed(q, Sq(k))
  {
  }

  lemma {:induction false} LengthIsNotNegative(z: seq<real>)
    ensures Dot(z, z) >= 0.0
  {
    if z != [] {
      LengthIsNotNegative(z[1..]);
      SameSigns(z[0], z[0]);
    }
  }

  lemma HedgedIsCovariance(n: nat, q: real, r: real)
    requires q >= 0.0 && r >= 0.0
    ensures Symmetric(Hedged(n, q, r)) && Semidefinite(Hedged(n, q, r))
  {
    var sigma := Hedged(n, q, r);
    forall i, j | 0 <= i < n && 0 <= j < n ensures sigma[i][j] == sigma[j][i] {
      HedgedEntry(n, q, r, i, j);
      HedgedEntry(n, q, r, j, i);
    }
    forall z: seq<real> | |z| == n ensures HasRisk(sigma, z) { HedgedAbove(n, q, r, z); }
  }

  /** No portfolio has less risk than its own part. */
  lemma HedgedAbove(n: nat, q: real, r: real, z: seq<real>)
    requires |z| == n && q >= 0.0 && r >= 0.0
    ensures HasRisk(Hedged(n, q, r), z) && Form(Hedged(n, q, r), z, z) >= Weighed(r, Dot(z, z))
  {
    var k, length := Dot(Sides(n), z), Dot(z, z);
    HedgedForm(n, q, r, z, k, length);
    LengthIsNotNegative(z);
    BothParts(q, k, r, length);
  }

  lemma BothParts(q: real, k: real, r: real, length: real)
    requires q >= 0.0 && r >= 0.0 && length >= 0.0
    ensures Weighed(q, Sq(k)) >= 0.0 && Weighed(r, length) >= 0.0
  {
    SameSigns(k, k);
    UpShare(q, Sq(k));
    UpShare(r, length);
  }

  lemma {:induction false} HedgedTop(n: nat, q: real, r: real, m: nat)
    requires 1 <= m <= n
    ensures MaxDiagonal(Hedged(n, q, r), m) == q + r
  {
    HedgedEntry(n, q, r, m - 1, m - 1);
    if m > 1 { HedgedTop(n, q, r, m - 1); }
  }

  // ---- the guard -----------------------------------------------------------------------

  /** The extreme eigenvalues of a symmetric matrix are the least and the greatest risk of a portfolio of length 1. With
      these bounds the smallest is above 1e-8 and above 1e-6 of the largest, so that the guard lets the matrix pass. */
  ghost predicate PassesGuard(sigma: seq<seq<real>>, low: real, high: real)
    requires Square(sigma, |sigma|)
  {
    && low > 0.00000001 && low > 0.000001 * high
    && forall z: seq<real> | |z| == |sigma| :: Conditioned(sigma, z, low, high)
  }

  ghost predicate Conditioned(sigma: seq<seq<real>>, z: seq<real>, low: real, high: real)
    requires Square(sigma, |z|)
  {
    Weighed(low, Dot(z, z)) <= Form(sigma, z, z) <= Weighed(high, Dot(z, z))
  }

  /** With enough risk of its own for every symbol the matrix passes. */
  lemma HedgedPasses(n: nat, q: real, r: real)
    requires n > 0 && q >= 0.0 && r > 0.00000001 && r > 0.000001 * Weighed(q + r, n as real)
    ensures PassesGuard(Hedged(n, q, r), r, Weighed(q + r, n as real))
  {
    forall z: seq<real> | |z| == n ensures Conditioned(Hedged(n, q, r), z, r, Weighed(q + r, n as real)) {
      HedgedConditioned(n, q, r, z);
    }
  }

  lemma HedgedConditioned(n: nat, q: real, r: real, z: seq<real>)
    requires n > 0 && q >= 0.0 && r >= 0.0 && |z| == n
    ensures Conditioned(Hedged(n, q, r), z, r, Weighed(q + r, n as real))
  {
    HedgedAbove(n, q, r, z);
    HedgedBelow(n, q, r, z, q + r, Dot(z, z));
  }

  lemma HedgedBelow(n: nat, q: real, r: real, z: seq<real>, top: real, length: real)
    requires n > 0 && q >= 0.0 && r >= 0.0 && |z| == n && top == q + r && length == Dot(z, z)
    ensures Form(Hedged(n, q, r), z, z) <= Weighed(Weighed(top, n as real), length)
  {
    HedgedIsCovariance(n, q, r);
    HedgedTop(n, q, r, n);
    FormBelow(Hedged(n, q, r), z, top, length);
    Regrouped(top, n as real, length);
  }

  lemma Regrouped(a: real, b: real, x: real)
    ensures Weighed(a, Weighed(b, x)) == Weighed(Weighed(a, b), x)
  {
  }

  // ---- a step from an alternating vector ------------------------------------------------

  /** The candidate from `a` and `b` with the target at `ta` and `tb`. */
  lemma CandidateOfHedged(n: nat, q: real, r: real, a: real, b: real, ta: real, tb: real, aversion: real, step: real,
                          k: real, x: real, y: real)
    requires k == Dot(Sides(n), Alternating(n, a, b))
    requires x == a - Weighed(step, (a - ta) + Weighed(aversion, Weighed(q, k) + Weighed(r, a)))
    requires y == b - Weighed(step, (b - tb) + Weighed(aversion, -Weighed(q, k) + Weighed(r, b)))
    ensures Candidate(Alternating(n, a, b), Alternating(n, ta, tb), Hedged(n, q, r), aversion, step)
      == Alternating(n, x, y)
  {
    var w, t := Alternating(n, a, b), Alternating(n, ta, tb);
    var v := Candidate(w, t, Hedged(n, q, r), aversion, step);
    forall i | 0 <= i < n ensures v[i] == Alternating(n, x, y)[i] {
      var entry, load := CandidateEntry(w, t, Hedged(n, q, r), aversion, step, i);
      HedgedTimesAt(n, q, r, w, k, i);
      SameEntry(step, aversion, w[i], t[i], Dot(Hedged(n, q, r)[i], w), load, entry);
    }
  }

  lemma SameEntry(step: real, aversion: real, w: real, t: real, dot: real, load: real, entry: real)
    requires load == Weighed(aversion, dot) && entry == w - Weighed(step, (w - t) + load)
    ensures entry == w - Weighed(step, (w - t) + Weighed(aversion, dot))
  {
  }
}
