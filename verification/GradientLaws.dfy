/** The risk-adjusted distance to the target, whose gradient the descent of ez/live/optimizer_allocator.py follows, and
    why a vector that a gradient step with its projection leaves unchanged is its minimum. */
module GradientLaws {
  import opened Reals
  import opened Simplex
  import opened Refill
  import opened Allocator

  // ---- inner products ------------------------------------------------------------------

  lemma {:induction false} DotSwap(a: seq<real>, b: seq<real>)
    requires |a| == |b|
    ensures Dot(a, b) == Dot(b, a)
  {
    if a != [] { DotSwap(a[1..], b[1..]); }
  }

  lemma {:induction false} DotPlus(a: seq<real>, b: seq<real>, c: seq<real>)
    requires |a| == |b| == |c|
    ensures Dot(a, Plus(b, c)) == Dot(a, b) + Dot(a, c)
  {
    if a != [] {
      DotPlus(a[1..], b[1..], c[1..]);
      assert Plus(b, c)[1..] == Plus(b[1..], c[1..]);
      Distribute(a[0], b[0], c[0]);
    }
  }

  lemma Shuffle(a: real, k: real, b: real, product: real)
    requires product == a * b
    ensures a * (k * b) == k * product
  {
  }

  lemma {:induction false} DotScaled(a: seq<real>, k: real, b: seq<real>, d: real)
    requires |a| == |b| && d == Dot(a, b)
    ensures Dot(a, Scaled(k, b)) == Weighed(k, d)
  {
    if a != [] {
      var first := a[0] * b[0];
      DotScaled(a[1..], k, b[1..], d - first);
      ScaledTail(k, b);
      Shuffle(a[0], k, b[0], first);
      Distribute(k, d - first, first);
    }
  }

  // ---- quadratic forms -----------------------------------------------------------------

  function Times(sigma: seq<seq<real>>, x: seq<real>): (r: seq<real>)
    requires Square(sigma, |x|)
    ensures |r| == |x|
  {
    seq(|x|, i requires 0 <= i < |x| => Dot(sigma[i], x))
  }

  function Form(sigma: seq<seq<real>>, x: seq<real>, y: seq<real>): real
    requires |x| == |y| && Square(sigma, |x|)
  {
    Dot(x, Times(sigma, y))
  }

  ghost predicate Symmetric(sigma: seq<seq<real>>) {
    Square(sigma, |sigma|) && forall i, j | 0 <= i < |sigma| && 0 <= j < |sigma| :: sigma[i][j] == sigma[j][i]
  }

  /** The risk of these weights is not negative. */
  ghost predicate HasRisk(sigma: seq<seq<real>>, z: seq<real>)
    requires Square(sigma, |z|)
  {
    Form(sigma, z, z) >= 0.0
  }

  /** No portfolio has a negative risk. */
  ghost predicate Semidefinite(sigma: seq<seq<real>>)
    requires Square(sigma, |sigma|)
  {
    forall z: seq<real> | |z| == |sigma| :: HasRisk(sigma, z)
  }

  /** The first column below the first row. */
  function Column(sigma: seq<seq<real>>): seq<real>
    requires sigma != [] && Square(sigma, |sigma|)
  {
    seq(|sigma| - 1, i requires 0 <= i < |sigma| - 1 => sigma[i + 1][0])
  }

  function Minor(sigma: seq<seq<real>>): (r: seq<seq<real>>)
    requires sigma != [] && Square(sigma, |sigma|)
    ensures Square(r, |sigma| - 1)
  {
    seq(|sigma| - 1, i requires 0 <= i < |sigma| - 1 => sigma[i + 1][1..])
  }

  lemma LowerRow(row: seq<real>, y: seq<real>)
    requires |row| == |y| > 0
    ensures Dot(row, y) == Weighed(y[0], row[0]) + Dot(row[1..], y[1..])
  {
  }

  lemma LowerRows(sigma: seq<seq<real>>, y: seq<real>)
    requires sigma != [] && Square(sigma, |y|)
    ensures Times(sigma, y)[1..] == Plus(Scaled(y[0], Column(sigma)), Times(Minor(sigma), y[1..]))
  {
    var first, others := Scaled(y[0], Column(sigma)), Times(Minor(sigma), y[1..]);
    forall i | 0 <= i < |y| - 1 ensures Times(sigma, y)[1..][i] == Plus(first, others)[i] {
      assert Times(sigma, y)[i + 1] == Dot(sigma[i + 1], y);
      LowerRow(sigma[i + 1], y);
      assert Column(sigma)[i] == sigma[i + 1][0] && first[i] == Weighed(y[0], Column(sigma)[i]);
      assert others[i] == Dot(sigma[i + 1][1..], y[1..]);
    }
  }

  /** The form by its first row and column. */
  lemma SplitForm(sigma: seq<seq<real>>, x: seq<real>, y: seq<real>)
    requires sigma != [] && |x| == |y| && Square(sigma, |x|)
    ensures Form(sigma, x, y)
      == Corner(x[0], sigma[0][0], y[0]) + Weighed(x[0], Dot(sigma[0][1..], y[1..]))
        + Weighed(y[0], Dot(x[1..], Column(sigma)))
         + Form(Minor(sigma), x[1..], y[1..])
  {
    var q := Times(sigma, y);
    assert q[0] == Dot(sigma[0], y);
    DotFirst(x, q);
    UpperRow(x[0], sigma[0], y, q[0]);
    LowerRowsOfForm(sigma, x[1..], y, Dot(x[1..], Column(sigma)));
  }

  lemma DotFirst(a: seq<real>, b: seq<real>)
    requires |a| == |b| > 0
    ensures Dot(a, b) == Weighed(a[0], b[0]) + Dot(a[1..], b[1..])
  {
  }

  lemma UpperRow(first: real, row: seq<real>, y: seq<real>, dot: real)
    requires |row| == |y| > 0 && dot == Dot(row, y)
    ensures Weighed(first, dot) == Corner(first, row[0], y[0]) + Weighed(first, Dot(row[1..], y[1..]))
  {
    LowerRow(row, y);
    WeighedSum(first, Weighed(y[0], row[0]), Dot(row[1..], y[1..]), dot);
  }

  lemma LowerRowsOfForm(sigma: seq<seq<real>>, x: seq<real>, y: seq<real>, dot: real)
    requires sigma != [] && Square(sigma, |y|) && |x| == |y| - 1 && dot == Dot(x, Column(sigma))
    ensures Dot(x, Times(sigma, y)[1..]) == Weighed(y[0], dot) + Form(Minor(sigma), x, y[1..])
  {
    var column, others := Scaled(y[0], Column(sigma)), Times(Minor(sigma), y[1..]);
    LowerRows(sigma, y);
    DotPlus(x, column, others);
    DotScaled(x, y[0], Column(sigma), dot);
  }

  lemma WeighedSum(k: real, a: real, b: real, whole: real)
    requires whole == a + b
    ensures Weighed(k, whole) == Weighed(k, a) + Weighed(k, b)
  {
    Distribute(k, a, b);
  }

  function Corner(x: real, s: real, y: real): real { Weighed(x, Weighed(y, s)) }

  lemma CornerSwaps(x: real, s: real, y: real)
    ensures Corner(x, s, y) == Corner(y, s, x)
  {
    Shuffle(x, y, s, x * s);
  }

  lemma SymmetricParts(sigma: seq<seq<real>>)
    requires sigma != [] && Symmetric(sigma)
    ensures Column(sigma) == sigma[0][1..] && Symmetric(Minor(sigma))
  {
    forall i | 0 <= i < |sigma| - 1 ensures Column(sigma)[i] == sigma[0][1..][i] {
      assert sigma[i + 1][0] == sigma[0][i + 1];
    }
    var m := Minor(sigma);
    forall i, j | 0 <= i < |m| && 0 <= j < |m| ensures m[i][j] == m[j][i] {
      assert sigma[i + 1][j + 1] == sigma[j + 1][i + 1];
    }
  }

  lemma {:induction false} FormIsSymmetric(sigma: seq<seq<real>>, x: seq<real>, y: seq<real>)
    requires |x| == |y| == |sigma| && Symmetric(sigma)
    ensures Form(sigma, x, y) == Form(sigma, y, x)
    decreases |sigma|
  {
    if sigma != [] {
      SymmetricParts(sigma);
      SplitForm(sigma, x, y);
      SplitForm(sigma, y, x);
      FormIsSymmetric(Minor(sigma), x[1..], y[1..]);
      DotSwap(x[1..], Column(sigma));
      DotSwap(y[1..], Column(sigma));
      CornerSwaps(x[0], sigma[0][0], y[0]);
    }
  }

  lemma TimesPlus(sigma: seq<seq<real>>, w: seq<real>, d: seq<real>)
    requires |w| == |d| && Square(sigma, |w|)
    ensures Times(sigma, Plus(w, d)) == Plus(Times(sigma, w), Times(sigma, d))
  {
    forall i | 0 <= i < |w| ensures Times(sigma, Plus(w, d))[i] == Plus(Times(sigma, w), Times(sigma, d))[i] {
      DotPlus(sigma[i], w, d);
    }
  }

  /** The form of a sum. */
  lemma FormOfSum(sigma: seq<seq<real>>, w: seq<real>, d: seq<real>)
    requires |w| == |d| == |sigma| && Symmetric(sigma)
    ensures Form(sigma, Plus(w, d), Plus(w, d)) == Form(sigma, w, w) + 2.0 * Form(sigma, d, w) + Form(sigma, d, d)
  {
    var tw, td, y := Times(sigma, w), Times(sigma, d), Plus(w, d);
    TimesPlus(sigma, w, d);
    DotPlus(y, tw, td);
    DotSwap(y, tw);
    DotPlus(tw, w, d);
    DotSwap(tw, w);
    DotSwap(tw, d);
    DotSwap(y, td);
    DotPlus(td, w, d);
    DotSwap(td, w);
    DotSwap(td, d);
    FormIsSymmetric(sigma, w, d);
  }

  // ---- distances -----------------------------------------------------------------------

  lemma SquareOfSum(p: real, d: real)
    ensures Sq(p + d) == Sq(p) + 2.0 * (p * d) + Sq(d)
  {
  }

  lemma SquaresTail(a: seq<real>, b: seq<real>)
    requires |a| == |b| > 0
    ensures Dist2(a, b) == Sq(a[0] - b[0]) + Dist2(a[1..], b[1..])
  {
    assert Squares(a, b)[1..] == Squares(a[1..], b[1..]);
  }

  /** The distance from an anchor after a move `d`. */
  lemma {:induction false} DistanceAfter(v: seq<real>, w: seq<real>, d: seq<real>, p: seq<real>)
    requires |v| == |w| == |d| == |p| && forall i | 0 <= i < |w| :: p[i] == w[i] - v[i]
    ensures Dist2(Plus(w, d), v) == Dist2(w, v) + 2.0 * Dot(p, d) + Dist2(Plus(w, d), w)
  {
    if w != [] {
      DistanceAfter(v[1..], w[1..], d[1..], p[1..]);
      assert Plus(w, d)[1..] == Plus(w[1..], d[1..]);
      SquaresTail(Plus(w, d), v);
      SquaresTail(w, v);
      SquaresTail(Plus(w, d), w);
      DotFirst(p, d);
      MovedSquare(v[0], w[0], d[0], p[0], Plus(w, d)[0]);
    }
  }

  lemma MovedSquare(v: real, w: real, d: real, p: real, y: real)
    requires p == w - v && y == w + d
    ensures Sq(y - v) == Sq(w - v) + 2.0 * Weighed(p, d) + Sq(y - w)
  {
    assert y - v == p + d && y - w == d;
    SquareOfSum(p, d);
  }

  // ---- the objective -------------------------------------------------------------------

  /** Half the squared distance to the target plus the risk, weighed by the aversion. */
  function Objective(x: seq<real>, t: seq<real>, sigma: seq<seq<real>>, aversion: real): real
    requires |x| == |t| && Square(sigma, |x|)
  {
    Dist2(x, t) / 2.0 + Weighed(aversion, Form(sigma, x, x)) / 2.0
  }

  function Gradient(w: seq<real>, t: seq<real>, sigma: seq<seq<real>>, aversion: real): (g: seq<real>)
    requires |w| == |t| && Square(sigma, |w|)
    ensures |g| == |w|
  {
    seq(|w|, i requires 0 <= i < |w| => (w[i] - t[i]) + Weighed(aversion, Dot(sigma[i], w)))
  }

  lemma GradientEntry(w: seq<real>, t: seq<real>, sigma: seq<seq<real>>, aversion: real, i: nat, dot: real)
    requires |w| == |t| && Square(sigma, |w|) && i < |w| && dot == Dot(sigma[i], w)
    ensures Gradient(w, t, sigma, aversion)[i] == (w[i] - t[i]) + Weighed(aversion, dot)
  {
  }

  lemma ScaledEntry(k: real, s: seq<real>, i: nat, x: real)
    requires i < |s| && s[i] == x
    ensures Scaled(k, s)[i] == Weighed(k, x)
  {
  }

  lemma GradientParts(w: seq<real>, t: seq<real>, sigma: seq<seq<real>>, aversion: real)
    requires |w| == |t| && Square(sigma, |w|)
    ensures Gradient(w, t, sigma, aversion) == Plus(Minus(w, t), Scaled(aversion, Times(sigma, w)))
  {
    var sum := Plus(Minus(w, t), Scaled(aversion, Times(sigma, w)));
    forall i | 0 <= i < |w| ensures Gradient(w, t, sigma, aversion)[i] == sum[i] {
      var dot := Times(sigma, w)[i];
      GradientEntry(w, t, sigma, aversion, i, dot);
      ScaledEntry(aversion, Times(sigma, w), i, dot);
    }
  }

  /** The gradient along a move. */
  lemma SlopeParts(w: seq<real>, d: seq<real>, t: seq<real>, sigma: seq<seq<real>>, aversion: real)
    requires |w| == |d| == |t| && Square(sigma, |w|)
    ensures Dot(Gradient(w, t, sigma, aversion), d) == Dot(Minus(w, t), d) + Weighed(aversion, Form(sigma, d, w))
  {
    var g, p, q, risk := Gradient(w, t, sigma, aversion), Minus(w, t), Times(sigma, w), Form(sigma, d, w);
    assert g == Plus(p, Scaled(aversion, q)) by { GradientParts(w, t, sigma, aversion); }
    DotSwap(g, d);
    DotSwap(p, d);
    DotPlus(d, p, Scaled(aversion, q));
    assert Dot(d, Scaled(aversion, q)) == Weighed(aversion, risk) by { DotScaled(d, aversion, q, risk); }
  }

  /** What a move does to the objective: the gradient along it, and terms that are never negative. */
  lemma ObjectiveAfter(w: seq<real>, d: seq<real>, t: seq<real>, sigma: seq<seq<real>>, aversion: real,
                       high: real, low: real, slope: real, moved: real, spread: real)
    requires |w| == |d| == |t| == |sigma| && Symmetric(sigma)
    requires high == Objective(Plus(w, d), t, sigma, aversion) && low == Objective(w, t, sigma, aversion)
    requires slope == Dot(Gradient(w, t, sigma, aversion), d) && moved == Dist2(Plus(w, d), w)
      && spread == Form(sigma, d, d)
    ensures high == low + slope + moved / 2.0 + Weighed(aversion, spread) / 2.0
  {
    var after, before, along := Dist2(Plus(w, d), t), Dist2(w, t), Dot(Minus(w, t), d);
    var whole, a, b := Form(sigma, Plus(w, d), Plus(w, d)), Form(sigma, w, w), Form(sigma, d, w);
    assert slope == along + Weighed(aversion, b) by { SlopeParts(w, d, t, sigma, aversion); }
    assert after == before + 2.0 * along + moved by { DistanceAfter(t, w, d, Minus(w, t)); }
    assert Weighed(aversion, whole)
        == Weighed(aversion, a) + 2.0 * Weighed(aversion, b) + Weighed(aversion, spread) by {
      FormOfSum(sigma, w, d);
      Spread(aversion, a, b, spread, whole);
    }
  }

  lemma Spread(k: real, a: real, b: real, c: real, whole: real)
    requires whole == a + 2.0 * b + c
    ensures Weighed(k, whole) == Weighed(k, a) + 2.0 * Weighed(k, b) + Weighed(k, c)
  {
    Distribute(k, a + 2.0 * b, c);
    Distribute(k, a, 2.0 * b);
  }

  lemma WayTo(w: seq<real>, y: seq<real>) returns (d: seq<real>)
    requires |w| == |y|
    ensures |d| == |w| && d == Minus(y, w) && Plus(w, d) == y
  {
    d := Minus(y, w);
  }

  // ---- standing still ------------------------------------------------------------------

  lemma CandidateIsStep(w: seq<real>, t: seq<real>, sigma: seq<seq<real>>, aversion: real, step: real)
    requires |w| == |t| && Square(sigma, |w|)
    ensures var v, g := Candidate(w, t, sigma, aversion, step), Gradient(w, t, sigma, aversion);
      |v| == |w| && forall i | 0 <= i < |w| :: Scaled(step, g)[i] == w[i] - v[i]
  {
  }

  /** A clipped vector is nearer than any other in the box with no larger sum, by the distance between them. */
  lemma ClippedIsNearer(v: seq<real>, caps: seq<real>, lowering: real, w: seq<real>, y: seq<real>)
    requires |v| == |caps| == |y| && lowering >= 0.0 && InBox(y, caps)
    requires w == Clipped(v, caps, lowering) && (lowering > 0.0 ==> Sum(y) <= Sum(w))
    ensures Dist2(y, v) >= Dist2(w, v) + Dist2(y, w)
  {
    ClippedVariation(v, caps, lowering, y);
    SumOfMinus(w, y);
    ScaledIsNotNegative(lowering, Minus(w, y));
    MovingCosts(v, w, y, Scaled(lowering, Minus(w, y)));
  }

  lemma StepAlong(w: seq<real>, t: seq<real>, sigma: seq<seq<real>>, aversion: real, step: real, d: seq<real>,
                  slope: real)
    requires |w| == |t| == |d| && Square(sigma, |w|) && slope == Dot(Gradient(w, t, sigma, aversion), d)
    ensures var v := Candidate(w, t, sigma, aversion, step);
      Dist2(Plus(w, d), v) == Dist2(w, v) + 2.0 * Weighed(step, slope) + Dist2(Plus(w, d), w)
  {
    var v, g := Candidate(w, t, sigma, aversion, step), Gradient(w, t, sigma, aversion);
    CandidateIsStep(w, t, sigma, aversion, step);
    ScaledAlong(g, step, d, slope);
    DistanceAfter(v, w, d, Scaled(step, g));
  }

  lemma ScaledAlong(g: seq<real>, step: real, d: seq<real>, slope: real)
    requires |g| == |d| && slope == Dot(g, d)
    ensures Dot(Scaled(step, g), d) == Weighed(step, slope)
  {
    DotSwap(Scaled(step, g), d);
    DotSwap(d, g);
    DotScaled(d, step, g, slope);
  }

  /** No move that stays in the box and does not raise the sum goes down the gradient. */
  lemma NoDescentLeft(w: seq<real>, t: seq<real>, sigma: seq<seq<real>>, aversion: real, step: real, caps: seq<real>,
                      lowering: real, d: seq<real>, slope: real)
    requires |w| == |t| == |caps| == |d| && Square(sigma, |w|) && step > 0.0 && lowering >= 0.0
    requires Clipped(Candidate(w, t, sigma, aversion, step), caps, lowering) == w
    requires InBox(Plus(w, d), caps) && (lowering > 0.0 ==> Sum(Plus(w, d)) <= Sum(w))
    requires slope == Dot(Gradient(w, t, sigma, aversion), d)
    ensures slope >= 0.0
  {
    var v, y := Candidate(w, t, sigma, aversion, step), Plus(w, d);
    assert Dist2(y, v) >= Dist2(w, v) + Dist2(y, w) by { ClippedIsNearer(v, caps, lowering, w, y); }
    assert Dist2(y, v) == Dist2(w, v) + 2.0 * Weighed(step, slope) + Dist2(y, w) by {
      StepAlong(w, t, sigma, aversion, step, d, slope);
    }
    NearerMeansUphill(Dist2(y, v), Dist2(w, v), Dist2(y, w), step, slope);
  }

  lemma NearerMeansUphill(far: real, near: real, moved: real, step: real, slope: real)
    requires far >= near + moved && far == near + 2.0 * Weighed(step, slope) + moved && step > 0.0
    ensures slope >= 0.0
  {
    PositiveRate(step, slope, Weighed(step, slope));
  }

  lemma PositiveRate(step: real, slope: real, product: real)
    requires step > 0.0 && product == step * slope && product >= 0.0
    ensures slope >= 0.0
  {
    if slope < 0.0 { StrictlySameSigns(step, -slope, -product); }
  }

  /** A vector that a projected gradient step leaves unchanged is the only minimum of the objective among the vectors
      in the box with no larger sum; among all in the box when the values did not have to be lowered. */
  lemma StandstillIsOptimal(w: seq<real>, t: seq<real>, sigma: seq<seq<real>>, aversion: real, step: real,
                            caps: seq<real>, lowering: real, y: seq<real>)
    requires |w| == |t| == |caps| == |y| == |sigma| && Symmetric(sigma) && Semidefinite(sigma)
    requires aversion >= 0.0 && step > 0.0 && lowering >= 0.0
    requires Clipped(Candidate(w, t, sigma, aversion, step), caps, lowering) == w
    requires InBox(y, caps) && (lowering > 0.0 ==> Sum(y) <= Sum(w))
    ensures Objective(w, t, sigma, aversion) <= Objective(y, t, sigma, aversion)
    ensures Objective(w, t, sigma, aversion) == Objective(y, t, sigma, aversion) ==> y == w
  {
    var d := WayTo(w, y);
    var slope := Dot(Gradient(w, t, sigma, aversion), d);
    assert slope >= 0.0 by { NoDescentLeft(w, t, sigma, aversion, step, caps, lowering, d, slope); }
    assert Objective(y, t, sigma, aversion) >= Objective(w, t, sigma, aversion) + Dist2(y, w) / 2.0 by {
      AboveAlong(w, d, t, sigma, aversion);
    }
    Dist2Definite(y, w);
  }

  /** A move along which the gradient does not fall raises the objective by half its squared length at least. */
  lemma AboveAlong(w: seq<real>, d: seq<real>, t: seq<real>, sigma: seq<seq<real>>, aversion: real)
    requires |w| == |d| == |t| == |sigma| && Symmetric(sigma) && Semidefinite(sigma) && aversion >= 0.0
    requires Dot(Gradient(w, t, sigma, aversion), d) >= 0.0
    ensures Objective(Plus(w, d), t, sigma, aversion) >= Objective(w, t, sigma, aversion) + Dist2(Plus(w, d), w) / 2.0
  {
    var high, low := Objective(Plus(w, d), t, sigma, aversion), Objective(w, t, sigma, aversion);
    var slope, moved, spread := Dot(Gradient(w, t, sigma, aversion), d), Dist2(Plus(w, d), w), Form(sigma, d, d);
    ObjectiveAfter(w, d, t, sigma, aversion, high, low, slope, moved, spread);
    AboveBy(high, low, slope, moved, aversion, spread);
  }

  lemma AboveBy(high: real, low: real, slope: real, moved: real, k: real, spread: real)
    requires high == low + slope + moved / 2.0 + Weighed(k, spread) / 2.0 && slope >= 0.0 && k >= 0.0 && spread >= 0.0
    ensures high >= low + moved / 2.0
  {
    NotNegative(k, spread, Weighed(k, spread));
  }
}
