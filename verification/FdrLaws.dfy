/** What the Benjamini-Hochberg loops compute: the textbook step-up procedure (ez/agent/fdr.py). */
module FdrLaws {
  import opened Reals
  import opened Fdr
  import Lists
  import Sorting

  // ---- ratios ------------------------------------------------------------------------------------

  lemma QuotientOrder(x: real, y: real, d: real)
    requires x <= y && d > 0.0
    ensures x / d <= y / d
  {
  }

  lemma LargerRank(p: real, m: nat, low: nat, high: nat)
    requires p >= 0.0 && 1 <= low <= high
    ensures Ratio(p, m, high) <= Ratio(p, m, low)
  {
    var x := p * m as real;
    MulOrder(0.0, p, m as real);
    SmallerShare(x, low as real, high as real);
  }

  lemma SmallerShare(x: real, a: real, b: real)
    requires x >= 0.0 && 0.0 < a <= b
    ensures x / b <= x / a
  {
    var q := x / b;
    assert q * b == x;
    if q < 0.0 { StrictlySameSigns(-q, b, -x); }
    MulOrder(a, b, q);
    QuotientOrder(q * a, x, a);
    assert (q * a) / a == q;
  }

  /** At the last rank the ratio is the p-value, at earlier ranks no less. */
  lemma RatioAtLeastP(p: real, m: nat, rank: nat)
    requires p >= 0.0 && 1 <= rank <= m
    ensures Ratio(p, m, m) == p <= Ratio(p, m, rank)
  {
    LargerRank(p, m, rank, m);
    assert (p * m as real) / m as real == p;
  }

  // ---- the step-up pass ------------------------------------------------------------------------

  /** The adjusted value is the least of this and all later raw values. */
  lemma {:induction false} AdjustedIsLeast(s: seq<Case>, i: nat)
    requires i < |s|
    ensures forall j | i <= j < |s| :: AdjustedAt(s, i) <= RawAt(s, j)
    ensures exists j :: i <= j < |s| && AdjustedAt(s, i) == RawAt(s, j)
    decreases |s| - i
  {
    if i + 1 < |s| { AdjustedIsLeast(s, i + 1); }
    if AdjustedAt(s, i) == RawAt(s, i) {
      assert i <= i < |s|;
    } else {
      var j :| i + 1 <= j < |s| && AdjustedAt(s, i + 1) == RawAt(s, j);
      assert i <= j < |s| && AdjustedAt(s, i) == RawAt(s, j);
    }
  }

  lemma {:induction false} AdjustedRises(s: seq<Case>, i: nat, j: nat)
    requires i <= j < |s|
    ensures AdjustedAt(s, i) <= AdjustedAt(s, j)
    decreases j - i
  {
    if i < j { AdjustedRises(s, i + 1, j); }
  }

  /** P-values between 0 and 1, smallest first. */
  ghost predicate Ordered(s: seq<Case>) {
    (forall i | 0 <= i < |s| :: 0.0 <= s[i].p <= 1.0) && forall i, j | 0 <= i < j < |s| :: s[i].p <= s[j].p
  }

  lemma AdjustedAtLeastP(s: seq<Case>, i: nat)
    requires i < |s| && Ordered(s)
    ensures s[i].p <= AdjustedAt(s, i) <= 1.0
  {
    AdjustedIsLeast(s, i);
    var j :| i <= j < |s| && AdjustedAt(s, i) == RawAt(s, j);
    RatioAtLeastP(s[j].p, |s|, j + 1);
    assert AdjustedAt(s, i) <= RawAt(s, i);
  }

  /** Equal p-values get equal adjusted values, at whatever rank sorting put them. */
  lemma {:induction false} TiesAdjustAlike(s: seq<Case>, i: nat, j: nat)
    requires i <= j < |s| && Ordered(s) && s[i].p == s[j].p
    ensures AdjustedAt(s, i) == AdjustedAt(s, j)
    decreases j - i
  {
    if i < j {
      assert s[i].p <= s[i + 1].p <= s[j].p;
      TiesAdjustAlike(s, i + 1, j);
      LargerRank(s[i].p, |s|, i + 1, i + 2);
      AdjustedIsLeast(s, i + 1);
      assert AdjustedAt(s, i + 1) <= RawAt(s, i + 1);
    }
  }

  // ---- counting instead of ranking -------------------------------------------------------------

  /** How many p-values are at most `x`. */
  function CountUpTo(s: seq<Case>, x: real): nat {
    if s == [] then 0 else (if s[0].p <= x then 1 else 0) + CountUpTo(s[1..], x)
  }

  lemma {:induction false} CountOfInserted(c: Case, s: seq<Case>, x: real)
    ensures CountUpTo(Sorting.Insert(c, s, Smaller), x) == (if c.p <= x then 1 else 0) + CountUpTo(s, x)
  {
    if s != [] && Smaller(s[0], c) {
      CountOfInserted(c, s[1..], x);
      var rest := Sorting.Insert(c, s[1..], Smaller);
      assert ([s[0]] + rest)[1..] == rest;
    } else {
      assert ([c] + s)[1..] == s;
    }
  }

  lemma {:induction false} CountOfSorted(s: seq<Case>, x: real)
    ensures CountUpTo(Sorting.Sort(s, Smaller), x) == CountUpTo(s, x)
  {
    if s != [] {
      CountOfSorted(s[1..], x);
      CountOfInserted(s[0], Sorting.Sort(s[1..], Smaller), x);
    }
  }

  /** In a sorted list the values up to `x` come first. */
  lemma {:induction false} CountSplits(s: seq<Case>, x: real)
    requires Ordered(s)
    ensures CountUpTo(s, x) <= |s|
    ensures forall i | 0 <= i < |s| :: s[i].p <= x <==> i < CountUpTo(s, x)
  {
    if s != [] {
      CountSplits(s[1..], x);
      assert forall i | 1 <= i < |s| :: s[i] == s[1..][i - 1];
      if s[0].p > x && |s| > 1 { assert s[1].p > x; }
    }
  }

  // ---- rejection ---------------------------------------------------------------------------------

  /** Some p-value no smaller than `p` lies under its line: times the number of tests and divided by how many
      p-values are at most it, it is below `alpha`. */
  ghost predicate UnderTheLine(s: seq<Case>, alpha: real, p: real) {
    exists f :: f in s && p <= f.p && CountUpTo(s, f.p) >= 1 && Ratio(f.p, |s|, CountUpTo(s, f.p)) < alpha
  }

  lemma LaterRankUnder(s: seq<Case>, alpha: real, i: nat, k: nat)
    requires i <= k < |s| && Ordered(s) && Ratio(s[k].p, |s|, k + 1) < alpha
    ensures UnderTheLine(s, alpha, s[i].p)
  {
    CountSplits(s, s[k].p);
    LargerRank(s[k].p, |s|, k + 1, CountUpTo(s, s[k].p));
    assert s[k] in s && s[i].p <= s[k].p;
  }

  lemma RejectedMeansUnder(s: seq<Case>, alpha: real, i: nat)
    requires i < |s| && Ordered(s) && AdjustedAt(s, i) < alpha
    ensures UnderTheLine(s, alpha, s[i].p)
  {
    AdjustedIsLeast(s, i);
    var j :| i <= j < |s| && AdjustedAt(s, i) == RawAt(s, j);
    RatioAtLeastP(s[|s| - 1].p, |s|, |s|);
    LaterRankUnder(s, alpha, i, if Ratio(s[j].p, |s|, j + 1) < alpha then j else |s| - 1);
  }

  lemma UnderMeansRejected(s: seq<Case>, alpha: real, i: nat)
    requires i < |s| && Ordered(s) && UnderTheLine(s, alpha, s[i].p)
    ensures AdjustedAt(s, i) < alpha
  {
    var f :| f in s && s[i].p <= f.p && CountUpTo(s, f.p) >= 1 && Ratio(f.p, |s|, CountUpTo(s, f.p)) < alpha;
    BelowRatio(s, i, f, CountUpTo(s, f.p));
  }

  lemma BelowRatio(s: seq<Case>, i: nat, f: Case, c: nat)
    requires i < |s| && Ordered(s) && f in s && s[i].p <= f.p && c == CountUpTo(s, f.p) >= 1
    ensures AdjustedAt(s, i) <= Ratio(f.p, |s|, c)
  {
    var j :| 0 <= j < |s| && s[j] == f;
    var last := LastTied(s, j);
    assert i < c by { CountSplits(s, f.p); }
    LeastOfLater(s, i, c - 1);
    SameRatio(s[c - 1].p, f.p, |s|, c - 1 + 1, c);
  }

  lemma SameRatio(p: real, q: real, m: nat, a: nat, b: nat)
    requires p == q && a == b >= 1
    ensures Ratio(p, m, a) == Ratio(q, m, b)
  {
  }

  lemma LeastOfLater(s: seq<Case>, i: nat, k: nat)
    requires i <= k < |s|
    ensures AdjustedAt(s, i) <= Ratio(s[k].p, |s|, k + 1)
  {
    AdjustedIsLeast(s, i);
    assert AdjustedAt(s, i) <= RawAt(s, k);
  }

  /** The count up to a p-value is the last rank that ties with it. */
  lemma LastTied(s: seq<Case>, j: nat) returns (c: nat)
    requires j < |s| && Ordered(s)
    ensures c == CountUpTo(s, s[j].p) && j < c <= |s| && s[c - 1].p == s[j].p
  {
    c := CountUpTo(s, s[j].p);
    CountSplits(s, s[j].p);
  }

  /** The number of rejections: the largest rank whose ratio is below `alpha`. */
  function Cutoff(s: seq<Case>, alpha: real, n: nat): (k: nat)
    requires n <= |s|
    ensures k <= n
    ensures k > 0 ==> Ratio(s[k - 1].p, |s|, k) < alpha
    ensures forall j | k <= j < n :: Ratio(s[j].p, |s|, j + 1) >= alpha
  {
    if n == 0 then 0 else if Ratio(s[n - 1].p, |s|, n) < alpha then n else Cutoff(s, alpha, n - 1)
  }

  /** Exactly the ranks below the cutoff are rejected. */
  lemma RejectsTheSmallest(s: seq<Case>, alpha: real, i: nat)
    requires i < |s| && alpha <= 1.0
    ensures AdjustedAt(s, i) < alpha <==> i < Cutoff(s, alpha, |s|)
  {
    AdjustedIsLeast(s, i);
    var j :| i <= j < |s| && AdjustedAt(s, i) == RawAt(s, j);
    var k := Cutoff(s, alpha, |s|);
    if i < k { assert AdjustedAt(s, i) <= RawAt(s, k - 1); }
  }

  // ---- from ranks back to tests ------------------------------------------------------------------

  ghost predicate UniqueIds(tests: seq<Test>) {
    forall i, j | 0 <= i < j < |tests| :: tests[i].id != tests[j].id
  }

  ghost predicate InUnitInterval(tests: seq<Test>) {
    forall t | t in tests && t.p.Valid? :: 0.0 <= t.p.p <= 1.0
  }

  lemma {:induction false} CasesAreTests(tests: seq<Test>)
    ensures forall c :: c in Cases(tests) <==> Test(c.id, Valid(c.p)) in tests
    ensures UniqueIds(tests) ==> DistinctCases(Cases(tests))
    ensures |Cases(tests)| <= |tests|
  {
    if tests != [] {
      var t, rest := tests[0], tests[1..];
      assert tests == [t] + rest;
      CasesAreTests(rest);
      if UniqueIds(tests) && t.p.Valid? {
        assert forall j | 1 <= j < |tests| :: tests[j] == rest[j - 1];
        assert UniqueIds(rest);
        LaterIdsDiffer(tests);
      }
    }
  }

  lemma LaterIdsDiffer(tests: seq<Test>)
    requires tests != [] && UniqueIds(tests)
    requires forall c :: c in Cases(tests[1..]) <==> Test(c.id, Valid(c.p)) in tests[1..]
    ensures forall j | 0 <= j < |Cases(tests[1..])| :: Cases(tests[1..])[j].id != tests[0].id
  {
    var rest, later := tests[1..], Cases(tests[1..]);
    forall j | 0 <= j < |later| ensures later[j].id != tests[0].id {
      assert later[j] in later;
      var k :| 0 <= k < |rest| && rest[k] == Test(later[j].id, Valid(later[j].p));
      assert tests[k + 1] == rest[k];
    }
  }

  ghost predicate DistinctCases(s: seq<Case>) {
    forall i, j | 0 <= i < j < |s| :: s[i].id != s[j].id
  }

  lemma SortKeepsDistinct(s: seq<Case>)
    requires DistinctCases(s)
    ensures DistinctCases(Sorting.Sort(s, Smaller))
  {
    var r := Sorting.Sort(s, Smaller);
    Sorting.SameElements(s, Smaller);
    Lists.RearrangedHasNoRepeats(s, r);
    forall i, j | 0 <= i < j < |r| ensures r[i].id != r[j].id {
      assert r[i] in r && r[j] in r;
      var k, l :| 0 <= k < |s| && 0 <= l < |s| && s[k] == r[i] && s[l] == r[j];
    }
  }

  lemma RankedFacts(tests: seq<Test>)
    requires UniqueIds(tests) && InUnitInterval(tests)
    ensures Ordered(Ranked(tests)) && DistinctCases(Ranked(tests)) && |Ranked(tests)| <= |tests|
    ensures forall c :: c in Ranked(tests) <==> Test(c.id, Valid(c.p)) in tests
  {
    CasesAreTests(tests);
    SortKeepsDistinct(Cases(tests));
    Sorting.SameElements(Cases(tests), Smaller);
    Sorting.SortSorted(Cases(tests), Smaller);
    var s := Ranked(tests);
    forall i | 0 <= i < |s| ensures 0.0 <= s[i].p <= 1.0 { assert s[i] in s; }
  }

  lemma {:induction false} MapHolds(s: seq<Case>, alpha: real, n: nat, i: nat)
    requires i < n <= |s| && DistinctCases(s)
    ensures s[i].id in ResultMap(s, alpha, n) && ResultMap(s, alpha, n)[s[i].id] == CorrectionAt(s, alpha, i)
  {
    if i < n - 1 { MapHolds(s, alpha, n - 1, i); }
  }

  /** The rank a valid test ends up at, and that its correction is the one of that rank. */
  lemma RankOf(tests: seq<Test>, alpha: real, k: nat) returns (i: nat)
    requires UniqueIds(tests) && InUnitInterval(tests) && k < |tests| && tests[k].p.Valid?
    ensures i < |Ranked(tests)| && Ranked(tests)[i] == Case(tests[k].id, tests[k].p.p)
    ensures BenjaminiHochberg(tests, alpha)[k] == CorrectionAt(Ranked(tests), alpha, i)
  {
    var s, t := Ranked(tests), tests[k];
    RankedFacts(tests);
    assert Case(t.id, t.p.p) in s;
    i :| 0 <= i < |s| && s[i] == Case(t.id, t.p.p);
    MapHolds(s, alpha, |s|, i);
    assert t.id !in InvalidIds(tests);
  }

  // ---- the results ---------------------------------------------------------------------------------

  /** Independent of any ranking: a test is significant exactly when some p-value no smaller than its own lies
      under the line. */
  lemma RejectsExactly(tests: seq<Test>, alpha: real, k: nat)
    requires UniqueIds(tests) && InUnitInterval(tests) && k < |tests|
    ensures BenjaminiHochberg(tests, alpha)[k].significant
      <==> tests[k].p.Valid? && UnderTheLine(Cases(tests), alpha, tests[k].p.p)
  {
    var s := Ranked(tests);
    if tests[k].p.Valid? {
      var i := RankOf(tests, alpha, k);
      RankedFacts(tests);
      SameLine(Cases(tests), alpha, tests[k].p.p);
      if AdjustedAt(s, i) < alpha { RejectedMeansUnder(s, alpha, i); }
      if UnderTheLine(s, alpha, s[i].p) { UnderMeansRejected(s, alpha, i); }
    } else {
      assert tests[k].id in InvalidIds(tests);
    }
  }

  lemma SameLine(s: seq<Case>, alpha: real, p: real)
    ensures UnderTheLine(s, alpha, p) <==> UnderTheLine(Sorting.Sort(s, Smaller), alpha, p)
  {
    var sorted := Sorting.Sort(s, Smaller);
    Sorting.SameElements(s, Smaller);
    forall x ensures CountUpTo(sorted, x) == CountUpTo(s, x) { CountOfSorted(s, x); }
  }

  /** A larger p-value has a larger adjusted value, equal ones have the same, and none is adjusted downwards. */
  lemma AdjustmentKeepsOrder(tests: seq<Test>, alpha: real, k: nat, l: nat)
    requires UniqueIds(tests) && InUnitInterval(tests) && k < |tests| && l < |tests| && tests[k].p.Valid?
      && tests[l].p.Valid?
    ensures var r := BenjaminiHochberg(tests, alpha);
      && r[k].adjusted.Some? && r[l].adjusted.Some? && tests[k].p.p <= r[k].adjusted.value <= 1.0
      && (tests[k].p.p <= tests[l].p.p ==> r[k].adjusted.value <= r[l].adjusted.value)
  {
    var s := Ranked(tests);
    var i := RankOf(tests, alpha, k);
    var j := RankOf(tests, alpha, l);
    RankedFacts(tests);
    AdjustedAtLeastP(s, i);
    if i <= j {
      AdjustedRises(s, i, j);
    } else if s[i].p <= s[j].p {
      assert s[j].p <= s[i].p;
      TiesAdjustAlike(s, j, i);
    }
  }

  /** Whatever Bonferroni rejects, Benjamini-Hochberg rejects too. */
  lemma BonferroniIsStricter(tests: seq<Test>, alpha: real, k: nat)
    requires UniqueIds(tests) && InUnitInterval(tests) && k < |tests| && Bonferroni(tests, alpha)[k].significant
    ensures BenjaminiHochberg(tests, alpha)[k].significant
  {
    var i := RankOf(tests, alpha, k);
    RankedFacts(tests);
    assert Bonferroni(tests, alpha)[k] == BonferroniOf(tests[k], |tests|, alpha);
    StricterAtRank(Ranked(tests), i, tests[k], |tests|, alpha);
  }

  lemma StricterAtRank(s: seq<Case>, i: nat, t: Test, n: nat, alpha: real)
    requires i < |s| <= n && s[i].p >= 0.0 && t.p == Valid(s[i].p)
    ensures BonferroniOf(t, n, alpha).significant ==> AdjustedAt(s, i) < alpha
  {
    AdjustedIsLeast(s, i);
    RawAtMostBonferroni(s, i, n, t.p.p * n as real);
  }

  lemma RawAtMostBonferroni(s: seq<Case>, i: nat, n: nat, product: real)
    requires i < |s| <= n && s[i].p >= 0.0 && product == s[i].p * n as real
    ensures RawAt(s, i) <= Min(product, 1.0)
  {
    assert Ratio(s[i].p, |s|, i + 1) <= Ratio(s[i].p, |s|, 1) by { LargerRank(s[i].p, |s|, 1, i + 1); }
    FirstRatio(s[i].p, |s|, n, product);
  }

  lemma FirstRatio(p: real, m: nat, n: nat, product: real)
    requires p >= 0.0 && m <= n && product == p * n as real
    ensures Ratio(p, m, 1) <= product
  {
    MulOrder(m as real, n as real, p);
  }

  /** Exactly what Bonferroni does, in the order of the tests: a valid p-value is multiplied by the number of all tests,
      invalid ones counted, and no more than 1; it is rejected exactly when it is below alpha by that number, or when
      alpha is above 1. */
  lemma BonferroniExactly(tests: seq<Test>, alpha: real, k: nat)
    requires k < |tests|
    ensures var c := Bonferroni(tests, alpha)[k];
      && c.id == tests[k].id && c.raw == tests[k].p
      && (tests[k].p.Invalid? ==> c.adjusted.None? && !c.significant)
      && (tests[k].p.Valid? ==>
            && c.adjusted.Some? && c.adjusted.value <= 1.0
            && (c.adjusted.value == 1.0 || c.adjusted.value == Weighed(tests[k].p.p, |tests| as real))
            && c.adjusted.value <= Weighed(tests[k].p.p, |tests| as real)
            && (c.significant <==> tests[k].p.p < alpha / |tests| as real || alpha > 1.0))
  {
    assert Bonferroni(tests, alpha)[k] == BonferroniOf(tests[k], |tests|, alpha);
    if tests[k].p.Valid? {
      BelowShare(tests[k].p.p, |tests| as real, alpha, Weighed(tests[k].p.p, |tests| as real), alpha / |tests| as real);
    }
  }

  lemma BelowShare(p: real, n: real, alpha: real, product: real, share: real)
    requires n > 0.0 && product == Weighed(p, n) && share == alpha / n
    ensures product < alpha <==> p < share
  {
    assert share * n == alpha;
    if p < share { StrictlySameSigns(share - p, n, (share - p) * n); } else { MulOrder(share, p, n); }
  }
}
