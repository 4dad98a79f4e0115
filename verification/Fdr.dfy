/** False discovery rate corrections, ez/agent/fdr.py. */
module Fdr {
  import opened Options
  import opened Reals
  import Sorting

  /** `Invalid` is a missing, NaN or infinite p-value. */
  datatype PValue = Valid(p: real) | Invalid

  datatype Test = Test(id: string, p: PValue)

  /** `adjusted` is `None` where the code has NaN. */
  datatype Correction = Correction(id: string, raw: PValue, adjusted: Option<real>, significant: bool)

  /** A test with a valid p-value. */
  datatype Case = Case(id: string, p: real)

  predicate Smaller(a: Case, b: Case) { a.p < b.p }

  function Cases(tests: seq<Test>): seq<Case> {
    if tests == [] then []
    else (if tests[0].p.Valid? then [Case(tests[0].id, tests[0].p.p)] else []) + Cases(tests[1..])
  }

  function Ranked(tests: seq<Test>): seq<Case> { Sorting.Sort(Cases(tests), Smaller) }

  function Ratio(p: real, m: nat, rank: nat): real
    requires rank >= 1
  {
    p * m as real / rank as real
  }

  /** Before the step-up pass; `i` counts ranks from 0. */
  function RawAt(s: seq<Case>, i: nat): real
    requires i < |s|
  {
    Min(Ratio(s[i].p, |s|, i + 1), 1.0)
  }

  /** After it: the least of this and all later ones. */
  function AdjustedAt(s: seq<Case>, i: nat): real
    requires i < |s|
    decreases |s| - i
  {
    if i + 1 == |s| then RawAt(s, i) else Min(RawAt(s, i), AdjustedAt(s, i + 1))
  }

  function CorrectionAt(s: seq<Case>, alpha: real, i: nat): Correction
    requires i < |s|
  {
    Correction(s[i].id, Valid(s[i].p), Some(AdjustedAt(s, i)), AdjustedAt(s, i) < alpha)
  }

  /** The result of each id among the first `n` ranks; of one id, the last rank's. */
  function ResultMap(s: seq<Case>, alpha: real, n: nat): map<string, Correction>
    requires n <= |s|
  {
    if n == 0 then map[] else ResultMap(s, alpha, n - 1)[s[n - 1].id := CorrectionAt(s, alpha, n - 1)]
  }

  function InvalidIds(tests: seq<Test>): set<string> { set t | t in tests && t.p.Invalid? :: t.id }

  function Uncorrected(t: Test): Correction { Correction(t.id, t.p, None, false) }

  function Looked(t: Test, invalid: set<string>, results: map<string, Correction>): Correction {
    if t.id in invalid || t.id !in results then Uncorrected(t) else results[t.id]
  }

  function LookedAll(tests: seq<Test>, invalid: set<string>, results: map<string, Correction>): seq<Correction> {
    seq(|tests|, i requires 0 <= i < |tests| => Looked(tests[i], invalid, results))
  }

  function BenjaminiHochberg(tests: seq<Test>, alpha: real): seq<Correction> {
    var s := Ranked(tests);
    LookedAll(tests, InvalidIds(tests), ResultMap(s, alpha, |s|))
  }

  function BonferroniOf(t: Test, n: nat, alpha: real): Correction {
    if t.p.Invalid? then Uncorrected(t)
    else
      var adjusted := Min(t.p.p * n as real, 1.0);
      Correction(t.id, t.p, Some(adjusted), adjusted < alpha)
  }

  function Bonferroni(tests: seq<Test>, alpha: real): seq<Correction> {
    seq(|tests|, i requires 0 <= i < |tests| => BonferroniOf(tests[i], |tests|, alpha))
  }

  // ---- the procedures as the code has them -------------------------------------------------------

  method AdjustPValues(s: seq<Case>) returns (adjusted: array<real>)
    ensures fresh(adjusted) && adjusted.Length == |s|
    ensures forall i | 0 <= i < |s| :: adjusted[i] == AdjustedAt(s, i)
  {
    var m := |s|;
    adjusted := new real[m];
    for i := 0 to m
      invariant forall k | 0 <= k < i :: adjusted[k] == RawAt(s, k)
    {
      adjusted[i] := RawAt(s, i);
    }
    if m == 0 { return; }
    for i := m - 1 downto 0
      invariant forall k | 0 <= k < i :: adjusted[k] == RawAt(s, k)
      invariant forall k | i <= k < m :: adjusted[k] == AdjustedAt(s, k)
    {
      adjusted[i] := Min(adjusted[i], adjusted[i + 1]);
    }
  }

  method CorrectBH(tests: seq<Test>, alpha: real) returns (results: seq<Correction>)
    ensures results == BenjaminiHochberg(tests, alpha)
  {
    var s := Ranked(tests);
    var adjusted := AdjustPValues(s);
    var found: map<string, Correction> := map[];
    for i := 0 to |s|
      invariant found == ResultMap(s, alpha, i)
    {
      found := found[s[i].id := Correction(s[i].id, Valid(s[i].p), Some(adjusted[i]), adjusted[i] < alpha)];
    }
    var invalid := InvalidIds(tests);
    results := [];
    for i := 0 to |tests|
      invariant |results| == i && forall k | 0 <= k < i :: results[k] == Looked(tests[k], invalid, found)
    {
      results := results + [Looked(tests[i], invalid, found)];
    }
  }

  method CorrectBonferroni(tests: seq<Test>, alpha: real) returns (results: seq<Correction>)
    ensures results == Bonferroni(tests, alpha)
  {
    results := [];
    for i := 0 to |tests|
      invariant |results| == i && forall k | 0 <= k < i :: results[k] == BonferroniOf(tests[k], |tests|, alpha)
    {
      results := results + [BonferroniOf(tests[i], |tests|, alpha)];
    }
  }
}
