/** Rounding whole shares down through a list of lot sizes, as nested market rules do (ez/core/market_rules.py): when
    multiples of one lot stay multiples of it. */
module LotArithmetic {

  type Lot = n: nat | n > 0 witness 1

  /** `n` shares rounded down to a lot. */
  function Floored(n: nat, own: Lot): nat { n / own * own }

  /** `n` shares rounded down to one lot after another. */
  function FlooredBy(n: nat, lots: seq<Lot>): nat
    decreases |lots|
  {
    if lots == [] then n else FlooredBy(Floored(n, lots[0]), lots[1..])
  }

  /** `k` lots come out as whole lots. */
  predicate Kept(k: nat, lot: Lot, lots: seq<Lot>) { FlooredBy(k * lot, lots) % lot == 0 }

  /** Any number of lots comes out as whole lots. */
  ghost predicate KeepsLots(lot: Lot, lots: seq<Lot>) { forall k: nat :: Kept(k, lot, lots) }

  predicate Divides(a: Lot, b: nat) { b % a == 0 }

  // ---- quotients -----------------------------------------------------------------------

  lemma QuotientIs(n: nat, d: nat, q: int)
    requires d > 0 && q * d <= n < q * d + d
    ensures n / d == q && n % d == n - q * d
  {
    var p, r := n / d, n % d;
    assert n == p * d + r;
    if p < q { Stretch(p, q, d); }
    if p > q { Stretch(q, p, d); }
  }

  lemma Stretch(p: int, q: int, d: nat)
    requires p < q
    ensures p * d + d <= q * d
  {
    var gap := q - p - 1;
    assert q * d == p * d + d + gap * d;
  }

  lemma FlooredIs(n: nat, d: Lot, q: nat)
    requires q * d <= n < q * d + d
    ensures Floored(n, d) == q * d
  {
    QuotientIs(n, d, q);
  }

  lemma FlooredBelow(n: nat, d: Lot)
    ensures Floored(n, d) <= n < Floored(n, d) + d && Floored(n, d) % d == 0
  {
    var q := n / d;
    assert n == q * d + n % d;
    QuotientIs(q * d, d, q);
  }

  lemma MultiplesAdd(a: nat, b: nat, d: Lot)
    requires b % d == 0
    ensures (a + b) % d == a % d && Floored(a + b, d) == Floored(a, d) + b
  {
    var p, q, r := a / d, b / d, a % d;
    assert a == p * d + r && b == q * d;
    assert (p + q) * d == p * d + q * d;
    QuotientIs(a + b, d, p + q);
  }

  lemma MultipleOfMultiple(a: nat, b: Lot, c: nat)
    requires a % b == 0
    ensures (a * c) % b == 0
  {
    var q := a / b;
    assert a == q * b;
    assert a * c == (q * c) * b;
    QuotientIs(a * c, b, q * c);
  }

  lemma DivisorOfDivisor(n: nat, g: Lot, d: Lot)
    requires n % g == 0 && g % d == 0
    ensures n % d == 0
  {
    var q := n / g;
    assert n == g * q;
    MultipleOfMultiple(g, d, q);
  }

  lemma {:induction false} FlooredByBelow(n: nat, lots: seq<Lot>)
    ensures FlooredBy(n, lots) <= n
    decreases |lots|
  {
    if lots != [] {
      FlooredBelow(n, lots[0]);
      FlooredByBelow(Floored(n, lots[0]), lots[1..]);
    }
  }

  lemma FlooredFirst(n: nat, own: Lot, lots: seq<Lot>)
    ensures FlooredBy(n, [own] + lots) == FlooredBy(Floored(n, own), lots)
  {
    assert ([own] + lots)[1..] == lots;
  }

  // ---- a cycle of cases is enough ------------------------------------------------------

  /** All the lots multiplied. */
  function Product(lots: seq<Lot>): (p: Lot) { if lots == [] then 1 else Times(lots[0], Product(lots[1..])) }

  function Times(a: Lot, b: Lot): (p: Lot) {
    Positive(a, b);
    a * b
  }

  lemma Positive(a: Lot, b: Lot)
    ensures a * b > 0
  {
  }

  ghost predicate MultipleOfAll(n: nat, lots: seq<Lot>) { forall i | 0 <= i < |lots| :: n % lots[i] == 0 }

  lemma {:induction false} ProductIsMultiple(lots: seq<Lot>, c: nat)
    ensures MultipleOfAll(Product(lots) * c, lots)
  {
    if lots != [] {
      var own, rest := lots[0], Product(lots[1..]);
      ProductIsMultiple(lots[1..], own * c);
      assert Product(lots) * c == rest * (own * c) == own * (rest * c);
      QuotientIs(own * (rest * c), own, rest * c);
    }
  }

  /** A multiple of every lot passes through. */
  lemma {:induction false} FlooredByAdds(n: nat, t: nat, lots: seq<Lot>)
    requires MultipleOfAll(t, lots)
    ensures FlooredBy(n + t, lots) == FlooredBy(n, lots) + t
    decreases |lots|
  {
    if lots != [] {
      MultiplesAdd(n, t, lots[0]);
      FlooredByAdds(Floored(n, lots[0]), t, lots[1..]);
    }
  }

  lemma {:induction false} NothingFloored(lots: seq<Lot>)
    ensures FlooredBy(0, lots) == 0
  {
    if lots != [] { NothingFloored(lots[1..]); }
  }

  /** Whether `k` lots are kept depends on `k` up to the product of the lots. */
  lemma KeptInCycles(k: nat, c: nat, lot: Lot, lots: seq<Lot>)
    ensures Kept(k + Product(lots) * c, lot, lots) <==> Kept(k, lot, lots)
  {
    var t := Product(lots) * c;
    var more := t * lot;
    CycleFacts(c, lot, lots, t, more);
    KeptAfter(k, t, lot, lots, more);
  }

  lemma KeptAfter(k: nat, t: nat, lot: Lot, lots: seq<Lot>, more: nat)
    requires MultipleOfAll(more, lots) && more % lot == 0 && more == t * lot
    ensures Kept(k + t, lot, lots) <==> Kept(k, lot, lots)
  {
    var n := k * lot;
    assert (k + t) * lot == n + more;
    FlooredByAdds(n, more, lots);
    MultiplesAdd(FlooredBy(n, lots), more, lot);
  }

  lemma CycleFacts(c: nat, lot: Lot, lots: seq<Lot>, t: nat, more: nat)
    requires t == Product(lots) * c && more == t * lot
    ensures MultipleOfAll(more, lots) && more % lot == 0
  {
    assert more == Product(lots) * (c * lot);
    ProductIsMultiple(lots, c * lot);
    QuotientIs(more, lot, t);
  }

  lemma BrokenAgain(k: nat, lot: Lot, lots: seq<Lot>)
    requires !Kept(k, lot, lots)
    ensures !Kept(k + Product(lots), lot, lots)
  {
    KeptInCycles(k, 1, lot, lots);
  }

  /** So finitely many cases decide. */
  lemma FiniteCheck(lot: Lot, lots: seq<Lot>)
    ensures KeepsLots(lot, lots) <==> forall k: nat | k < Product(lots) :: Kept(k, lot, lots)
  {
    if forall k: nat | k < Product(lots) :: Kept(k, lot, lots) {
      forall k: nat ensures Kept(k, lot, lots) {
        var p := Product(lots);
        var r, c := k % p, k / p;
        assert k == r + p * c;
        KeptInCycles(r, c, lot, lots);
      }
    }
  }

  // ---- the grain of a list -------------------------------------------------------------

  /** Multiples of `g` come out as multiples of this: a lot that divides what comes in changes nothing, any other rounds
      to itself. */
  function Grain(g: Lot, lots: seq<Lot>): Lot
    decreases |lots|
  {
    if lots == [] then g else Grain(if Divides(lots[0], g) then g else lots[0], lots[1..])
  }

  lemma {:induction false} FlooredInGrain(n: nat, g: Lot, lots: seq<Lot>)
    requires n % g == 0
    ensures FlooredBy(n, lots) % Grain(g, lots) == 0
    decreases |lots|
  {
    if lots != [] {
      var own := lots[0];
      FlooredBelow(n, own);
      if Divides(own, g) {
        DivisorOfDivisor(n, g, own);
        MultiplesAdd(0, n, own);
        FlooredInGrain(n, g, lots[1..]);
      } else {
        FlooredInGrain(Floored(n, own), own, lots[1..]);
      }
    }
  }

  /** A grain that is a multiple of the lot is enough. */
  lemma GrainSuffices(lot: Lot, lots: seq<Lot>)
    requires Divides(lot, Grain(lot, lots))
    ensures KeepsLots(lot, lots)
  {
    forall k: nat ensures Kept(k, lot, lots) {
      QuotientIs(k * lot, lot, k);
      FlooredInGrain(k * lot, lot, lots);
      DivisorOfDivisor(FlooredBy(k * lot, lots), Grain(lot, lots), lot);
    }
  }

  /** For a single lot it is needed, too: one of the two lots divides the other. */
  lemma OneLotExactly(lot: Lot, own: Lot)
    ensures KeepsLots(lot, [own]) <==> Divides(own, lot) || Divides(lot, own)
  {
    assert [own][1..] == [];
    if Divides(own, lot) || Divides(lot, own) {
      assert Grain(lot, [own]) == if Divides(own, lot) then lot else own;
      GrainSuffices(lot, [own]);
    } else {
      var k := Breaking(lot, own);
      BreakingBreaks(lot, own, k * lot);
      assert FlooredBy(k * lot, [own]) == Floored(k * lot, own);
      assert !Kept(k, lot, [own]);
    }
  }

  /** How many outer lots it takes for an inner lot that neither divides nor is divided to break one. */
  function Breaking(lot: Lot, own: Lot): nat { if own < lot then 1 else (own + lot - 1) / lot }

  lemma BreakingBreaks(lot: Lot, own: Lot, n: nat)
    requires lot > 0 && own > 0 && !Divides(own, lot) && !Divides(lot, own) && n == Breaking(lot, own) * lot
    ensures n > 0 && Floored(n, own) % lot != 0
  {
    if own < lot {
      assert n == lot;
      LargerLotBreaks(lot, own);
    } else {
      SmallerLotBreaks(lot, own, Breaking(lot, own), n);
    }
  }

  lemma SmallerLotBreaks(lot: Lot, own: Lot, k: nat, n: nat)
    requires 0 < lot <= own && own % lot != 0 && k == (own + lot - 1) / lot && n == k * lot
    ensures n > 0 && Floored(n, own) == own && Floored(n, own) % lot != 0
  {
    RoundUp(own, lot, k);
    QuotientIs(n, own, 1);
  }

  lemma LargerLotBreaks(lot: Lot, own: Lot)
    requires 0 < own < lot && lot % own != 0
    ensures 0 < Floored(lot, own) < lot && Floored(lot, own) % lot != 0
  {
    var q, r := lot / own, lot % own;
    assert lot == q * own + r;
    if q < 1 { Stretch(q, 1, own); }
    RestIsItself(q * own, lot);
  }

  lemma RestIsItself(n: nat, lot: nat)
    requires 0 < n < lot
    ensures n % lot != 0
  {
  }

  lemma RoundUp(own: Lot, lot: Lot, k: nat)
    requires lot > 0 && own % lot != 0 && k == (own + lot - 1) / lot
    ensures own < k * lot < own + lot
  {
    var n := own + lot - 1;
    assert n == k * lot + n % lot;
    if k * lot == own { QuotientIs(own, lot, k); }
  }

  /** For three lots it is not: lots of 2 rounded to 3, 2 and 3 have grain 3 and stay lots of 2 all the same, because
      they end as lots of 6. */
  lemma GrainIsNotNeeded()
    ensures Grain(2, [3, 2, 3]) == 3 && !Divides(2, 3) && KeepsLots(2, [3, 2, 3])
  {
    var lots: seq<Lot> := [3, 2, 3];
    assert lots[1..] == [2, 3] && lots[1..][1..] == [3] && lots[1..][1..][1..] == [];
    forall k: nat ensures Kept(k, 2, lots) {
      assert FlooredBy(k * 2, lots) == Floored(Floored(Floored(k * 2, 3), 2), 3);
      EndsInSixes(k * 2);
    }
  }

  lemma EndsInSixes(n: nat)
    ensures Floored(Floored(Floored(n, 3), 2), 3) % 2 == 0
  {
    assert Floored(n, 3) == 3 * (n / 3);
    ThreesEndInSixes(n / 3);
  }

  lemma ThreesEndInSixes(a: nat)
    ensures Floored(Floored(3 * a, 2), 3) % 2 == 0
  {
    var b := a / 2;
    if a % 2 == 0 {
      assert 3 * a == 6 * b;
      EvenEndsInSixes(b);
    } else {
      assert 3 * a == 6 * b + 3;
      OddEndsInSixes(b);
    }
  }

  lemma EvenEndsInSixes(b: nat)
    ensures Floored(Floored(6 * b, 2), 3) == 6 * b
  {
    FlooredIs(6 * b, 2, 3 * b);
    FlooredIs(6 * b, 3, 2 * b);
  }

  lemma OddEndsInSixes(b: nat)
    ensures Floored(Floored(6 * b + 3, 2), 3) == 6 * b
  {
    FlooredIs(6 * b + 3, 2, 3 * b + 1);
    FlooredIs(6 * b + 2, 3, 2 * b);
  }
}
