/** Cutting a trade's shares into slices, `_split_shares` in ez/live/paper_broker.py. */
module ShareSlices {
  import opened Execution

  function Least(a: int, b: int): int { if a < b then a else b }

  function Most(a: int, b: int): int { if a < b then b else a }

  function SliceCount(total: nat, slices: int, lot: int): int
    requires lot >= 1
  {
    Most(Least(slices, total / lot), 1)
  }

  /** The next slice when `k` are still to come. */
  function NextChunk(remaining: int, k: int, lot: int): int
    requires lot >= 1 && k >= 1
  {
    if k == 1 then remaining
    else Least(Most((remaining / k) / lot * lot, lot), remaining - lot * (k - 1))
  }

  function Chunks(remaining: int, k: nat, lot: int): seq<int>
    requires lot >= 1
    decreases k
  {
    if k == 0 then []
    else var c := NextChunk(remaining, k, lot); [c] + Chunks(remaining - c, k - 1, lot)
  }

  function Positives(s: seq<int>): seq<int> {
    if s == [] then [] else (if s[0] > 0 then [s[0]] else []) + Positives(s[1..])
  }

  function Slices(total: int, slices: int, lot: int): seq<int>
    requires lot >= 1
  {
    if total <= 0 then [] else Positives(Chunks(total, SliceCount(total, slices, lot), lot))
  }

  method SplitShares(total: int, slices: int, lot: int) returns (r: seq<int>)
    requires lot >= 1
    ensures r == Slices(total, slices, lot)
  {
    if total <= 0 { return []; }
    var effective := SliceCount(total, slices, lot);
    var chunks := [];
    var remaining := total;
    for k := effective downto 0
      invariant chunks + Chunks(remaining, k, lot) == Chunks(total, effective, lot)
    {
      var chunk := NextChunk(remaining, k + 1, lot);
      ghost var rest := Chunks(remaining - chunk, k, lot);
      assert chunks + [chunk] + rest == chunks + ([chunk] + rest);
      chunks := chunks + [chunk];
      remaining := remaining - chunk;
    }
    assert Chunks(remaining, 0, lot) == [];
    assert chunks + [] == chunks;
    r := Positives(chunks);
  }

  function SumOf(s: seq<int>): int { if s == [] then 0 else s[0] + SumOf(s[1..]) }

  /** `base` is the largest multiple of the lot that is at most an equal share of `remaining`. */
  ghost predicate IsShare(base: int, remaining: int, k: int, lot: int) {
    lot >= 1 && k >= 1 && base >= lot && base % lot == 0 && base * k <= remaining < (base + lot) * k
  }

  lemma DivideBetween(x: int, k: int, low: int, high: int)
    requires k >= 1 && low * k <= x < high * k
    ensures low <= x / k < high
  {
    var q, r := x / k, x % k;
    assert x == q * k + r;
    if q < low { ProductOrder(q + 1, low, k); } else if q >= high { ProductOrder(high, q, k); }
  }

  lemma ProductOrder(a: int, b: int, c: int)
    requires a <= b && c >= 0
    ensures a * c <= b * c
  {
  }

  lemma OneLess(a: int, k: int)
    ensures a * (k - 1) == a * k - a
  {
  }

  lemma WholeLotsBelow(share: int, low: int, lot: int)
    requires lot >= 1 && low % lot == 0 && low <= share
    ensures low <= share / lot * lot <= share < share / lot * lot + lot
  {
    var m, n := share / lot, low / lot;
    assert n * lot == low;
    if m < n { ProductOrder(m + 1, n, lot); }
    ProductOrder(n, m, lot);
  }

  /** There is such a share when every slice can have a lot, and it is at least `low`. */
  lemma ShareExists(remaining: int, k: int, lot: int, low: int) returns (base: int)
    requires lot >= 1 && k >= 1 && low >= lot && low % lot == 0 && low * k <= remaining
    ensures IsShare(base, remaining, k, lot) && base >= low
  {
    var share := remaining / k;
    ShareBounds(remaining, k, share, low);
    WholeLotsBelow(share, low, lot);
    base := share / lot * lot;
    MultipleOfLot(share / lot, lot);
    ProductOrder(base, share, k);
    ProductOrder(share + 1, base + lot, k);
  }

  lemma ShareBounds(remaining: int, k: int, share: int, low: int)
    requires k >= 1 && share == remaining / k && low * k <= remaining
    ensures share * k <= remaining < (share + 1) * k && low <= share
  {
    var r := remaining % k;
    assert remaining == share * k + r;
    if share < low { ProductOrder(share + 1, low, k); }
  }

  /** The next of several slices is that share. */
  lemma ChunkIsShare(base: int, remaining: int, k: int, lot: int)
    requires k >= 2 && IsShare(base, remaining, k, lot)
    ensures NextChunk(remaining, k, lot) == base
  {
    var share, m := remaining / k, base / lot;
    DivideBetween(remaining, k, base, base + lot);
    assert m * lot == base && (m + 1) * lot == base + lot;
    DivideBetween(share, lot, m, m + 1);
    ProductOrder(lot, base, k - 1);
    OneLess(base, k);
  }

  /** Sharing out: nothing is lost. */
  lemma {:induction false} ChunksAddUp(remaining: int, k: nat, lot: int)
    requires lot >= 1 && k >= 1
    ensures |Chunks(remaining, k, lot)| == k && SumOf(Chunks(remaining, k, lot)) == remaining
    decreases k
  {
    if k > 1 { ChunksAddUp(remaining - NextChunk(remaining, k, lot), k - 1, lot); }
  }

  /** Slices never get smaller, and all but the last are whole lots. */
  ghost predicate Rising(c: seq<int>, low: int, lot: int)
    requires lot >= 1
  {
    && (forall i | 0 <= i < |c| :: c[i] >= low)
    && (forall i, j | 0 <= i < j < |c| :: c[i] <= c[j])
    && (forall i | 0 <= i < |c| - 1 :: c[i] % lot == 0)
  }

  lemma {:induction false} ChunksRise(remaining: int, k: nat, lot: int, low: int)
    requires lot >= 1 && k >= 1 && low >= lot && low % lot == 0 && low * k <= remaining
    ensures |Chunks(remaining, k, lot)| == k && Rising(Chunks(remaining, k, lot), low, lot)
    decreases k
  {
    if k == 1 {
      OnlyChunk(remaining, lot);
    } else {
      var base := ShareExists(remaining, k, lot, low);
      ChunkIsShare(base, remaining, k, lot);
      OneLess(base, k);
      ChunksRise(remaining - base, k - 1, lot, base);
      RisingCons(base, Chunks(remaining - base, k - 1, lot), low, lot);
    }
  }

  lemma OnlyChunk(remaining: int, lot: int)
    requires lot >= 1
    ensures Chunks(remaining, 1, lot) == [remaining]
  {
  }

  lemma RisingCons(c: int, rest: seq<int>, low: int, lot: int)
    requires lot >= 1 && c % lot == 0 && c >= low && Rising(rest, c, lot)
    ensures Rising([c] + rest, low, lot)
  {
  }

  /** Starting below (base + lot) * k + lot, no slice reaches base + 2 lots. */
  lemma {:induction false} ChunksStayBelow(remaining: int, k: nat, lot: int, base: int)
    requires lot >= 1 && k >= 1 && base >= lot && base % lot == 0 && base * k <= remaining < (base + lot) * k + lot
    ensures forall c | c in Chunks(remaining, k, lot) :: c < base + 2 * lot
    decreases k
  {
    if k == 1 {
      OnlyChunk(remaining, lot);
    } else {
      OneLess(base, k);
      OneLess(base + lot, k);
      if remaining < (base + lot) * k {
        ChunkIsShare(base, remaining, k, lot);
        ChunksStayBelow(remaining - base, k - 1, lot, base);
      } else {
        OneMoreLot(base, remaining, k, lot);
        ChunkIsShare(base + lot, remaining, k, lot);
        ChunksStayBelow(remaining - base - lot, k - 1, lot, base);
      }
    }
  }

  lemma OneMoreLot(base: int, remaining: int, k: int, lot: int)
    requires lot >= 1 && k >= 2 && base >= lot && base % lot == 0
      && (base + lot) * k <= remaining < (base + lot) * k + lot
    ensures IsShare(base + lot, remaining, k, lot) && base * (k - 1) <= remaining - base - lot
  {
    ProductOrder(1, k, lot);
    Distributes(base, lot, k);
    OneLess(base, k);
    var m := base / lot;
    assert base + lot == (m + 1) * lot;
    MultipleOfLot(m + 1, lot);
    assert (base + lot + lot) * k == (base + lot) * k + lot * k by { Distributes(base + lot, lot, k); }
  }

  lemma Distributes(a: int, b: int, k: int)
    ensures (a + b) * k == a * k + b * k
  {
  }

  /** What `_split_shares` promises. */
  lemma SlicesFacts(total: int, slices: int, lot: int)
    requires lot >= 1 && total >= 1
    ensures var c := Slices(total, slices, lot);
      && SumOf(c) == total && |c| == Most(Least(slices, total / lot), 1)
      && (forall i | 0 <= i < |c| :: c[i] >= 1)
      && (forall i, j | 0 <= i < j < |c| :: c[i] <= c[j] < c[i] + 2 * lot)
      && (forall i | 0 <= i < |c| - 1 :: c[i] % lot == 0)
  {
    var k := SliceCount(total, slices, lot);
    var c := Chunks(total, k, lot);
    ChunksAddUp(total, k, lot);
    if k == 1 {
      OnlyChunk(total, lot);
    } else {
      SlicesFit(total, slices, lot, k);
      ChunksAreEven(total, k, lot);
    }
    KeepsPositives(c);
  }

  lemma SlicesFit(total: nat, slices: int, lot: int, k: int)
    requires lot >= 1 && k == SliceCount(total, slices, lot) && k != 1
    ensures lot * k <= total
  {
    ProductOrder(k, total / lot, lot);
  }

  lemma ChunksAreEven(total: int, k: nat, lot: int)
    requires lot >= 1 && k >= 2 && lot * k <= total
    ensures var c := Chunks(total, k, lot);
      && |c| == k && (forall i | 0 <= i < |c| :: c[i] >= 1)
      && (forall i, j | 0 <= i < j < |c| :: c[i] <= c[j] < c[i] + 2 * lot)
      && (forall i | 0 <= i < |c| - 1 :: c[i] % lot == 0)
  {
    var c := Chunks(total, k, lot);
    var base := ShareExists(total, k, lot, lot);
    ChunkIsShare(base, total, k, lot);
    ChunksRise(total, k, lot, base);
    ChunksStayBelow(total, k, lot, base);
    forall i, j | 0 <= i < j < |c| ensures c[i] <= c[j] < c[i] + 2 * lot { assert c[j] in c; }
  }

  lemma {:induction false} KeepsPositives(c: seq<int>)
    requires forall i | 0 <= i < |c| :: c[i] >= 1
    ensures Positives(c) == c
  {
    if c != [] { KeepsPositives(c[1..]); }
  }
}
