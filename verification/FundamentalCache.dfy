/** The in-memory cache of fundamental data and its LRU eviction, ez/data/fundamental.py. */
module FundamentalCache {
  import opened Lists
  import Sorting

  const MAX_UNITS: nat := 500000
  const TARGET_UNITS: nat := 375000  // 75% of the maximum

  /** A daily row is kept by symbol and date; the columns do not matter here. */
  type Row = seq<real>

  datatype Cache = Cache(
    daily: map<(string, int), Row>, fina: map<string, seq<Row>>, industry: map<string, string>,
        accessTime: map<string, int>)

  // ---- units -------------------------------------------------------------------------------------

  ghost function RowCount(fina: map<string, seq<Row>>): nat {
    if fina == map[] then 0 else var s :| s in fina; |fina[s]| + RowCount(fina - {s})
  }

  /** Any symbol can be counted first. */
  lemma {:induction false} CountFirst(fina: map<string, seq<Row>>, s: string)
    requires s in fina
    ensures RowCount(fina) == |fina[s]| + RowCount(fina - {s})
    decreases |fina|
  {
    var c :| c in fina && RowCount(fina) == |fina[c]| + RowCount(fina - {c});
    if c != s {
      CountFirst(fina - {c}, s);
      CountFirst(fina - {s}, c);
      assert fina - {c} - {s} == fina - {s} - {c};
    }
  }

  ghost function Units(c: Cache): nat { |c.daily| + RowCount(c.fina) + |c.industry| }

  function DailyKeys(daily: set<(string, int)>, s: string): set<(string, int)> { set k | k in daily && k.0 == s }

  function SymbolUnits(c: Cache, s: string): nat {
    |DailyKeys(c.daily.Keys, s)| + (if s in c.fina then |c.fina[s]| else 0) + (if s in c.industry then 1 else 0)
  }

  /** The symbols with data in the cache. */
  function Live(c: Cache): set<string> { (set k | k in c.daily :: k.0) + c.fina.Keys + c.industry.Keys }

  function TimeOf(c: Cache, s: string): int { TimeIn(c.accessTime, s) }

  // ---- eviction ------------------------------------------------------------------------------------

  function Without(c: Cache, evicted: set<string>): Cache {
    Cache(map k | k in c.daily && k.0 !in evicted :: c.daily[k], c.fina - evicted, c.industry - evicted,
          c.accessTime - evicted)
  }

  /** Drops the access times of symbols that have no data. */
  function Cleaned(c: Cache): Cache {
    c.(accessTime := map s | s in c.accessTime && s in Live(c) :: c.accessTime[s])
  }

  function UnitsOf(c: Cache): map<string, nat> { map s | s in Live(c) :: SymbolUnits(c, s) }

  function CountIn(counts: map<string, nat>, s: string): nat { if s in counts then counts[s] else 0 }

  /** Adds candidates to those already chosen until enough is gone; symbols without units are passed over. */
  function Choose(units: map<string, nat>, order: seq<string>, chosen: set<string>, remaining: int): set<string>
    decreases |order|
  {
    if order == [] || remaining <= TARGET_UNITS then chosen
    else if CountIn(units, order[0]) == 0 then Choose(units, order[1..], chosen, remaining)
    else Choose(units, order[1..], chosen + {order[0]}, remaining - CountIn(units, order[0]))
  }

  /** The count the loop keeps. */
  function CountLeft(units: map<string, nat>, order: seq<string>, remaining: int): int
    decreases |order|
  {
    if order == [] || remaining <= TARGET_UNITS then remaining
      else CountLeft(units, order[1..], remaining - CountIn(units, order[0]))
  }

  ghost function Evicted(c: Cache, order: seq<string>): set<string> { Choose(UnitsOf(c), order, {}, Units(c)) }

  /** The unprotected symbols, least recently used first; ties may come in any order. */
  ghost predicate IsCandidateOrder(order: seq<string>, c: Cache, protect: set<string>) {
    && NoRepeats(order) && (forall s :: s in order <==> s in Live(c) - protect) && OldestFirst(order, c)
  }

  ghost predicate OldestFirst(order: seq<string>, c: Cache) {
    forall i, j | 0 <= i < j < |order| :: TimeOf(c, order[i]) <= TimeOf(c, order[j])
  }

  /** What eviction may leave of a cache. */
  ghost predicate EvictsTo(before: Cache, protect: set<string>, after: Cache) {
    if Units(before) <= MAX_UNITS then after == before
    else
      exists order ::
        IsCandidateOrder(order, before, protect) && after == Cleaned(Without(before, Evicted(before, order)))
  }

  // ---- loading ---------------------------------------------------------------------------------------

  function Touch(c: Cache, symbols: seq<string>, now: int): Cache {
    c.(accessTime := c.accessTime + (map s | s in symbols :: now))
  }

  function LoadDaily(c: Cache, rows: seq<((string, int), Row)>): Cache {
    if rows == [] then c else var last := |rows| - 1; var d := LoadDaily(c, rows[..last]);
      d.(daily := d.daily[rows[last].0 := rows[last].1])
  }

  /** The rows of one symbol, in the order they were read. */
  function RowsOf(rows: seq<(string, Row)>, s: string): seq<Row> {
    if rows == [] then []
    else var last := |rows| - 1; RowsOf(rows[..last], s) + (if rows[last].0 == s then [rows[last].1] else [])
  }

  /** The requested symbols' rows are replaced; symbols without rows have no entry. */
  function LoadFina(c: Cache, symbols: seq<string>, rows: seq<(string, Row)>): Cache {
    c.(fina := NonEmpty(Replaced(c.fina, symbols, rows), symbols))
  }

  function Replaced(fina: map<string, seq<Row>>, symbols: seq<string>, rows: seq<(string, Row)>): map<string, seq<Row>>
  {
    fina + (map s | s in symbols :: RowsOf(rows, s))
  }

  function NonEmpty(fina: map<string, seq<Row>>, symbols: seq<string>): map<string, seq<Row>> {
    map s | s in fina && (s in symbols ==> fina[s] != []) :: fina[s]
  }

  function LoadIndustry(c: Cache, rows: seq<(string, string)>): Cache {
    if rows == [] then c
    else
      var last := |rows| - 1;
      var d := LoadIndustry(c, rows[..last]);
      if rows[last].0 != "" && rows[last].1 != "" then d.(industry := d.industry[rows[last].0 := rows[last].1]) else d
  }

  function Load(c: Cache, symbols: seq<string>, now: int, daily: seq<((string, int), Row)>, fina: seq<(string, Row)>,
                industry: seq<(string, string)>): Cache
  {
    LoadIndustry(LoadFina(LoadDaily(Touch(c, symbols, now), daily), symbols, fina), industry)
  }

  // ---- the cache as the code has it -------------------------------------------------------------------

  class FundamentalStore {
    var daily: map<(string, int), Row>
    var fina: map<string, seq<Row>>
    var industry: map<string, string>
    var accessTime: map<string, int>

    ghost function Value(): Cache
      reads this
    {
      Cache(daily, fina, industry, accessTime)
    }

    constructor ()
      ensures Value() == Cache(map[], map[], map[], map[])
    {
      daily, fina, industry, accessTime := map[], map[], map[], map[];
    }

    method TouchSymbols(symbols: seq<string>, now: int)
      modifies this`accessTime
      ensures Value() == Touch(old(Value()), symbols, now)
    {
      ghost var before := accessTime;
      for i := 0 to |symbols|
        invariant accessTime == before + (map s | s in symbols[..i] :: now)
      {
        assert symbols[..i + 1] == symbols[..i] + [symbols[i]];
        accessTime := accessTime[symbols[i] := now];
      }
      assert symbols[..|symbols|] == symbols;
    }

    method CacheUnits() returns (units: nat)
      ensures units == Units(Value())
    {
      var rows, rest := 0, fina;
      while rest != map[]
        invariant rest.Keys <= fina.Keys && rows + RowCount(rest) == RowCount(fina)
        decreases |rest|
      {
        var s :| s in rest;
        CountFirst(rest, s);
        rows, rest := rows + |rest[s]|, rest - {s};
      }
      units := |daily| + rows + |industry|;
    }

    method CleanupGhostAccessTime() returns (dropped: nat)
      modifies this`accessTime
      ensures Value() == Cleaned(old(Value()))
      ensures dropped == |old(accessTime).Keys - Live(old(Value()))|
    {
      var live := (set k | k in daily :: k.0) + fina.Keys + industry.Keys;
      var ghosts := accessTime.Keys - live;
      accessTime := accessTime - ghosts;
      dropped := |ghosts|;
    }

    /** How many daily rows each symbol has. */
    method CountDaily() returns (counts: map<string, nat>)
      ensures Counts(counts, daily.Keys)
    {
      counts := map[];
      var rest := daily.Keys;
      ghost var done: set<(string, int)> := {};
      while rest != {}
        invariant done + rest == daily.Keys && done !! rest
        invariant Counts(counts, done)
      {
        var k :| k in rest;
        CountOneMore(counts, done, k);
        counts := counts[k.0 := CountIn(counts, k.0) + 1];
        rest, done := rest - {k}, done + {k};
      }
      assert done == daily.Keys;
    }

    /** The unprotected symbols, least recently used first. */
    method CandidatesByAge(counts: map<string, nat>, protect: set<string>) returns (order: seq<string>)
      requires Counts(counts, daily.Keys)
      ensures IsCandidateOrder(order, Value(), protect)
    {
      var listing := ListSymbols(counts.Keys + fina.Keys + industry.Keys - protect);
      order := Sorting.Sort(listing, UsedBefore(accessTime));
      SortedCandidates(Value(), protect, listing);
    }

    method RemoveEvicted(evicted: set<string>)
      modifies this
      ensures Value() == Without(old(Value()), evicted)
    {
      daily := map k | k in daily && k.0 !in evicted :: daily[k];
      fina := fina - evicted;
      industry := industry - evicted;
      accessTime := accessTime - evicted;
    }

    method EvictLru(protect: set<string>) returns (remaining: nat)
      modifies this
      ensures EvictsTo(old(Value()), protect, Value())
      ensures remaining == Units(Value())
    {
      remaining := CacheUnits();
      if remaining <= MAX_UNITS { return; }
      var counts := CountDaily();
      var candidates := CandidatesByAge(counts, protect);
      var evicted;
      var units := map s | s in counts.Keys + fina.Keys + industry.Keys
        :: CountIn(counts, s) + (if s in fina then |fina[s]| else 0) + (if s in industry then 1 else 0);
      assert units == UnitsOf(Value());
      var left;
      evicted, left := ChooseEvicted(units, candidates, remaining);
      CountLeftIsTrue(Value(), candidates);
      remaining := left;
      RemoveEvicted(evicted);
      var _ := CleanupGhostAccessTime();
    }

    /** Loads what was read for the request, then evicts, sparing the request's own symbols. */
    method Preload(symbols: seq<string>, now: int, dailyRows: seq<((string, int), Row)>, finaRows: seq<(string, Row)>,
                   industryRows: seq<(string, string)>)
      requires forall r | r in finaRows :: r.0 in symbols
      modifies this
      ensures EvictsTo(Load(old(Value()), symbols, now, dailyRows, finaRows, industryRows), (set s | s in symbols),
                       Value())
    {
      TouchSymbols(symbols, now);
      PreloadDaily(dailyRows);
      PreloadFina(symbols, finaRows);
      PreloadIndustry(industryRows);
      var _ := EvictLru(set s | s in symbols);
    }

    method PreloadDaily(rows: seq<((string, int), Row)>)
      modifies this`daily
      ensures Value() == LoadDaily(old(Value()), rows)
    {
      ghost var before := Value();
      for i := 0 to |rows|
        invariant Value() == LoadDaily(before, rows[..i])
      {
        assert rows[..i + 1][..i] == rows[..i];
        daily := daily[rows[i].0 := rows[i].1];
      }
      assert rows[..|rows|] == rows;
    }

    method PreloadIndustry(rows: seq<(string, string)>)
      modifies this`industry
      ensures Value() == LoadIndustry(old(Value()), rows)
    {
      ghost var before := Value();
      for i := 0 to |rows|
        invariant Value() == LoadIndustry(before, rows[..i])
      {
        assert rows[..i + 1][..i] == rows[..i];
        if rows[i].0 != "" && rows[i].1 != "" { industry := industry[rows[i].0 := rows[i].1]; }
      }
      assert rows[..|rows|] == rows;
    }

    method PreloadFina(symbols: seq<string>, rows: seq<(string, Row)>)
      requires forall r | r in rows :: r.0 in symbols
      modifies this`fina
      ensures Value() == LoadFina(old(Value()), symbols, rows)
    {
      ghost var before := fina;
      ClearFina(symbols);
      AppendFina(before, symbols, rows);
      DropEmptyFina(symbols);
    }

    method ClearFina(symbols: seq<string>)
      modifies this`fina
      ensures fina == Replaced(old(fina), symbols, [])
    {
      ghost var before := fina;
      for i := 0 to |symbols|
        invariant fina == before + (map s | s in symbols[..i] :: [])
      {
        assert symbols[..i + 1] == symbols[..i] + [symbols[i]];
        fina := fina[symbols[i] := []];
      }
      assert symbols[..|symbols|] == symbols;
    }

    method AppendFina(ghost before: map<string, seq<Row>>, symbols: seq<string>, rows: seq<(string, Row)>)
      requires forall r | r in rows :: r.0 in symbols
      requires fina == Replaced(before, symbols, [])
      modifies this`fina
      ensures fina == Replaced(before, symbols, rows)
    {
      for i := 0 to |rows|
        invariant fina == Replaced(before, symbols, rows[..i])
      {
        assert rows[i] in rows;
        AppendedFina(before, symbols, rows, i);
        fina := fina[rows[i].0 := fina[rows[i].0] + [rows[i].1]];
      }
      assert rows[..|rows|] == rows;
    }

    method DropEmptyFina(symbols: seq<string>)
      modifies this`fina
      ensures fina == NonEmpty(old(fina), symbols)
    {
      ghost var full := fina;
      for i := 0 to |symbols|
        invariant fina == NonEmpty(full, symbols[..i])
      {
        assert symbols[..i + 1] == symbols[..i] + [symbols[i]];
        if symbols[i] in fina && fina[symbols[i]] == [] { fina := fina - {symbols[i]}; }
      }
      assert symbols[..|symbols|] == symbols;
    }
  }

  /** Goes through the candidates until enough would be gone, keeping count of what remains. */
  method ChooseEvicted(units: map<string, nat>, candidates: seq<string>, total: nat)
    returns (evicted: set<string>, remaining: int)
    ensures evicted == Choose(units, candidates, {}, total) && remaining == CountLeft(units, candidates, total)
  {
    evicted, remaining := {}, total;
    ghost var whole, left := Choose(units, candidates, {}, total), CountLeft(units, candidates, total);
    assert candidates[0..] == candidates;
    for i := 0 to |candidates|
      invariant Choose(units, candidates[i..], evicted, remaining) == whole
        && CountLeft(units, candidates[i..], remaining) == left
    {
      if remaining <= TARGET_UNITS { return; }
      assert candidates[i..][1..] == candidates[i + 1..];
      var next := CountIn(units, candidates[i]);
      if next == 0 { continue; }
      evicted, remaining := evicted + {candidates[i]}, remaining - next;
    }
  }

  method ListSymbols(symbols: set<string>) returns (listing: seq<string>)
    ensures NoRepeats(listing) && forall s :: s in listing <==> s in symbols
  {
    listing := [];
    var rest := symbols;
    while rest != {}
      invariant rest <= symbols && NoRepeats(listing) && forall s :: s in listing <==> s in symbols - rest
    {
      var s :| s in rest;
      assert s !in listing;
      listing, rest := listing + [s], rest - {s};
    }
  }

  function TimeIn(access: map<string, int>, s: string): int { if s in access then access[s] else 0 }

  ghost predicate Counts(counts: map<string, nat>, keys: set<(string, int)>) {
    (forall s :: CountIn(counts, s) == |DailyKeys(keys, s)|) && counts.Keys == set k | k in keys :: k.0
  }

  lemma CountOneMore(counts: map<string, nat>, keys: set<(string, int)>, k: (string, int))
    requires Counts(counts, keys) && k !in keys
    ensures Counts(counts[k.0 := CountIn(counts, k.0) + 1], keys + {k})
  {
    forall s ensures |DailyKeys(keys + {k}, s)| == |DailyKeys(keys, s)| + if s == k.0 then 1 else 0 {
      OneMoreKey(keys, k, s);
    }
    assert (set x | x in keys + {k} :: x.0) == (set x | x in keys :: x.0) + {k.0};
  }

  lemma OneMoreKey(keys: set<(string, int)>, k: (string, int), s: string)
    requires k !in keys
    ensures |DailyKeys(keys + {k}, s)| == |DailyKeys(keys, s)| + if s == k.0 then 1 else 0
  {
    assert DailyKeys(keys + {k}, s) == if s == k.0 then DailyKeys(keys, s) + {k} else DailyKeys(keys, s);
  }

  function UsedBefore(access: map<string, int>): (string, string) -> bool
  {
    (a, b) => TimeIn(access, a) < TimeIn(access, b)
  }

  lemma SortedCandidates(c: Cache, protect: set<string>, listing: seq<string>)
    requires NoRepeats(listing) && forall s :: s in listing <==> s in Live(c) - protect
    ensures IsCandidateOrder(Sorting.Sort(listing, UsedBefore(c.accessTime)), c, protect)
  {
    var order := Sorting.Sort(listing, UsedBefore(c.accessTime));
    Sorting.SortSorted(listing, UsedBefore(c.accessTime));
    Sorting.SameElements(listing, UsedBefore(c.accessTime));
    RearrangedHasNoRepeats(listing, order);
  }

  lemma AppendedFina(before: map<string, seq<Row>>, symbols: seq<string>, rows: seq<(string, Row)>, i: nat)
    requires i < |rows| && rows[i].0 in symbols
    ensures var now := Replaced(before, symbols, rows[..i]);
      Replaced(before, symbols, rows[..i + 1]) == now[rows[i].0 := now[rows[i].0] + [rows[i].1]]
  {
    assert rows[..i + 1][..i] == rows[..i];
    forall s
      ensures RowsOf(rows[..i + 1], s)
        == if rows[i].0 == s then RowsOf(rows[..i], s) + [rows[i].1] else RowsOf(rows[..i], s)
    {
    }
  }

  // ---- what eviction does to the count --------------------------------------------------------------------

  lemma NothingEvicted(c: Cache)
    ensures Without(c, {}) == c
  {
    assert Without(c, {}).daily == c.daily && c.fina - {} == c.fina && c.industry - {} == c.industry
      && c.accessTime - {} == c.accessTime;
  }

  lemma DailyWithout(c: Cache, evicted: set<string>, s: string)
    requires s !in evicted
    ensures |Without(c, evicted + {s}).daily| == |Without(c, evicted).daily| - |DailyKeys(c.daily.Keys, s)|
  {
    var more, fewer, gone := Without(c, evicted).daily.Keys, Without(c, evicted + {s}).daily.Keys,
        DailyKeys(c.daily.Keys, s);
    assert more == fewer + gone && fewer !! gone;
    assert |Without(c, evicted).daily| == |more| && |Without(c, evicted + {s}).daily| == |fewer|;
  }

  lemma {:induction false} FinaWithout(fina: map<string, seq<Row>>, s: string)
    ensures RowCount(fina - {s}) == RowCount(fina) - if s in fina then |fina[s]| else 0
  {
    if s in fina { CountFirst(fina, s); } else { assert fina - {s} == fina; }
  }

  lemma RowsWithout(c: Cache, evicted: set<string>, s: string)
    requires s !in evicted
    ensures RowCount(Without(c, evicted + {s}).fina)
      == RowCount(Without(c, evicted).fina) - if s in c.fina then |c.fina[s]| else 0
  {
    assert c.fina - (evicted + {s}) == c.fina - evicted - {s};
    FinaWithout(c.fina - evicted, s);
  }

  lemma IndustryWithout(c: Cache, evicted: set<string>, s: string)
    requires s !in evicted
    ensures |Without(c, evicted + {s}).industry| == |Without(c, evicted).industry| - if s in c.industry then 1 else 0
  {
    var more, fewer := c.industry - evicted, c.industry - (evicted + {s});
    assert fewer.Keys == more.Keys - {s};
    assert |more| == |more.Keys| && |fewer| == |fewer.Keys|;
  }

  /** Evicting one more symbol takes exactly its units off. */
  lemma EvictedUnits(c: Cache, evicted: set<string>, s: string)
    requires s !in evicted
    ensures Units(Without(c, evicted + {s})) == Units(Without(c, evicted)) - SymbolUnits(c, s)
  {
    DailyWithout(c, evicted, s);
    RowsWithout(c, evicted, s);
    IndustryWithout(c, evicted, s);
  }

  /** The chosen symbols in the order they were chosen. */
  function ChosenList(units: map<string, nat>, order: seq<string>, remaining: int): seq<string>
    decreases |order|
  {
    if order == [] || remaining <= TARGET_UNITS then []
    else if CountIn(units, order[0]) == 0 then ChosenList(units, order[1..], remaining)
    else [order[0]] + ChosenList(units, order[1..], remaining - CountIn(units, order[0]))
  }

  function Taken(units: map<string, nat>, chosen: seq<string>): nat {
    if chosen == [] then 0 else Taken(units, chosen[..|chosen| - 1]) + CountIn(units, chosen[|chosen| - 1])
  }

  function SetOf(list: seq<string>): set<string> { set s | s in list }

  lemma {:induction false} TakenFirst(units: map<string, nat>, s: string, rest: seq<string>)
    ensures Taken(units, [s] + rest) == CountIn(units, s) + Taken(units, rest)
  {
    if rest == [] {
      assert [s] + rest == [s] && [s][..0] == [];
    } else {
      var n := |rest| - 1;
      assert ([s] + rest)[..n + 1] == [s] + rest[..n];
      TakenFirst(units, s, rest[..n]);
    }
  }

  /** The loop's set and count are those of the list. */
  lemma {:induction false} ListedChoice(units: map<string, nat>, order: seq<string>, chosen: set<string>,
                                        remaining: int)
    requires NoRepeats(order)
    ensures var list := ChosenList(units, order, remaining);
      && Choose(units, order, chosen, remaining) == chosen + SetOf(list)
      && CountLeft(units, order, remaining) == remaining - Taken(units, list)
      && NoRepeats(list) && forall s | s in list :: s in order
    decreases |order|
  {
    if order != [] && remaining > TARGET_UNITS {
      var s, rest := order[0], order[1..];
      assert NoRepeats(rest) && s !in rest;
      if CountIn(units, s) == 0 {
        ListedChoice(units, rest, chosen, remaining);
      } else {
        ListedChoice(units, rest, chosen + {s}, remaining - CountIn(units, s));
        var list := ChosenList(units, rest, remaining - CountIn(units, s));
        TakenFirst(units, s, list);
        assert SetOf([s] + list) == {s} + SetOf(list);
      }
    }
  }

  /** Evicting one more live symbol. */
  lemma OneMoreGone(c: Cache, gone: set<string>, s: string)
    requires s in Live(c) && s !in gone
    ensures Units(Without(c, gone + {s})) == Units(Without(c, gone)) - CountIn(UnitsOf(c), s)
  {
    EvictedUnits(c, gone, s);
  }

  lemma LastApart(list: seq<string>)
    requires list != [] && NoRepeats(list)
    ensures var rest, s := list[..|list| - 1], list[|list| - 1];
      NoRepeats(rest) && s !in SetOf(rest) && SetOf(list) == SetOf(rest) + {s} && forall x | x in rest :: x in list
  {
    assert list == list[..|list| - 1] + [list[|list| - 1]];
  }

  lemma NothingGone(c: Cache)
    ensures Units(Without(c, SetOf([]))) == Units(c)
  {
    NothingEvicted(c);
    assert SetOf([]) == {};
  }

  lemma {:induction false} ListGone(c: Cache, units: map<string, nat>, list: seq<string>)
    requires NoRepeats(list) && units == UnitsOf(c) && forall s | s in list :: s in Live(c)
    ensures Units(Without(c, SetOf(list))) == Units(c) - Taken(units, list)
    decreases |list|
  {
    if list == [] {
      NothingGone(c);
    } else {
      LastApart(list);
      ListGone(c, units, list[..|list| - 1]);
      OneMoreGone(c, SetOf(list[..|list| - 1]), list[|list| - 1]);
    }
  }

  lemma ListedFromNothing(units: map<string, nat>, order: seq<string>, remaining: int)
    requires NoRepeats(order)
    ensures var list := ChosenList(units, order, remaining);
      && Choose(units, order, {}, remaining) == SetOf(list)
      && CountLeft(units, order, remaining) == remaining - Taken(units, list)
      && NoRepeats(list) && forall s | s in list :: s in order
  {
    ListedChoice(units, order, {}, remaining);
  }

  lemma CountLeftIsTrue(c: Cache, order: seq<string>)
    requires NoRepeats(order) && forall s | s in order :: s in Live(c)
    ensures CountLeft(UnitsOf(c), order, Units(c)) == Units(Without(c, Evicted(c, order)))
  {
    ListedFromNothing(UnitsOf(c), order, Units(c));
    ListGone(c, UnitsOf(c), ChosenList(UnitsOf(c), order, Units(c)));
  }
}
