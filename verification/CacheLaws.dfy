/** What LRU eviction guarantees (ez/data/fundamental.py). */
module CacheLaws {
  import opened Lists
  import opened FundamentalCache

  // ---- the choice ----------------------------------------------------------------------------------

  /** Either enough is gone or nothing is left to choose. */
  lemma {:induction false} EnoughOrAll(units: map<string, nat>, order: seq<string>, remaining: int)
    ensures CountLeft(units, order, remaining) <= TARGET_UNITS
      || forall s | s in order :: s in ChosenList(units, order, remaining) || CountIn(units, s) == 0
    decreases |order|
  {
    if order != [] && remaining > TARGET_UNITS {
      EnoughOrAll(units, order[1..], remaining - CountIn(units, order[0]));
      assert forall s | s in order :: s == order[0] || s in order[1..];
    }
  }

  /** A symbol with units is left only when everything chosen came before it. */
  lemma {:induction false} ChosenCameBefore(units: map<string, nat>, order: seq<string>, remaining: int, j: nat)
    requires j < |order| && order[j] !in ChosenList(units, order, remaining) && CountIn(units, order[j]) > 0
    ensures forall s | s in ChosenList(units, order, remaining) :: s in order[..j]
    decreases |order|
  {
    if remaining > TARGET_UNITS && j > 0 {
      ChosenCameBefore(units, order[1..], remaining - CountIn(units, order[0]), j - 1);
      assert order[..j] == [order[0]] + order[1..][..j - 1];
    }
  }

  /** Nothing is evicted beyond need: without the last symbol chosen there was still too much. */
  lemma {:induction false} LastWasNeeded(units: map<string, nat>, order: seq<string>, remaining: int)
    requires ChosenList(units, order, remaining) != []
    ensures var list := ChosenList(units, order, remaining);
      CountLeft(units, order, remaining) + CountIn(units, list[|list| - 1]) > TARGET_UNITS
    decreases |order|
  {
    var rest, left := order[1..], remaining - CountIn(units, order[0]);
    if ChosenList(units, rest, left) != [] {
      LastWasNeeded(units, rest, left);
    } else {
      NothingChosen(units, rest, left);
    }
  }

  lemma {:induction false} NothingChosen(units: map<string, nat>, order: seq<string>, remaining: int)
    requires ChosenList(units, order, remaining) == []
    ensures CountLeft(units, order, remaining) == remaining
    decreases |order|
  {
    if order != [] && remaining > TARGET_UNITS { NothingChosen(units, order[1..], remaining); }
  }

  // ---- the cache afterwards ------------------------------------------------------------------------

  /** All data of the symbol is still there. */
  ghost predicate Keeps(before: Cache, after: Cache, s: string) {
    && (forall k | k in before.daily && k.0 == s :: k in after.daily && after.daily[k] == before.daily[k])
    && (s in before.fina <==> s in after.fina) && (s in before.fina ==> after.fina[s] == before.fina[s])
    && (s in before.industry <==> s in after.industry)
    && (s in before.industry ==> after.industry[s] == before.industry[s])
    && (s in before.accessTime && s in Live(before)
        ==> s in after.accessTime && after.accessTime[s] == before.accessTime[s])
  }

  /** `gone` are the symbols evicted. */
  ghost predicate Evicts(before: Cache, protect: set<string>, gone: set<string>, after: Cache) {
    && gone <= Live(before) - protect && gone !! Live(after)
    && (forall s | s !in gone :: Keeps(before, after, s))
    && after.accessTime.Keys <= Live(after)
  }

  /** Enough is gone, or no unprotected symbol with data rows is left. */
  ghost predicate IsEnough(before: Cache, protect: set<string>, after: Cache) {
    Units(after) <= TARGET_UNITS || forall s | s in Live(after) - protect :: SymbolUnits(before, s) == 0
  }

  /** No evicted symbol was used later than an unprotected one that stays. */
  ghost predicate OldestWent(before: Cache, protect: set<string>, gone: set<string>, after: Cache) {
    forall s, t | s in gone && t in Live(after) - protect && SymbolUnits(before, t) > 0 ::
      TimeOf(before, s) <= TimeOf(before, t)
  }

  ghost predicate NoneTooMany(before: Cache, gone: set<string>, after: Cache) {
    gone != {} ==> exists s :: s in gone && Units(after) + SymbolUnits(before, s) > TARGET_UNITS
  }

  lemma WithoutKeeps(c: Cache, gone: set<string>, s: string)
    requires s !in gone
    ensures Keeps(c, Cleaned(Without(c, gone)), s)
  {
    var d := Without(c, gone);
    assert s in Live(c) ==> s in Live(d) by {
      if k :| k in c.daily && k.0 == s { assert k in d.daily; }
    }
  }

  lemma LiveWithout(c: Cache, gone: set<string>)
    ensures Live(Cleaned(Without(c, gone))) == Live(c) - gone
  {
    var d := Without(c, gone);
    forall s | s in Live(c) - gone ensures s in Live(d) {
      if k :| k in c.daily && k.0 == s { assert k in d.daily; }
    }
  }

  /** After an eviction the symbols are kept or dropped whole, the protected ones are kept, access times are
      those of symbols with data, enough is gone unless nothing is left to take, the least recently used went
      first, and no symbol went without need. */
  lemma EvictionLaws(before: Cache, protect: set<string>, after: Cache) returns (gone: set<string>)
    requires EvictsTo(before, protect, after) && Units(before) > MAX_UNITS
    ensures Evicts(before, protect, gone, after) && IsEnough(before, protect, after)
    ensures OldestWent(before, protect, gone, after) && NoneTooMany(before, gone, after)
  {
    var order :| IsCandidateOrder(order, before, protect) && after == Cleaned(Without(before, Evicted(before, order)));
    gone := Evicted(before, order);
    ChosenAreGone(before, order);
    LiveWithout(before, gone);
    forall s | s !in gone ensures Keeps(before, after, s) { WithoutKeeps(before, gone, s); }
    CountLeftIsTrue(before, order);
    UnitsAfter(before, order);
    EnoughIsGone(before, protect, order);
    OldestIsGone(before, protect, order);
    NeededIsGone(before, order);
  }

  /** The evicted symbols are those of the list, all of them candidates. */
  lemma ChosenAreGone(c: Cache, order: seq<string>)
    requires NoRepeats(order)
    ensures Evicted(c, order) == SetOf(ChosenList(UnitsOf(c), order, Units(c)))
    ensures forall s | s in Evicted(c, order) :: s in order
  {
    ListedChoice(UnitsOf(c), order, {}, Units(c));
    assert {} + SetOf(ChosenList(UnitsOf(c), order, Units(c))) == SetOf(ChosenList(UnitsOf(c), order, Units(c)));
  }

  lemma UnitsAfter(c: Cache, order: seq<string>)
    requires NoRepeats(order) && forall s | s in order :: s in Live(c)
    ensures Units(Cleaned(Without(c, Evicted(c, order)))) == CountLeft(UnitsOf(c), order, Units(c))
  {
    CountLeftIsTrue(c, order);
  }

  lemma UnitsIn(c: Cache, s: string)
    ensures s in Live(c) ==> CountIn(UnitsOf(c), s) == SymbolUnits(c, s)
  {
  }

  lemma EnoughIsGone(c: Cache, protect: set<string>, order: seq<string>)
    requires IsCandidateOrder(order, c, protect)
    ensures IsEnough(c, protect, Cleaned(Without(c, Evicted(c, order))))
  {
    var gone := Evicted(c, order);
    UnitsAfter(c, order);
    EnoughOrAll(UnitsOf(c), order, Units(c));
    ChosenAreGone(c, order);
    LiveWithout(c, gone);
    forall s | s in Live(c) - gone - protect && CountLeft(UnitsOf(c), order, Units(c)) > TARGET_UNITS
      ensures SymbolUnits(c, s) == 0
    {
      assert s in order;
      UnitsIn(c, s);
    }
  }

  lemma ChosenIsOlder(c: Cache, units: map<string, nat>, order: seq<string>, remaining: int, s: string, t: string)
    requires OldestFirst(order, c) && s in ChosenList(units, order, remaining) && t in order
      && t !in ChosenList(units, order, remaining)
    requires CountIn(units, t) > 0
    ensures TimeOf(c, s) <= TimeOf(c, t)
  {
    var j :| 0 <= j < |order| && order[j] == t;
    ChosenCameBefore(units, order, remaining, j);
    assert s in order[..j];
    var i :| 0 <= i < j && order[..j][i] == s;
  }

  lemma OldestIsGone(c: Cache, protect: set<string>, order: seq<string>)
    requires IsCandidateOrder(order, c, protect)
    ensures OldestWent(c, protect, Evicted(c, order), Cleaned(Without(c, Evicted(c, order))))
  {
    var gone := Evicted(c, order);
    ChosenAreGone(c, order);
    LiveWithout(c, gone);
    forall s, t | s in gone && t in Live(c) - gone - protect && SymbolUnits(c, t) > 0
      ensures TimeOf(c, s) <= TimeOf(c, t)
    {
      UnitsIn(c, t);
      ChosenIsOlder(c, UnitsOf(c), order, Units(c), s, t);
    }
  }

  lemma LastOfMany(c: Cache, order: seq<string>, list: seq<string>, total: nat)
    requires list == ChosenList(UnitsOf(c), order, total) && list != [] && forall s | s in list :: s in Live(c)
    ensures CountLeft(UnitsOf(c), order, total) + SymbolUnits(c, list[|list| - 1]) > TARGET_UNITS
  {
    LastWasNeeded(UnitsOf(c), order, total);
    assert list[|list| - 1] in list;
    UnitsIn(c, list[|list| - 1]);
  }

  lemma NeededIsGone(c: Cache, order: seq<string>)
    requires NoRepeats(order) && forall s | s in order :: s in Live(c)
    ensures NoneTooMany(c, Evicted(c, order), Cleaned(Without(c, Evicted(c, order))))
  {
    var list := ChosenList(UnitsOf(c), order, Units(c));
    ChosenAreGone(c, order);
    UnitsAfter(c, order);
    if list != [] {
      LastOfMany(c, order, list, Units(c));
      assert list[|list| - 1] in Evicted(c, order);
    } else {
      assert SetOf(list) == {};
    }
  }

  /** What a request loaded is in the cache when it returns. */
  lemma RequestSurvives(c: Cache, symbols: seq<string>, now: int, dailyRows: seq<((string, int), Row)>,
                        finaRows: seq<(string, Row)>, industryRows: seq<(string, string)>, after: Cache, s: string)
    requires EvictsTo(Load(c, symbols, now, dailyRows, finaRows, industryRows), (set x | x in symbols), after)
      && s in symbols
    ensures Keeps(Load(c, symbols, now, dailyRows, finaRows, industryRows), after, s)
    ensures RowsOf(finaRows, s) != [] ==> s in after.fina && after.fina[s] == RowsOf(finaRows, s)
  {
    var loaded := Load(c, symbols, now, dailyRows, finaRows, industryRows);
    IndustryKeepsFina(LoadFina(LoadDaily(Touch(c, symbols, now), dailyRows), symbols, finaRows), industryRows);
    if Units(loaded) > MAX_UNITS {
      var gone := EvictionLaws(loaded, (set x | x in symbols), after);
    }
  }

  lemma {:induction false} IndustryKeepsFina(c: Cache, rows: seq<(string, string)>)
    ensures LoadIndustry(c, rows).fina == c.fina
  {
    if rows != [] { IndustryKeepsFina(c, rows[..|rows| - 1]); }
  }
}
