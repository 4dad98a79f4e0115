/** The cache over a run of requests: whose time is whose, and who goes first (ez/data/fundamental.py). */
module CacheRuns {
  import opened FundamentalCache
  import opened CacheLaws

  // ---- what a request loads ----------------------------------------------------------------

  /** What was read for a request at this time. */
  datatype Request = Request(
    symbols: seq<string>, now: int, daily: seq<((string, int), Row)>, fina: seq<(string, Row)>,
    industry: seq<(string, string)>)

  function Loaded(c: Cache, q: Request): Cache { Load(c, q.symbols, q.now, q.daily, q.fina, q.industry) }

  function Protected(q: Request): set<string> { set s | s in q.symbols }

  /** The rows read are those of the symbols asked for. */
  ghost predicate ReadsOnlyAsked(q: Request) {
    && (forall r | r in q.daily :: r.0.0 in q.symbols) && (forall r | r in q.fina :: r.0 in q.symbols)
    && (forall r | r in q.industry :: r.0 in q.symbols)
  }

  /** `i` is where `rows` last mentions this key. */
  ghost predicate IsLast<K, V>(rows: seq<(K, V)>, key: K, i: nat) {
    i < |rows| && rows[i].0 == key && forall j | i < j < |rows| :: rows[j].0 != key
  }

  lemma {:induction false} DailyLast(c: Cache, rows: seq<((string, int), Row)>, k: (string, int), i: nat)
    requires IsLast(rows, k, i)
    ensures k in LoadDaily(c, rows).daily && LoadDaily(c, rows).daily[k] == rows[i].1
  {
    var last := |rows| - 1;
    if i < last { DailyLast(c, rows[..last], k, i); }
  }

  lemma {:induction false} DailyUnread(c: Cache, rows: seq<((string, int), Row)>, k: (string, int))
    requires forall r | r in rows :: r.0 != k
    ensures var d := LoadDaily(c, rows);
      (k in d.daily <==> k in c.daily) && (k in c.daily ==> d.daily[k] == c.daily[k])
  {
    if rows != [] {
      assert rows[|rows| - 1] in rows && forall r | r in rows[..|rows| - 1] :: r in rows;
      DailyUnread(c, rows[..|rows| - 1], k);
    }
  }

  lemma {:induction false} DailyOnly(c: Cache, rows: seq<((string, int), Row)>)
    ensures LoadDaily(c, rows) == c.(daily := LoadDaily(c, rows).daily)
  {
    if rows != [] { DailyOnly(c, rows[..|rows| - 1]); }
  }

  lemma DailyFacts(c: Cache, rows: seq<((string, int), Row)>, k: (string, int))
    ensures var d := LoadDaily(c, rows);
      && (forall i: nat | IsLast(rows, k, i) :: k in d.daily && d.daily[k] == rows[i].1)
      && ((forall r | r in rows :: r.0 != k) ==>
            (k in d.daily <==> k in c.daily) && (k in c.daily ==> d.daily[k] == c.daily[k]))
  {
    forall i: nat | IsLast(rows, k, i)
      ensures k in LoadDaily(c, rows).daily && LoadDaily(c, rows).daily[k] == rows[i].1
    {
      DailyLast(c, rows, k, i);
    }
    if forall r | r in rows :: r.0 != k { DailyUnread(c, rows, k); }
  }

  /** A label is taken when it names a symbol and an industry. */
  predicate Labels(r: (string, string), s: string) { r.0 == s && s != "" && r.1 != "" }

  ghost predicate IsLastLabel(rows: seq<(string, string)>, s: string, i: nat) {
    i < |rows| && Labels(rows[i], s) && forall j | i < j < |rows| :: !Labels(rows[j], s)
  }

  lemma {:induction false} IndustryLast(c: Cache, rows: seq<(string, string)>, s: string, i: nat)
    requires IsLastLabel(rows, s, i)
    ensures s in LoadIndustry(c, rows).industry && LoadIndustry(c, rows).industry[s] == rows[i].1
  {
    var last := |rows| - 1;
    if i < last { IndustryLast(c, rows[..last], s, i); }
  }

  lemma {:induction false} IndustryUnread(c: Cache, rows: seq<(string, string)>, s: string)
    requires forall r | r in rows :: !Labels(r, s)
    ensures var d := LoadIndustry(c, rows);
      (s in d.industry <==> s in c.industry) && (s in c.industry ==> d.industry[s] == c.industry[s])
  {
    if rows != [] {
      assert rows[|rows| - 1] in rows && forall r | r in rows[..|rows| - 1] :: r in rows;
      IndustryUnread(c, rows[..|rows| - 1], s);
    }
  }

  lemma {:induction false} IndustryOnly(c: Cache, rows: seq<(string, string)>)
    ensures LoadIndustry(c, rows) == c.(industry := LoadIndustry(c, rows).industry)
  {
    if rows != [] { IndustryOnly(c, rows[..|rows| - 1]); }
  }


  lemma IndustryFacts(c: Cache, rows: seq<(string, string)>, s: string)
    ensures var d := LoadIndustry(c, rows);
      && (forall i: nat | IsLastLabel(rows, s, i) :: s in d.industry && d.industry[s] == rows[i].1)
      && ((forall r | r in rows :: !Labels(r, s)) ==>
            (s in d.industry <==> s in c.industry) && (s in c.industry ==> d.industry[s] == c.industry[s]))
  {
    forall i: nat | IsLastLabel(rows, s, i)
      ensures s in LoadIndustry(c, rows).industry && LoadIndustry(c, rows).industry[s] == rows[i].1
    {
      IndustryLast(c, rows, s, i);
    }
    if forall r | r in rows :: !Labels(r, s) { IndustryUnread(c, rows, s); }
  }

  /** One row is of one symbol. */
  lemma OneRow(r: (string, Row), s: string)
    ensures RowsOf([r], s) == if r.0 == s then [r.1] else []
  {
    assert [r][..0] == [];
  }

  /** The rows of a symbol are found part by part, in the order they were read. */
  lemma {:induction false} RowsOfBoth(a: seq<(string, Row)>, b: seq<(string, Row)>, s: string)
    ensures RowsOf(a + b, s) == RowsOf(a, s) + RowsOf(b, s)
  {
    if b == [] {
      assert a + b == a;
    } else {
      var last := |b| - 1;
      RowsOfBoth(a, b[..last], s);
      assert (a + b)[..|a + b| - 1] == a + b[..last];
    }
  }

  /** What the cache holds of a symbol once a request has been loaded: the rows read last, by key, by symbol and by
      label, where there are any, and what it held before where there are none; and the time of the request. */
  lemma LoadedFacts(c: Cache, q: Request, s: string, k: (string, int))
    ensures var d := Loaded(c, q);
      && (forall i: nat | IsLast(q.daily, k, i) :: k in d.daily && d.daily[k] == q.daily[i].1)
      && ((forall r | r in q.daily :: r.0 != k) ==>
            (k in d.daily <==> k in c.daily) && (k in c.daily ==> d.daily[k] == c.daily[k]))
      && (forall i: nat | IsLastLabel(q.industry, s, i) :: s in d.industry && d.industry[s] == q.industry[i].1)
      && ((forall r | r in q.industry :: !Labels(r, s)) ==>
            (s in d.industry <==> s in c.industry) && (s in c.industry ==> d.industry[s] == c.industry[s]))
    ensures var d, rows := Loaded(c, q), RowsOf(q.fina, s);
      if s in q.symbols then
        && (s in d.fina <==> rows != []) && (rows != [] ==> d.fina[s] == rows)
        && s in d.accessTime && d.accessTime[s] == q.now
      else
        && (s in d.fina <==> s in c.fina) && (s in c.fina ==> d.fina[s] == c.fina[s])
        && (s in d.accessTime <==> s in c.accessTime) && (s in c.accessTime ==> d.accessTime[s] == c.accessTime[s])
  {
    var touched := Touch(c, q.symbols, q.now);
    var filled := LoadFina(LoadDaily(touched, q.daily), q.symbols, q.fina);
    DailyOnly(touched, q.daily);
    IndustryOnly(filled, q.industry);
    DailyFacts(touched, q.daily, k);
    IndustryFacts(filled, q.industry, s);
  }

  // ---- runs of requests ----------------------------------------------------------------------

  /** The states of the cache before, between and after these requests, starting empty. */
  ghost predicate Runs(states: seq<Cache>, requests: seq<Request>) {
    && |states| == |requests| + 1 && states[0] == Cache(map[], map[], map[], map[])
    && forall i | 0 <= i < |requests| :: ServesAt(states, requests, i)
  }

  ghost predicate ServesAt(states: seq<Cache>, requests: seq<Request>, i: nat)
    requires i < |requests| < |states|
  {
    Serves(states[i], requests[i], states[i + 1])
  }

  /** One request, loading and eviction. */
  ghost predicate Serves(before: Cache, q: Request, after: Cache) {
    ReadsOnlyAsked(q) && EvictsTo(Loaded(before, q), Protected(q), after)
  }

  lemma ServesSooner(states: seq<Cache>, requests: seq<Request>, n: nat, i: nat)
    requires i < n < |requests| < |states| && ServesAt(states, requests, i)
    ensures ServesAt(states[..n + 1], requests[..n], i)
  {
    SameService(states[i], requests[i], states[i + 1], states[..n + 1], requests[..n], i);
  }

  lemma SameService(before: Cache, q: Request, after: Cache, states: seq<Cache>, requests: seq<Request>, i: nat)
    requires i < |requests| < |states| && states[i] == before && requests[i] == q && states[i + 1] == after
    requires Serves(before, q, after)
    ensures ServesAt(states, requests, i)
  {
  }

  lemma EarlierRun(states: seq<Cache>, requests: seq<Request>, n: nat)
    requires Runs(states, requests) && n < |requests|
    ensures Runs(states[..n + 1], requests[..n])
  {
    var earlier, fewer := states[..n + 1], requests[..n];
    forall i | 0 <= i < n ensures ServesAt(earlier, fewer, i) {
      assert ServesAt(states, requests, i);
      ServesSooner(states, requests, n, i);
    }
  }

  lemma AsServed(states: seq<Cache>, requests: seq<Request>, i: nat, before: Cache, q: Request, after: Cache)
    requires i < |requests| < |states| && ServesAt(states, requests, i)
    requires before == states[i] && q == requests[i] && after == states[i + 1]
    ensures Serves(before, q, after)
  {
  }

  lemma Ends<T>(s: seq<T>, n: nat)
    requires n < |s|
    ensures s[..n + 1][n] == s[n] && (n + 1 == |s| ==> s == s[..n] + [s[n]])
  {
  }

  /** The last request that asked for the symbol; -1 when none did. */
  function LastAsked(requests: seq<Request>, s: string): (i: int)
    ensures -1 <= i < |requests| && (i >= 0 ==> s in requests[i].symbols)
    ensures forall j | i < j < |requests| :: s !in requests[j].symbols
  {
    if requests == [] then -1
    else
      var last := |requests| - 1;
      if s in requests[last].symbols then last else LastAsked(requests[..last], s)
  }

  /** Every stored time is that of the symbol's last request; every symbol with data has one, and has units. */
  ghost predicate TimesAreLast(c: Cache, requests: seq<Request>) {
    && (forall s | s in c.accessTime ::
          LastAsked(requests, s) >= 0 && c.accessTime[s] == requests[LastAsked(requests, s)].now)
    && (forall s | s in Live(c) :: s in c.accessTime) && (forall s | s in c.fina :: c.fina[s] != [])
  }

  lemma LoadingKeepsTimes(c: Cache, requests: seq<Request>, q: Request)
    requires TimesAreLast(c, requests) && ReadsOnlyAsked(q)
    ensures TimesAreLast(Loaded(c, q), requests + [q])
  {
    var d, all := Loaded(c, q), requests + [q];
    assert all[..|requests|] == requests;
    forall s | s in d.accessTime ensures LastAsked(all, s) >= 0 && d.accessTime[s] == all[LastAsked(all, s)].now {
      LoadedFacts(c, q, s, (s, 0));
    }
    forall s | s in Live(d) ensures s in d.accessTime { LoadedIsAsked(c, q, s); }
    forall s | s in d.fina ensures d.fina[s] != [] { LoadedFacts(c, q, s, (s, 0)); }
  }

  /** A symbol with data once a request has been loaded had some before or was asked for. */
  lemma LoadedIsAsked(c: Cache, q: Request, s: string)
    requires ReadsOnlyAsked(q) && s in Live(Loaded(c, q)) && forall x | x in Live(c) :: x in c.accessTime
    ensures s in Loaded(c, q).accessTime
  {
    var d := Loaded(c, q);
    LoadedFacts(c, q, s, (s, 0));
    if s !in q.symbols {
      if k :| k in d.daily && k.0 == s {
        LoadedFacts(c, q, s, k);
        assert k in c.daily;
      }
      assert s in Live(c);
    }
  }

  lemma EvictionKeepsTimes(d: Cache, protect: set<string>, after: Cache, requests: seq<Request>)
    requires TimesAreLast(d, requests) && EvictsTo(d, protect, after)
    ensures TimesAreLast(after, requests)
  {
    if Units(d) > MAX_UNITS {
      var order :| IsCandidateOrder(order, d, protect) && after == Cleaned(Without(d, Evicted(d, order)));
      TakingOutKeepsTimes(d, Evicted(d, order), requests);
    }
  }

  lemma TakingOutKeepsTimes(d: Cache, gone: set<string>, requests: seq<Request>)
    requires TimesAreLast(d, requests)
    ensures TimesAreLast(Cleaned(Without(d, gone)), requests)
  {
    LiveWithout(d, gone);
  }

  /** After any run of requests every stored access time is that of the last request for its symbol. */
  lemma {:induction false} RunTimes(states: seq<Cache>, requests: seq<Request>)
    requires Runs(states, requests)
    ensures TimesAreLast(states[|requests|], requests)
    decreases |requests|
  {
    if requests != [] {
      var n := |requests| - 1;
      var before, q, after := states[n], requests[n], states[n + 1];
      EarlierRun(states, requests, n);
      RunTimes(states[..n + 1], requests[..n]);
      Ends(states, n);
      Ends(requests, n);
      assert ServesAt(states, requests, n);
      AsServed(states, requests, n, before, q, after);
      RequestKeepsTimes(before, requests[..n], q, after);
    }
  }

  lemma RequestKeepsTimes(before: Cache, earlier: seq<Request>, q: Request, after: Cache)
    requires TimesAreLast(before, earlier) && Serves(before, q, after)
    ensures TimesAreLast(Loaded(before, q), earlier + [q]) && TimesAreLast(after, earlier + [q])
  {
    LoadingKeepsTimes(before, earlier, q);
    EvictionKeepsTimes(Loaded(before, q), Protected(q), after, earlier + [q]);
  }

  /** Requests come at rising times. */
  ghost predicate Rising(requests: seq<Request>) {
    forall i, j | 0 <= i < j < |requests| :: requests[i].now < requests[j].now
  }

  lemma UnitsOfLive(c: Cache, s: string)
    requires s in Live(c) && forall x | x in c.fina :: c.fina[x] != []
    ensures SymbolUnits(c, s) > 0
  {
    if k :| k in c.daily && k.0 == s { assert k in DailyKeys(c.daily.Keys, s); }
  }

  /** Over any run of requests at rising times, no symbol that the last one evicts was asked for later than a symbol
      that stays without having been asked for by it. */
  lemma LeastRecentlyAskedGoesFirst(states: seq<Cache>, requests: seq<Request>, s: string, t: string)
    requires Runs(states, requests) && Rising(requests) && requests != []
    requires var n := |requests| - 1;
      && s in Live(Loaded(states[n], requests[n])) && s !in Live(states[n + 1])
      && t in Live(states[n + 1]) && t !in requests[n].symbols
    ensures LastAsked(requests, s) <= LastAsked(requests, t)
  {
    var n := |requests| - 1;
    LoadedTimes(states, requests, n, states[n], requests[n], states[n + 1]);
    LastEviction(Loaded(states[n], requests[n]), requests[n], states[n + 1], requests, s, t);
  }

  lemma LoadedTimes(states: seq<Cache>, requests: seq<Request>, n: nat, before: Cache, q: Request, after: Cache)
    requires Runs(states, requests) && n + 1 == |requests|
    requires before == states[n] && q == requests[n] && after == states[n + 1]
    ensures TimesAreLast(Loaded(before, q), requests) && EvictsTo(Loaded(before, q), Protected(q), after)
  {
    EarlierRun(states, requests, n);
    RunTimes(states[..n + 1], requests[..n]);
    Ends(states, n);
    Ends(requests, n);
    assert ServesAt(states, requests, n);
    AsServed(states, requests, n, before, q, after);
    RequestKeepsTimes(before, requests[..n], q, after);
  }

  lemma LastEviction(d: Cache, q: Request, after: Cache, requests: seq<Request>, s: string, t: string)
    requires TimesAreLast(d, requests) && Rising(requests) && EvictsTo(d, Protected(q), after)
    requires s in Live(d) && s !in Live(after) && t in Live(after) && t !in q.symbols
    ensures LastAsked(requests, s) <= LastAsked(requests, t)
  {
    if Units(d) > MAX_UNITS {
      var gone := EvictionLaws(d, Protected(q), after);
      StaysAndGoes(d, gone, after, s, t, q);
      TimesTell(d, requests, s, t);
    }
  }

  lemma StaysAndGoes(d: Cache, gone: set<string>, after: Cache, s: string, t: string, q: Request)
    requires Evicts(d, Protected(q), gone, after) && OldestWent(d, Protected(q), gone, after)
    requires forall x | x in d.fina :: d.fina[x] != []
    requires s in Live(d) && s !in Live(after) && t in Live(after) && t !in q.symbols && t in Live(d)
    ensures TimeOf(d, s) <= TimeOf(d, t)
  {
    UnitsOfLive(d, t);
    if s !in gone { KeptIsLive(d, after, s); }
  }

  lemma KeptIsLive(d: Cache, after: Cache, s: string)
    requires Keeps(d, after, s) && s in Live(d)
    ensures s in Live(after)
  {
    if k :| k in d.daily && k.0 == s { assert k in after.daily; }
  }

  lemma TimesTell(d: Cache, requests: seq<Request>, s: string, t: string)
    requires TimesAreLast(d, requests) && Rising(requests) && s in Live(d) && t in Live(d)
    requires TimeOf(d, s) <= TimeOf(d, t)
    ensures LastAsked(requests, s) <= LastAsked(requests, t)
  {
    assert s in d.accessTime && t in d.accessTime;
  }
}
