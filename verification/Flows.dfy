/** What fills move: cash, and shares of one symbol. The totals do not depend on the order of the fills. */
module Flows {
  import opened Options
  import opened BrokerStatus
  import opened Events
  import opened Ledger
  import opened LedgerReplay
  import Sorting

  datatype Move = Move(cash: real, bought: int, sold: int)

  const NO_MOVE := Move(0.0, 0, 0)

  function Plus(a: Move, b: Move): Move { Move(a.cash + b.cash, a.bought + b.bought, a.sold + b.sold) }

  function Total<T>(s: seq<T>, f: T -> Move): Move {
    if s == [] then NO_MOVE else Plus(f(s[0]), Total(s[1..], f))
  }

  lemma PlusLaws(a: Move, b: Move, c: Move)
    ensures Plus(NO_MOVE, a) == a && Plus(a, b) == Plus(b, a) && Plus(Plus(a, b), c) == Plus(a, Plus(b, c))
  {
  }

  lemma TotalOfCons<T>(x: T, s: seq<T>, f: T -> Move)
    ensures Total([x] + s, f) == Plus(f(x), Total(s, f))
  {
    assert ([x] + s)[1..] == s;
  }

  lemma {:induction false} TotalOfBoth<T>(a: seq<T>, b: seq<T>, f: T -> Move)
    ensures Total(a + b, f) == Plus(Total(a, f), Total(b, f))
  {
    if a == [] {
      assert a + b == b;
      PlusLaws(Total(b, f), NO_MOVE, NO_MOVE);
    } else {
      var rest := a[1..];
      TotalOfBoth(rest, b, f);
      PlusLaws(f(a[0]), Total(rest, f), Total(b, f));
      BothTail(a, b);
    }
  }

  lemma BothTail<T>(a: seq<T>, b: seq<T>)
    requires a != []
    ensures a + b != [] && (a + b)[0] == a[0] && (a + b)[1..] == a[1..] + b
  {
  }

  lemma TotalTakesOut<T>(s: seq<T>, f: T -> Move, i: nat)
    requires i < |s|
    ensures Total(s, f) == Plus(f(s[i]), Total(s[..i] + s[i + 1..], f))
  {
    var before, after := s[..i], s[i + 1..];
    assert s == before + ([s[i]] + after);
    TotalOfBoth(before, [s[i]] + after, f);
    TotalOfCons(s[i], after, f);
    TotalOfBoth(before, after, f);
    PlusLaws(Total(before, f), f(s[i]), Total(after, f));
    PlusLaws(f(s[i]), Total(before, f), Total(after, f));
  }

  lemma WithoutOne<T>(s: seq<T>, i: nat)
    requires i < |s|
    ensures multiset(s[..i] + s[i + 1..]) == multiset(s) - multiset{s[i]}
  {
    assert s == s[..i] + [s[i]] + s[i + 1..];
  }

  /** Rearranging a list does not change its total. */
  lemma {:induction false} TotalOfRearranged<T>(a: seq<T>, b: seq<T>, f: T -> Move)
    requires multiset(a) == multiset(b)
    ensures Total(a, f) == Total(b, f)
  {
    if a == [] {
      assert |multiset(b)| == 0;
    } else {
      var i := FirstElsewhere(a, b);
      TotalOfRearranged(a[1..], b[..i] + b[i + 1..], f);
      TotalTakesOut(b, f, i);
    }
  }

  lemma FirstElsewhere<T>(a: seq<T>, b: seq<T>) returns (i: nat)
    requires a != [] && multiset(a) == multiset(b)
    ensures i < |b| && b[i] == a[0] && multiset(a[1..]) == multiset(b[..i] + b[i + 1..])
  {
    assert a[0] in multiset(a);
    i := PlaceOf(b, a[0]);
    WithoutOne(b, i);
    WithoutFirst(a);
  }

  lemma PlaceOf<T>(s: seq<T>, x: T) returns (i: nat)
    requires x in multiset(s)
    ensures i < |s| && s[i] == x
  {
    i :| 0 <= i < |s| && s[i] == x;
  }

  lemma WithoutFirst<T>(s: seq<T>)
    requires s != []
    ensures multiset(s[1..]) == multiset(s) - multiset{s[0]}
  {
    assert s == [s[0]] + s[1..];
  }

  // ---- what a fill moves ---------------------------------------------------------------

  /** The cash a fill brings in, and the shares of `symbol` it buys or sells. */
  function MoveOf(p: FillPayload, symbol: string): Move {
    Move(ApplyFillCash(0.0, p),
         if p.symbol == symbol && p.side.Buy? then p.shares else 0,
         if p.symbol == symbol && p.side.Sell? then p.shares else 0)
  }

  /** A position after buying or selling that many shares; a long position that is sold out disappears. */
  function Netted(held: Option<int>, m: Move): Option<int> {
    var before := if held.Some? then held.value else 0;
    if m.bought > 0 then Some(before + m.bought)
    else if m.sold > 0 then (if before - m.sold > 0 then Some(before - m.sold) else None)
    else held
  }

  lemma NettedTwice(held: Option<int>, a: Move, b: Move)
    requires a.bought >= 0 && b.bought >= 0 && a.sold >= 0 && b.sold >= 0
    requires (a.bought == 0 && b.bought == 0) || (a.sold == 0 && b.sold == 0)
    ensures Netted(Netted(held, a), b) == Netted(held, Plus(a, b))
  {
  }

  lemma FillNets(holdings: map<string, int>, p: FillPayload, symbol: string)
    requires p.shares > 0
    ensures Get(ApplyFillHoldings(holdings, p), symbol) == Netted(Get(holdings, symbol), MoveOf(p, symbol))
  {
  }

  lemma FillPays(cash: real, p: FillPayload, symbol: string)
    ensures ApplyFillCash(cash, p) == cash + MoveOf(p, symbol).cash
  {
  }

  // ---- what a log moves ----------------------------------------------------------------

  function FillOf(e: Event): Option<FillPayload> {
    match e.body
    case OrderFilled(f) => Some(f)
    case OrderPartiallyFilled(f) => Some(f)
    case _ => None
  }

  function EventMove(symbol: string): Event -> Move {
    (e: Event) => if FillOf(e).Some? then MoveOf(FillOf(e).value, symbol) else NO_MOVE
  }

  /** Events of orders only: nothing that resets cash or holdings. */
  ghost predicate OrderLog(log: seq<Event>) {
    forall e | e in log :: !e.body.SnapshotSaved? && (FillOf(e).Some? ==> FillOf(e).value.shares > 0)
  }

  /** The log does not both buy and sell the symbol. */
  ghost predicate OneSided(log: seq<Event>, symbol: string, side: Side) {
    forall e | e in log && FillOf(e).Some? && FillOf(e).value.symbol == symbol :: FillOf(e).value.side == side
  }

  lemma {:induction false} TotalIsOneSided(log: seq<Event>, symbol: string, side: Side)
    requires OrderLog(log) && OneSided(log, symbol, side)
    ensures var m := Total(log, EventMove(symbol));
      m.bought >= 0 && m.sold >= 0 && (side.Buy? ==> m.sold == 0) && (side.Sell? ==> m.bought == 0)
  {
    if log != [] { TotalIsOneSided(log[1..], symbol, side); }
  }

  lemma EventMoves(a: Account, e: Event, symbol: string)
    requires !e.body.SnapshotSaved? && (FillOf(e).Some? ==> FillOf(e).value.shares > 0)
    ensures var m := EventMove(symbol)(e);
      Apply(a, e).cash == a.cash + m.cash && Get(Apply(a, e).holdings, symbol) == Netted(Get(a.holdings, symbol), m)
  {
    if FillOf(e).Some? {
      FillNets(a.holdings, FillOf(e).value, symbol);
      FillPays(a.cash, FillOf(e).value, symbol);
    }
  }

  /** Replaying a log of orders moves the cash by the log's total and nets every position that the log
      only buys or only sells. */
  lemma {:induction false} LogMoves(a: Account, log: seq<Event>, symbol: string, side: Side)
    requires OrderLog(log) && OneSided(log, symbol, side)
    ensures var m := Total(log, EventMove(symbol));
      Fold(a, log).cash == a.cash + m.cash && Get(Fold(a, log).holdings, symbol) == Netted(Get(a.holdings, symbol), m)
    decreases |log|
  {
    if log != [] {
      var e, rest, f := log[0], log[1..], EventMove(symbol);
      Sorting.HeadIsElement(log);
      EventMoves(a, e, symbol);
      LogMoves(Apply(a, e), rest, symbol, side);
      OneEventIsOneSided(e, symbol, side);
      TotalIsOneSided(rest, symbol, side);
      NettedTwice(Get(a.holdings, symbol), f(e), Total(rest, f));
    }
  }

  lemma OneEventIsOneSided(e: Event, symbol: string, side: Side)
    requires FillOf(e).Some? ==>
      FillOf(e).value.shares > 0 && (FillOf(e).value.symbol == symbol ==> FillOf(e).value.side == side)
    ensures var m := EventMove(symbol)(e);
      m.bought >= 0 && m.sold >= 0 && (side.Buy? ==> m.sold == 0) && (side.Sell? ==> m.bought == 0)
  {
  }

  // ---- statuses ------------------------------------------------------------------------

  predicate Asks(e: Event, key: string) { Requested(e).Some? && Requested(e).value.0 == key }

  /** The log asks for order `key` to show `status` and otherwise only for earlier statuses. */
  ghost predicate Leads(log: seq<Event>, key: string, status: OrderStatus) {
    forall e | e in log && Asks(e, key) ::
      Requested(e).value.1 == status || LocalRank(Requested(e).value.1) < LocalRank(status)
  }

  ghost predicate AsksFor(log: seq<Event>, key: string, status: OrderStatus) {
    exists e :: e in log && Requested(e) == Some((key, status))
  }

  /** Whatever the order of the log, an order ends at the furthest status asked for. */
  lemma {:induction false} FurthestStatusWins(a: Account, log: seq<Event>, key: string, status: OrderStatus)
    requires key != "" && Leads(log, key, status)
    requires var current := Get(a.orderStatuses, key);
      if current == Some(status) then true
      else (current.Some? ==> LocalRank(current.value) < LocalRank(status)) && AsksFor(log, key, status)
    ensures Get(Fold(a, log).orderStatuses, key) == Some(status)
    decreases |log|
  {
    if log != [] {
      var e := log[0];
      assert e in log;
      StatusesAfter(a, e);
      if Requested(e) != Some((key, status)) && Get(a.orderStatuses, key) != Some(status) {
        var later :| later in log && Requested(later) == Some((key, status));
        assert later in log[1..];
      }
      FurthestStatusWins(Apply(a, e), log[1..], key, status);
    }
  }

  /** The status of an order the log does not ask about is left as it was. */
  lemma {:induction false} UnaskedStatusStays(a: Account, log: seq<Event>, key: string)
    requires forall e | e in log :: !Asks(e, key)
    ensures Get(Fold(a, log).orderStatuses, key) == Get(a.orderStatuses, key)
    decreases |log|
  {
    if log != [] {
      assert log[0] in log;
      StatusesAfter(a, log[0]);
      UnaskedStatusStays(Apply(a, log[0]), log[1..], key);
    }
  }
}
