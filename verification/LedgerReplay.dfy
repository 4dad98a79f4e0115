/** What replay guarantees about whole logs (ez/live/ledger.py). */
module LedgerReplay {
  import opened BrokerStatus
  import opened Events
  import opened Options
  import opened Ledger
  import Sorting

  /** Every event has an id and no two different events share one. */
  ghost predicate IdsIdentify(events: seq<Event>) {
    && (forall e | e in events :: e.id != "")
    && (forall e, f | e in events && f in events :: e.id == f.id ==> e == f)
  }

  /** After the duplicate filter a sorted log is strictly sorted and has lost no event. */
  lemma {:induction false} DedupOfSorted(events: seq<Event>, seen: set<string>)
    requires IdsIdentify(events) && Sorting.Sorted(events, KeyLess)
    ensures Sorting.StrictlySorted(Dedup(events, seen), KeyLess)
    ensures forall e :: e in Dedup(events, seen) <==> e in events && e.id !in seen
  {
    if events != [] {
      var e, rest := events[0], events[1..];
      assert events == [e] + rest;
      if e.id in seen {
        DedupOfSorted(rest, seen);
      } else {
        DedupOfSorted(rest, seen + {e.id});
        var tail := Dedup(rest, seen + {e.id});
        forall j | 0 <= j < |tail| ensures KeyLess(e, tail[j]) {
          assert tail[j] in tail;
          DistinctIdsCompare(e, tail[j]);
        }
      }
    }
  }

  lemma NormalLog(events: seq<Event>)
    requires IdsIdentify(events)
    ensures var log := Dedup(Sorting.Sort(events, KeyLess), {});
      Sorting.StrictlySorted(log, KeyLess) && forall e :: e in log <==> e in events
  {
    KeyLessIsWeakOrder();
    Sorting.SortSorted(events, KeyLess);
    Sorting.SameElements(events, KeyLess);
    DedupOfSorted(Sorting.Sort(events, KeyLess), {});
  }

  /** Order and repetition in the input list do not matter: only which events happened. */
  lemma ReplayDependsOnlyOnTheEvents(a: seq<Event>, b: seq<Event>, cash: real, holdings: map<string, int>)
    requires IdsIdentify(a)
    requires forall e :: e in a <==> e in b
    ensures Replay(a, cash, holdings) == Replay(b, cash, holdings)
  {
    KeyLessIsWeakOrder();
    NormalLog(a);
    NormalLog(b);
    Sorting.StrictlySortedUnique(
      Dedup(Sorting.Sort(a, KeyLess), {}), Dedup(Sorting.Sort(b, KeyLess), {}), KeyLess);
    assert Ids(a) == Ids(b);
  }

  // ---- statuses over whole logs --------------------------------------------------------

  /** A broker order never moves back in rank, and a finished one only from partially canceled to canceled. */
  ghost predicate BrokerForward(before: Option<BrokerOrder>, after: Option<BrokerOrder>) {
    before.Some? ==>
      && after.Some?
      && Rank(before.value.status) <= Rank(after.value.status)
      && (IsTerminal(before.value.status) ==>
            after.value.status == before.value.status
              || (before.value.status.PartiallyCanceled? && after.value.status.Canceled?))
  }

  /** A local order status never moves back, and a completed one never changes. */
  ghost predicate LocalForward(before: Option<OrderStatus>, after: Option<OrderStatus>) {
    before.Some? ==>
      && after.Some?
      && LocalRank(before.value) <= LocalRank(after.value)
      && (LocalRank(before.value) == TERMINAL_RANK ==> after == before)
  }

  lemma AdvanceGoesForward(orders: map<string, BrokerOrder>, k: string, clientOrderId: string, e: Event, o: Observation,
                           key: string)
    ensures BrokerForward(Get(orders, key), Get(AdvanceBroker(orders, k, clientOrderId, e, o), key))
  {
  }

  lemma ApplyMovesOrdersForward(a: Account, e: Event, key: string)
    ensures BrokerForward(Get(a.brokerOrders, key), Get(Apply(a, e).brokerOrders, key))
  {
    match e.body
    case BrokerExecution(r) =>
      AdvanceGoesForward(a.brokerOrders, BrokerKey(r.brokerOrderId, e.clientOrderId), e.clientOrderId, e,
        Observation(r.status, r.reportId, r.filledShares, r.remainingShares, r.avgPrice), key);
    case BrokerCancelRequested(c) =>
      var k := BrokerKey(c.brokerOrderId, e.clientOrderId);
      AdvanceGoesForward(a.brokerOrders, k, e.clientOrderId, e,
        Observation(PendingStatus(Get(a.brokerOrders, k)), "", 0, 0, 0.0), key);
    case _ =>
  }

  /** The local status an event asks for. */
  function Requested(e: Event): Option<(string, OrderStatus)> {
    match e.body
    case OrderSubmitted => Some((e.clientOrderId, Submitted))
    case OrderRejected => Some((e.clientOrderId, Rejected))
    case OrderFilled(_) => Some((e.clientOrderId, FullyFilled))
    case OrderPartiallyFilled(_) => Some((e.clientOrderId, PartFilled))
    case BrokerExecution(r) => Some((Or(e.clientOrderId, BrokerKey(r.brokerOrderId, e.clientOrderId)),
                                     ToOrderStatus(r.status)))
    case BrokerCancelRequested(c) => Some((Or(e.clientOrderId, BrokerKey(c.brokerOrderId, e.clientOrderId)), Submitted))
    case _ => None
  }

  lemma StatusesAfter(a: Account, e: Event)
    ensures var r := Requested(e);
      Apply(a, e).orderStatuses == if r.Some? then AdvanceLocal(a.orderStatuses, r.value.0, r.value.1)
        else a.orderStatuses
  {
  }

  lemma ApplyMovesStatusesForward(a: Account, e: Event, key: string)
    ensures LocalForward(Get(a.orderStatuses, key), Get(Apply(a, e).orderStatuses, key))
  {
    StatusesAfter(a, e);
    var r := Requested(e);
    if r.Some? { AdvanceLocalGoesForward(a.orderStatuses, r.value.0, r.value.1, key); }
  }

  lemma AdvanceLocalGoesForward(statuses: map<string, OrderStatus>, k: string, incoming: OrderStatus, key: string)
    ensures LocalForward(Get(statuses, key), Get(AdvanceLocal(statuses, k, incoming), key))
  {
  }

  /** Every prefix of a replay is forward of every shorter one, for every order. */
  lemma {:induction false} StatusesOnlyGoForward(a: Account, events: seq<Event>, key: string)
    ensures BrokerForward(Get(a.brokerOrders, key), Get(Fold(a, events).brokerOrders, key))
    ensures LocalForward(Get(a.orderStatuses, key), Get(Fold(a, events).orderStatuses, key))
    decreases |events|
  {
    if events != [] {
      ApplyMovesOrdersForward(a, events[0], key);
      ApplyMovesStatusesForward(a, events[0], key);
      StatusesOnlyGoForward(Apply(a, events[0]), events[1..], key);
    }
  }
}
