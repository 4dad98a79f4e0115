/** Which child fills belong to which order (ez/live/paper_broker.py, ez/live/oms.py). */
module OmsFills {
  import opened Options
  import opened Orders
  import opened Flows
  import opened Execution
  import opened ShareSlices
  import opened PaperBroker
  import opened Oms
  import opened OmsOrders
  import Sorting

  // ---- the fills of one trade ------------------------------------------------------------------

  /** The fills cut a trade of `shares` into numbered slices; what remains of the request never rises and
      ends at what the whole trade leaves. */
  ghost predicate SplitOf(fills: seq<BrokerFill>, t: Trade, id: string, requested: int) {
    && fills != [] && SharesIn(fills) == t.shares
    && (forall i | 0 <= i < |fills| ::
        SliceOf(fills[i], i, t, id, |fills|) && fills[i].remainingShares >= Most(requested - t.shares, 0))
    && fills[|fills| - 1].remainingShares == Most(requested - t.shares, 0)
  }

  predicate SliceOf(f: BrokerFill, i: nat, t: Trade, id: string, count: nat) {
    f.clientOrderId == id && f.fill.symbol == t.symbol && f.fill.side == t.side && f.fill.shares > 0 && f.slice == i + 1
      && f.slices == count
  }

  lemma {:induction false} SumIsPositive(chunks: seq<int>)
    requires forall i | 0 <= i < |chunks| :: chunks[i] >= 1
    ensures SumOf(chunks) >= |chunks|
  {
    if chunks != [] { SumIsPositive(chunks[1..]); }
  }

  /** Fills of one trade numbered from `slice`, of these many shares, after the last of which this much is left. */
  ghost predicate Numbered(fills: seq<BrokerFill>, t: Trade, id: string, slice: nat, slices: nat, shares: int,
                           left: int)
    requires slice >= 1
  {
    && SharesIn(fills) == shares
    && (forall i | 0 <= i < |fills| :: SliceOf(fills[i], slice - 1 + i, t, id, slices))
    && (forall i | 0 <= i < |fills| :: fills[i].remainingShares >= Most(left, 0))
    && (fills != [] ==> fills[|fills| - 1].remainingShares == Most(left, 0))
  }

  lemma OneMoreNumbered(first: BrokerFill, rest: seq<BrokerFill>, t: Trade, id: string, slice: nat, slices: nat,
                        shares: int, left: int)
    requires slice >= 1 && Numbered(rest, t, id, slice + 1, slices, shares, left)
    requires SliceOf(first, slice - 1, t, id, slices) && first.remainingShares >= Most(left, 0)
    requires rest == [] ==> first.remainingShares == Most(left, 0)
    ensures Numbered([first] + rest, t, id, slice, slices, first.fill.shares + shares, left)
  {
    var all := [first] + rest;
    assert all[1..] == rest;
    forall i | 0 <= i < |all|
      ensures SliceOf(all[i], slice - 1 + i, t, id, slices) && all[i].remainingShares >= Most(left, 0)
    {
      if i > 0 { assert all[i] == rest[i - 1]; }
    }
  }

  /** The fills are the first child fill and those of the other chunks. */
  lemma FirstChild(t: Trade, id: string, requested: int, chunks: seq<int>, slice: nat, slices: nat, given: Money,
                   filled: int) returns (first: BrokerFill, rest: seq<BrokerFill>, more: Money)
    requires chunks != [] && slice >= 1 && chunks[0] >= 1
    ensures rest == FillsFrom(t, id, requested, chunks[1..], slice + 1, slices, more, filled + chunks[0])
    ensures FillsFrom(t, id, requested, chunks, slice, slices, given, filled) == [first] + rest
    ensures SliceOf(first, slice - 1, t, id, slices) && first.fill.shares == chunks[0]
    ensures first.remainingShares == Most(requested - filled - chunks[0], 0)
  {
    var part := if |chunks| == 1 then Less(MoneyOf(t), given) else PartOf(t, chunks[0]);
    first, more := ChildFill(t, id, requested, chunks[0], part, filled + chunks[0], slice, slices), Add(given, part);
    rest := FillsFrom(t, id, requested, chunks[1..], slice + 1, slices, more, filled + chunks[0]);
  }

  lemma {:induction false} FillsFromFacts(t: Trade, id: string, requested: int, chunks: seq<int>, slice: nat,
                                          slices: nat, given: Money, filled: int)
    requires (forall i | 0 <= i < |chunks| :: chunks[i] >= 1) && slice >= 1
    ensures var fills := FillsFrom(t, id, requested, chunks, slice, slices, given, filled);
      && |fills| == |chunks|
      && Numbered(fills, t, id, slice, slices, SumOf(chunks), requested - filled - SumOf(chunks))
    decreases |chunks|
  {
    if chunks != [] {
      var first, rest, more := FirstChild(t, id, requested, chunks, slice, slices, given, filled);
      SumIsPositive(chunks[1..]);
      FillsFromFacts(t, id, requested, chunks[1..], slice + 1, slices, more, filled + chunks[0]);
      OneMoreNumbered(first, rest, t, id, slice, slices, SumOf(chunks[1..]), requested - filled - SumOf(chunks));
    }
  }

  function IdOf(o: Option<Order>): string { if o.Some? then o.value.clientOrderId else "" }

  lemma SplitTradeFacts(t: Trade, orders: seq<Order>, slices: int, lot: int)
    requires lot >= 1 && t.shares > 0
    ensures var o := RequestedFor(orders, t.symbol, t.side);
      SplitOf(SplitTrade(t, orders, slices, lot), t, IdOf(o), if o.Some? then o.value.shares else t.shares)
  {
    var o := RequestedFor(orders, t.symbol, t.side);
    var requested := if o.Some? then o.value.shares else t.shares;
    var chunks := WholeSlices(t.shares, slices, lot);
    FillsAreSplit(t, IdOf(o), requested, chunks);
  }

  lemma FillsAreSplit(t: Trade, id: string, requested: int, chunks: seq<int>)
    requires chunks != [] && SumOf(chunks) == t.shares && forall i | 0 <= i < |chunks| :: chunks[i] >= 1
    ensures SplitOf(FillsFrom(t, id, requested, chunks, 1, |chunks|, Money(0.0, 0.0, 0.0, 0.0), 0), t, id, requested)
  {
    FillsFromFacts(t, id, requested, chunks, 1, |chunks|, Money(0.0, 0.0, 0.0, 0.0), 0);
  }

  lemma WholeSlices(shares: int, slices: int, lot: int) returns (chunks: seq<int>)
    requires lot >= 1 && shares > 0
    ensures chunks == Slices(shares, Most(slices, 1), lot) && chunks != [] && SumOf(chunks) == shares
    ensures forall i | 0 <= i < |chunks| :: chunks[i] >= 1
  {
    chunks := Slices(shares, Most(slices, 1), lot);
    SlicesFacts(shares, Most(slices, 1), lot);
  }

  // ---- picking out an order's fills --------------------------------------------------------------

  lemma {:induction false} FillsWithBoth(a: seq<BrokerFill>, b: seq<BrokerFill>, id: string)
    ensures FillsWith(a + b, id) == FillsWith(a, id) + FillsWith(b, id)
  {
    if a == [] {
      assert a + b == b;
    } else {
      var first := if a[0].clientOrderId == id then [a[0]] else [];
      FillsWithBoth(a[1..], b, id);
      FirstOfBoth(a, b, id, first);
      assert first + (FillsWith(a[1..], id) + FillsWith(b, id)) == (first + FillsWith(a[1..], id)) + FillsWith(b, id);
    }
  }

  lemma FirstOfBoth(a: seq<BrokerFill>, b: seq<BrokerFill>, id: string, first: seq<BrokerFill>)
    requires a != [] && first == if a[0].clientOrderId == id then [a[0]] else []
    ensures FillsWith(a + b, id) == first + FillsWith(a[1..] + b, id)
  {
    assert (a + b)[1..] == a[1..] + b;
  }

  lemma {:induction false} FillsWithOneId(fills: seq<BrokerFill>, own: string, id: string)
    requires forall f | f in fills :: f.clientOrderId == own
    ensures FillsWith(fills, id) == if own == id then fills else []
  {
    if fills != [] { FillsWithOneId(fills[1..], own, id); }
  }

  lemma {:induction false} FillsKeyedIsFillsWith(fills: seq<BrokerFill>, id: string)
    requires forall f | f in fills :: f.clientOrderId != ""
    ensures FillsKeyed(fills, id) == FillsWith(fills, id)
  {
    if fills != [] { FillsKeyedIsFillsWith(fills[1..], id); }
  }

  /** Ids are there and tell the orders apart. */
  ghost predicate IdsTell(orders: seq<Order>) {
    && (forall o | o in orders :: o.clientOrderId != "")
    && (forall a, b | a in orders && b in orders :: a.clientOrderId == b.clientOrderId ==> a == b)
  }

  lemma SoundOrdersTell(d: Day, orders: seq<Order>)
    requires d.market.lot >= 1 && Sound(d, orders)
    ensures IdsTell(orders)
  {
    forall o | o in orders ensures o.clientOrderId != "" {
      assert Follows(d, DesiredTarget(d), o);
      assert |o.clientOrderId| >= 1;
    }
    forall a, b | a in orders && b in orders ensures a.clientOrderId == b.clientOrderId ==> a == b {
      if a.symbol != b.symbol { IdsDiffer(d, a, b); }
    }
  }

  /** Trades in different symbols, of real shares. */
  ghost predicate Proper(trades: seq<Trade>) {
    && (forall t | t in trades :: t.shares > 0)
    && (forall i, j | 0 <= i < j < |trades| :: trades[i].symbol != trades[j].symbol)
  }

  lemma ProperTail(trades: seq<Trade>)
    requires trades != [] && Proper(trades)
    ensures Proper(trades[1..]) && forall t | t in trades[1..] :: t.symbol != trades[0].symbol
  {
  }

  predicate Serves(t: Trade, o: Order) { t.symbol == o.symbol && t.side == o.side }

  /** An order's fills are the slices of the trade in its symbol and direction, if there is one. */
  lemma {:induction false} FillsOfOrder(trades: seq<Trade>, orders: seq<Order>, slices: int, lot: int, o: Order)
    requires lot >= 1 && Proper(trades) && OneEach(orders) && IdsTell(orders) && o in orders
    ensures var own := FillsWith(SplitFills(trades, orders, slices, lot), o.clientOrderId);
      && ((forall t | t in trades :: !Serves(t, o)) ==> own == [])
      && (forall t | t in trades && Serves(t, o) :: own == SplitTrade(t, orders, slices, lot))
  {
    if trades != [] {
      var t, rest, id := trades[0], trades[1..], o.clientOrderId;
      ProperTail(trades);
      FillsOfOrder(rest, orders, slices, lot, o);
      SplitTradeFacts(t, orders, slices, lot);
      RequestedForFinds(orders, t.symbol, t.side);
      var fills, r := SplitTrade(t, orders, slices, lot), RequestedFor(orders, t.symbol, t.side);
      assert forall f | f in fills :: f.clientOrderId == IdOf(r);
      FillsWithOneId(fills, IdOf(r), id);
      FillsWithBoth(fills, SplitFills(rest, orders, slices, lot), id);
      assert Serves(t, o) ==> r == Some(o);
    }
  }

  /** The fill is a slice of the trade, under the id of the order for it. */
  predicate PieceOf(f: BrokerFill, t: Trade, orders: seq<Order>) {
    && f.fill.symbol == t.symbol && f.fill.side == t.side && f.fill.shares > 0
    && f.clientOrderId == IdOf(RequestedFor(orders, t.symbol, t.side))
  }

  ghost predicate FromTrades(fills: seq<BrokerFill>, trades: seq<Trade>, orders: seq<Order>) {
    forall f | f in fills :: exists t :: t in trades && PieceOf(f, t, orders)
  }

  lemma {:induction false} FillsComeFromTrades(trades: seq<Trade>, orders: seq<Order>, slices: int, lot: int)
    requires lot >= 1 && Proper(trades)
    ensures FromTrades(SplitFills(trades, orders, slices, lot), trades, orders)
  {
    if trades != [] {
      ProperTail(trades);
      SplitTradeFacts(trades[0], orders, slices, lot);
      FillsComeFromTrades(trades[1..], orders, slices, lot);
      var first, rest := SplitTrade(trades[0], orders, slices, lot), SplitFills(trades[1..], orders, slices, lot);
      forall f | f in first + rest ensures exists t :: t in trades && PieceOf(f, t, orders) {
        if f in first {
          assert trades[0] in trades && PieceOf(f, trades[0], orders);
        } else {
          var t :| t in trades[1..] && PieceOf(f, t, orders);
          assert t in trades;
        }
      }
    }
  }

  // ---- nothing is lost between the orders --------------------------------------------------------

  function FillsOfAll(orders: seq<Order>, fills: seq<BrokerFill>): seq<BrokerFill> {
    if orders == [] then [] else FillsWith(fills, orders[0].clientOrderId) + FillsOfAll(orders[1..], fills)
  }

  function FillsWithout(fills: seq<BrokerFill>, id: string): seq<BrokerFill> {
    if fills == [] then [] else (if fills[0].clientOrderId == id then [] else [fills[0]]) + FillsWithout(fills[1..], id)
  }

  lemma FirstPicked(f: BrokerFill, rest: seq<BrokerFill>, id: string)
    ensures FillsWith([f] + rest, id) == if f.clientOrderId == id then [f] + FillsWith(rest, id)
      else FillsWith(rest, id)
    ensures FillsWithout([f] + rest, id) == if f.clientOrderId == id then FillsWithout(rest, id)
      else [f] + FillsWithout(rest, id)
  {
    assert ([f] + rest)[1..] == rest;
  }

  lemma {:induction false} PickedAndRest(fills: seq<BrokerFill>, id: string)
    ensures multiset(fills) == multiset(FillsWith(fills, id) + FillsWithout(fills, id))
  {
    if fills != [] {
      var f, rest := fills[0], fills[1..];
      assert fills == [f] + rest;
      PickedAndRest(rest, id);
      FirstPicked(f, rest, id);
    }
  }

  lemma PickedPlusRest(fills: seq<BrokerFill>, id: string, move: BrokerFill -> Move)
    ensures Total(fills, move) == Plus(Total(FillsWith(fills, id), move), Total(FillsWithout(fills, id), move))
  {
    PickedAndRest(fills, id);
    TotalOfRearranged(fills, FillsWith(fills, id) + FillsWithout(fills, id), move);
    TotalOfBoth(FillsWith(fills, id), FillsWithout(fills, id), move);
  }

  lemma {:induction false} WithoutKeepsOthers(fills: seq<BrokerFill>, id: string, other: string)
    ensures forall f :: f in FillsWithout(fills, id) <==> f in fills && f.clientOrderId != id
    ensures other != id ==> FillsWith(FillsWithout(fills, id), other) == FillsWith(fills, other)
  {
    if fills != [] {
      var f, rest := fills[0], fills[1..];
      assert fills == [f] + rest;
      WithoutKeepsOthers(rest, id, other);
      FirstPicked(f, rest, id);
      FirstPicked(f, rest, other);
      FirstPicked(f, FillsWithout(rest, id), other);
    }
  }

  lemma {:induction false} OthersUntouched(orders: seq<Order>, fills: seq<BrokerFill>, id: string)
    requires forall o | o in orders :: o.clientOrderId != id
    ensures FillsOfAll(orders, FillsWithout(fills, id)) == FillsOfAll(orders, fills)
  {
    if orders != [] {
      WithoutKeepsOthers(fills, id, orders[0].clientOrderId);
      assert orders[0] in orders;
      OthersUntouched(orders[1..], fills, id);
    }
  }

  /** When every fill belongs to one of the orders, going through the orders meets every fill. */
  lemma {:induction false} OrdersShareTheFills(orders: seq<Order>, fills: seq<BrokerFill>, symbol: string)
    requires OneEach(orders) && IdsTell(orders)
    requires forall f | f in fills :: exists o | o in orders :: o.clientOrderId == f.clientOrderId
    ensures Total(FillsOfAll(orders, fills), ChildMove(symbol)) == Total(fills, ChildMove(symbol))
    decreases |orders|
  {
    if orders == [] {
      Sorting.HeadIsElement(fills);
    } else {
      var o, rest := orders[0], orders[1..];
      var id := o.clientOrderId;
      FirstIsAlone(orders);
      PickedPlusRest(fills, id, ChildMove(symbol));
      WithoutKeepsOthers(fills, id, id);
      var left := FillsWithout(fills, id);
      forall f | f in left ensures exists x | x in rest :: x.clientOrderId == f.clientOrderId {
        var x :| x in orders && x.clientOrderId == f.clientOrderId;
        assert orders == [o] + rest;
      }
      OrdersShareTheFills(rest, left, symbol);
      OthersUntouched(rest, fills, id);
      TotalOfBoth(FillsWith(fills, id), FillsOfAll(rest, fills), ChildMove(symbol));
    }
  }

  lemma FirstIsAlone(orders: seq<Order>)
    requires orders != [] && OneEach(orders) && IdsTell(orders)
    ensures OneEach(orders[1..]) && IdsTell(orders[1..])
    ensures forall o | o in orders[1..] :: o.clientOrderId != orders[0].clientOrderId
  {
    assert orders[0] in orders;
    forall o | o in orders[1..] ensures o in orders && o != orders[0] {
      var i :| 0 <= i < |orders[1..]| && orders[1..][i] == o;
      assert orders[i + 1].symbol != orders[0].symbol;
    }
  }
}
