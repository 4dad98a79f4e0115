/** The paper broker, ez/live/paper_broker.py: trades are cut into child fills, and each requested
    order is reported with what its child fills add up to. */
module PaperBroker {
  import opened Options
  import opened Reals
  import opened Events
  import opened Flows
  import opened Orders
  import opened Execution
  import opened ShareSlices

  /** A child fill; slices are numbered from 1. */
  datatype BrokerFill = BrokerFill(
    clientOrderId: string, fill: FillPayload, commission: real, stampTax: real,
    requestedShares: int, remainingShares: int, slice: nat, slices: nat)

  /** What the broker says about an order. */
  datatype Report = Report(
    clientOrderId: string, status: string, filledShares: int, remainingShares: int, price: real, brokerOrderId: string)

  datatype BrokerResult = BrokerResult(
    fills: seq<BrokerFill>, reports: seq<Report>, holdings: map<string, int>, cash: real, volume: real)

  // ---- child fills ---------------------------------------------------------------------

  /** The money of a trade, or of a part of it. */
  datatype Money = Money(amount: real, commission: real, stampTax: real, cost: real)

  function MoneyOf(t: Trade): Money { Money(t.amount, t.commission, t.stampTax, t.cost) }

  function Add(a: Money, b: Money): Money {
    Money(a.amount + b.amount, a.commission + b.commission, a.stampTax + b.stampTax, a.cost + b.cost)
  }

  function Less(a: Money, b: Money): Money {
    Money(a.amount - b.amount, a.commission - b.commission, a.stampTax - b.stampTax, a.cost - b.cost)
  }

  /** A slice's part of the trade, by shares. */
  function PartOf(t: Trade, chunk: int): Money {
    var ratio := if t.shares > 0 then chunk as real / t.shares as real else 0.0;
    Money(t.amount * ratio, t.commission * ratio, t.stampTax * ratio, t.cost * ratio)
  }

  function ChildFill(t: Trade, clientOrderId: string, requested: int, chunk: int, part: Money, filled: int, slice: nat,
                     slices: nat): BrokerFill
  {
    BrokerFill(clientOrderId, FillPayload(t.symbol, t.side, chunk, t.price, part.amount, part.cost), part.commission,
               part.stampTax,
               requested, Most(requested - filled, 0), slice, slices)
  }

  /** The fills for the slices still to come; the last takes whatever money is left. */
  function FillsFrom(t: Trade, clientOrderId: string, requested: int, chunks: seq<int>, slice: nat, slices: nat,
                     given: Money, filled: int)
    : seq<BrokerFill>
    decreases |chunks|
  {
    if chunks == [] then []
    else
      var part := if |chunks| == 1 then Less(MoneyOf(t), given) else PartOf(t, chunks[0]);
      [ChildFill(t, clientOrderId, requested, chunks[0], part, filled + chunks[0], slice, slices)]
      + FillsFrom(t, clientOrderId, requested, chunks[1..], slice + 1, slices, Add(given, part), filled + chunks[0])
  }

  /** The order asked for in this symbol and direction; the last one listed wins. */
  function RequestedFor(orders: seq<Order>, symbol: string, side: Side): Option<Order> {
    if orders == [] then None
    else
      var o := orders[|orders| - 1];
      if o.symbol == symbol && o.side == side then Some(o) else RequestedFor(orders[..|orders| - 1], symbol, side)
  }

  function SplitTrade(t: Trade, orders: seq<Order>, slices: int, lot: int): seq<BrokerFill>
    requires lot >= 1
  {
    var o := RequestedFor(orders, t.symbol, t.side);
    var chunks := Slices(t.shares, Most(slices, 1), lot);
    FillsFrom(t, if o.Some? then o.value.clientOrderId else "", if o.Some? then o.value.shares else t.shares,
              chunks, 1, |chunks|, Money(0.0, 0.0, 0.0, 0.0), 0)
  }

  function SplitFills(trades: seq<Trade>, orders: seq<Order>, slices: int, lot: int): seq<BrokerFill>
    requires lot >= 1
  {
    if trades == [] then [] else SplitTrade(trades[0], orders, slices, lot) + SplitFills(trades[1..], orders, slices,
        lot)
  }

  // ---- order reports -------------------------------------------------------------------

  function ReportKey(f: BrokerFill): string {
    if f.clientOrderId != "" then f.clientOrderId else f.fill.symbol + ":" + SideText(f.fill.side)
  }

  function FillsKeyed(fills: seq<BrokerFill>, key: string): seq<BrokerFill> {
    if fills == [] then []
    else (if ReportKey(fills[0]) == key then [fills[0]] else []) + FillsKeyed(fills[1..], key)
  }

  function SharesIn(fills: seq<BrokerFill>): int {
    if fills == [] then 0 else fills[0].fill.shares + SharesIn(fills[1..])
  }

  function AmountIn(fills: seq<BrokerFill>): real {
    if fills == [] then 0.0 else fills[0].fill.amount + AmountIn(fills[1..])
  }

  function ReportOf(o: Order, fills: seq<BrokerFill>): Report {
    var own := FillsKeyed(fills, o.clientOrderId);
    var filled := SharesIn(own);
    Report(o.clientOrderId,
           if own == [] then "rejected" else if filled < o.shares then "partially_filled" else "filled",
           filled, Most(o.shares - filled, 0),
           if filled > 0 then AmountIn(own) / filled as real else 0.0, "")
  }

  function Reports(orders: seq<Order>, fills: seq<BrokerFill>): seq<Report> {
    if orders == [] then [] else [ReportOf(orders[0], fills)] + Reports(orders[1..], fills)
  }

  ghost function Broker(m: Market, weights: map<string, real>, holdings: map<string, int>, equity: real, cash: real,
                        orders: seq<Order>, slices: int): BrokerResult
    requires m.lot >= 1
  {
    var d := Execute(m, weights, holdings, equity, cash);
    var fills := SplitFills(d.trades, orders, slices, m.lot);
    BrokerResult(fills, Reports(orders, fills), d.holdings, d.cash, d.volume)
  }

  // ---- the broker as the code has it -----------------------------------------------------

  method SplitOneTrade(t: Trade, orders: seq<Order>, slices: int, lot: int) returns (fills: seq<BrokerFill>)
    requires lot >= 1
    ensures fills == SplitTrade(t, orders, slices, lot)
  {
    var o := RequestedFor(orders, t.symbol, t.side);
    var clientOrderId := if o.Some? then o.value.clientOrderId else "";
    var requested := if o.Some? then o.value.shares else t.shares;
    var chunks := SplitShares(t.shares, Most(slices, 1), lot);
    fills := [];
    var given, filled := Money(0.0, 0.0, 0.0, 0.0), 0;
    ghost var whole := SplitTrade(t, orders, slices, lot);
    assert chunks[0..] == chunks;
    for i := 0 to |chunks|
      invariant fills + FillsFrom(t, clientOrderId, requested, chunks[i..], i + 1, |chunks|, given, filled) == whole
    {
      var part := if i + 1 == |chunks| then Less(MoneyOf(t), given) else PartOf(t, chunks[i]);
      var child := ChildFill(t, clientOrderId, requested, chunks[i], part, filled + chunks[i], i + 1, |chunks|);
      FillsStep(t, clientOrderId, requested, chunks, i, given, filled, fills);
      fills := fills + [child];
      given, filled := Add(given, part), filled + chunks[i];
    }
    assert fills + [] == fills;
  }

  lemma FillsStep(t: Trade, clientOrderId: string, requested: int, chunks: seq<int>, i: nat, given: Money, filled: int,
                  fills: seq<BrokerFill>)
    requires i < |chunks|
    ensures var part := if i + 1 == |chunks| then Less(MoneyOf(t), given) else PartOf(t, chunks[i]);
      var child := ChildFill(t, clientOrderId, requested, chunks[i], part, filled + chunks[i], i + 1, |chunks|);
      fills + FillsFrom(t, clientOrderId, requested, chunks[i..], i + 1, |chunks|, given, filled)
        == fills + [child] + FillsFrom(t, clientOrderId, requested, chunks[i + 1..], i + 2, |chunks|, Add(given, part),
                                       filled + chunks[i])
  {
    assert chunks[i..][1..] == chunks[i + 1..];
  }

  method SplitBrokerFills(trades: seq<Trade>, orders: seq<Order>, slices: int, lot: int)
    returns (fills: seq<BrokerFill>)
    requires lot >= 1
    ensures fills == SplitFills(trades, orders, slices, lot)
  {
    fills := [];
    assert trades[0..] == trades;
    for i := 0 to |trades|
      invariant fills + SplitFills(trades[i..], orders, slices, lot) == SplitFills(trades, orders, slices, lot)
    {
      var children := SplitOneTrade(trades[i], orders, slices, lot);
      SplitStep(trades, orders, slices, lot, i, fills);
      fills := fills + children;
    }
    assert fills + [] == fills;
  }

  lemma SplitStep(trades: seq<Trade>, orders: seq<Order>, slices: int, lot: int, i: nat, fills: seq<BrokerFill>)
    requires lot >= 1 && i < |trades|
    ensures fills + SplitFills(trades[i..], orders, slices, lot)
         == fills + SplitTrade(trades[i], orders, slices, lot) + SplitFills(trades[i + 1..], orders, slices, lot)
  {
    assert trades[i..][1..] == trades[i + 1..];
  }

  method BuildOrderReports(orders: seq<Order>, fills: seq<BrokerFill>) returns (reports: seq<Report>)
    ensures reports == Reports(orders, fills)
  {
    reports := [];
    assert orders[0..] == orders;
    for i := 0 to |orders|
      invariant reports + Reports(orders[i..], fills) == Reports(orders, fills)
    {
      ReportStep(orders, fills, i, reports);
      reports := reports + [ReportOf(orders[i], fills)];
    }
    assert reports + [] == reports;
  }

  lemma ReportStep(orders: seq<Order>, fills: seq<BrokerFill>, i: nat, reports: seq<Report>)
    requires i < |orders|
    ensures reports + Reports(orders[i..], fills) == reports + [ReportOf(orders[i], fills)]
      + Reports(orders[i + 1..], fills)
  {
    assert orders[i..][1..] == orders[i + 1..];
  }

  method ExecuteTargetWeights(m: Market, weights: map<string, real>, holdings: map<string, int>, equity: real,
                              cash: real, orders: seq<Order>, slices: int) returns (r: BrokerResult)
    requires m.lot >= 1
    ensures r == Broker(m, weights, holdings, equity, cash, orders, slices)
  {
    var d := ExecutePortfolioTrades(m, weights, holdings, equity, cash);
    var fills := SplitBrokerFills(d.trades, orders, slices, m.lot);
    var reports := BuildOrderReports(orders, fills);
    r := BrokerResult(fills, reports, d.holdings, d.cash, d.volume);
  }

  // ---- nothing is lost in the split ------------------------------------------------------

  function ChildMove(symbol: string): BrokerFill -> Move { (f: BrokerFill) => MoveOf(f.fill, symbol) }

  /** What is still to hand out of a trade. */
  function RestMove(t: Trade, given: Money, shares: int, symbol: string): Move {
    MoveOf(FillPayload(t.symbol, t.side, shares, t.price, t.amount - given.amount, t.cost - given.cost), symbol)
  }

  lemma {:induction false} FillsMoveTheRest(t: Trade, clientOrderId: string, requested: int, chunks: seq<int>,
                                            slice: nat, slices: nat, given: Money, filled: int, symbol: string)
    requires chunks != []
    ensures Total(FillsFrom(t, clientOrderId, requested, chunks, slice, slices, given, filled), ChildMove(symbol))
         == RestMove(t, given, SumOf(chunks), symbol)
    decreases |chunks|
  {
    var part := if |chunks| == 1 then Less(MoneyOf(t), given) else PartOf(t, chunks[0]);
    var child := ChildFill(t, clientOrderId, requested, chunks[0], part, filled + chunks[0], slice, slices);
    var rest := FillsFrom(t, clientOrderId, requested, chunks[1..], slice + 1, slices, Add(given, part),
                          filled + chunks[0]);
    TotalOfCons(child, rest, ChildMove(symbol));
    if |chunks| > 1 {
      FillsMoveTheRest(t, clientOrderId, requested, chunks[1..], slice + 1, slices, Add(given, part),
                       filled + chunks[0], symbol);
    }
  }

  /** A trade's child fills move the trade's cash and shares. */
  lemma SplitKeepsTheTrade(t: Trade, orders: seq<Order>, slices: int, lot: int, symbol: string)
    requires lot >= 1 && t.shares > 0
    ensures Total(SplitTrade(t, orders, slices, lot), ChildMove(symbol)) == MoveOf(AsFill(t), symbol)
  {
    SlicesFacts(t.shares, Most(slices, 1), lot);
    var o := RequestedFor(orders, t.symbol, t.side);
    var chunks := Slices(t.shares, Most(slices, 1), lot);
    FillsMoveTheRest(t, if o.Some? then o.value.clientOrderId else "", if o.Some? then o.value.shares else t.shares,
                     chunks, 1, |chunks|, Money(0.0, 0.0, 0.0, 0.0), 0, symbol);
  }

  lemma {:induction false} SplitKeepsTheTrades(trades: seq<Trade>, orders: seq<Order>, slices: int, lot: int,
                                               symbol: string)
    requires lot >= 1 && forall t | t in trades :: t.shares > 0
    ensures Total(SplitFills(trades, orders, slices, lot), ChildMove(symbol)) == Total(trades, TradeMove(symbol))
  {
    if trades != [] {
      SplitKeepsTheTrade(trades[0], orders, slices, lot, symbol);
      SplitKeepsTheTrades(trades[1..], orders, slices, lot, symbol);
      TotalOfBoth(SplitTrade(trades[0], orders, slices, lot), SplitFills(trades[1..], orders, slices, lot),
                  ChildMove(symbol));
    }
  }

  function MoneyIn(fills: seq<BrokerFill>): Money {
    if fills == [] then Money(0.0, 0.0, 0.0, 0.0)
    else Add(Money(fills[0].fill.amount, fills[0].commission, fills[0].stampTax, fills[0].fill.cost),
             MoneyIn(fills[1..]))
  }

  /** What is given and what the fills to come carry is the trade's money. */
  lemma {:induction false} FillsShareTheMoney(t: Trade, clientOrderId: string, requested: int, chunks: seq<int>,
                                              slice: nat, slices: nat, given: Money, filled: int)
    requires chunks != []
    ensures Add(given, MoneyIn(FillsFrom(t, clientOrderId, requested, chunks, slice, slices, given, filled)))
      == MoneyOf(t)
    decreases |chunks|
  {
    var part := if |chunks| == 1 then Less(MoneyOf(t), given) else PartOf(t, chunks[0]);
    var child := ChildFill(t, clientOrderId, requested, chunks[0], part, filled + chunks[0], slice, slices);
    var rest := FillsFrom(t, clientOrderId, requested, chunks[1..], slice + 1, slices, Add(given, part),
                          filled + chunks[0]);
    assert ([child] + rest)[1..] == rest;
    if |chunks| > 1 {
      FillsShareTheMoney(t, clientOrderId, requested, chunks[1..], slice + 1, slices, Add(given, part),
                         filled + chunks[0]);
    }
  }

  /** Amount, commission, stamp tax and cost of a trade are each handed out in full. */
  lemma SplitKeepsTheMoney(t: Trade, orders: seq<Order>, slices: int, lot: int)
    requires lot >= 1 && t.shares > 0
    ensures MoneyIn(SplitTrade(t, orders, slices, lot)) == MoneyOf(t)
  {
    SlicesFacts(t.shares, Most(slices, 1), lot);
    var o := RequestedFor(orders, t.symbol, t.side);
    var chunks := Slices(t.shares, Most(slices, 1), lot);
    FillsShareTheMoney(t, if o.Some? then o.value.clientOrderId else "", if o.Some? then o.value.shares else t.shares,
                       chunks, 1, |chunks|, Money(0.0, 0.0, 0.0, 0.0), 0);
  }

  predicate FeesAddUp(m: Money) { m.cost == m.commission + m.stampTax }

  lemma PartFeesAddUp(t: Trade, chunk: int)
    requires FeesAddUp(MoneyOf(t))
    ensures FeesAddUp(PartOf(t, chunk))
  {
    var ratio := if t.shares > 0 then chunk as real / t.shares as real else 0.0;
    Shared(t.commission, t.stampTax, ratio);
  }

  lemma Shared(a: real, b: real, ratio: real)
    ensures (a + b) * ratio == a * ratio + b * ratio
  {
  }

  lemma {:induction false} FillsCostTheirFees(t: Trade, clientOrderId: string, requested: int, chunks: seq<int>,
                                              slice: nat, slices: nat, given: Money, filled: int)
    requires FeesAddUp(MoneyOf(t)) && FeesAddUp(given)
    ensures forall f | f in FillsFrom(t, clientOrderId, requested, chunks, slice, slices, given, filled) ::
      f.fill.price == t.price && f.fill.cost == f.commission + f.stampTax
    decreases |chunks|
  {
    if chunks != [] {
      var part := if |chunks| == 1 then Less(MoneyOf(t), given) else PartOf(t, chunks[0]);
      PartFeesAddUp(t, chunks[0]);
      FillsCostTheirFees(t, clientOrderId, requested, chunks[1..], slice + 1, slices, Add(given, part),
                         filled + chunks[0]);
    }
  }

  /** Every child fill is at the trade's price and costs its own commission and stamp tax. */
  lemma SplitFeesAddUp(t: Trade, orders: seq<Order>, slices: int, lot: int)
    requires lot >= 1 && FeesAddUp(MoneyOf(t))
    ensures forall f | f in SplitTrade(t, orders, slices, lot) ::
      f.fill.price == t.price && f.fill.cost == f.commission + f.stampTax
  {
    var o := RequestedFor(orders, t.symbol, t.side);
    var chunks := Slices(t.shares, Most(slices, 1), lot);
    FillsCostTheirFees(t, if o.Some? then o.value.clientOrderId else "", if o.Some? then o.value.shares else t.shares,
                       chunks, 1, |chunks|, Money(0.0, 0.0, 0.0, 0.0), 0);
  }

  // ---- shares of the money ---------------------------------------------------------------

  /** `part` is to `whole` as `n` shares are to all. */
  predicate IsPart(part: real, whole: real, n: int, shares: int) {
    Weighed(part, shares as real) == Weighed(whole, n as real)
  }

  predicate InProportion(m: Money, t: Trade, n: int) {
    && IsPart(m.amount, t.amount, n, t.shares) && IsPart(m.commission, t.commission, n, t.shares)
    && IsPart(m.stampTax, t.stampTax, n, t.shares) && IsPart(m.cost, t.cost, n, t.shares)
  }

  lemma RatioIsPart(x: real, ratio: real, n: int, shares: int)
    requires ratio * shares as real == n as real
    ensures IsPart(x * ratio, x, n, shares)
  {
    assert x * ratio * shares as real == x * (ratio * shares as real);
  }

  lemma PartIsInProportion(t: Trade, chunk: int)
    requires t.shares > 0
    ensures InProportion(PartOf(t, chunk), t, chunk)
  {
    var ratio := chunk as real / t.shares as real;
    assert ratio * t.shares as real == chunk as real;
    RatioIsPart(t.amount, ratio, chunk, t.shares);
    RatioIsPart(t.commission, ratio, chunk, t.shares);
    RatioIsPart(t.stampTax, ratio, chunk, t.shares);
    RatioIsPart(t.cost, ratio, chunk, t.shares);
  }

  lemma PartsAdd(a: real, b: real, whole: real, n: int, k: int, shares: int)
    requires IsPart(a, whole, n, shares) && IsPart(b, whole, k, shares)
    ensures IsPart(a + b, whole, n + k, shares)
  {
    Distribute(shares as real, a, b);
    Distribute(whole, n as real, k as real);
  }

  lemma ProportionsAdd(a: Money, b: Money, t: Trade, n: int, k: int)
    requires InProportion(a, t, n) && InProportion(b, t, k)
    ensures InProportion(Add(a, b), t, n + k)
  {
    PartsAdd(a.amount, b.amount, t.amount, n, k, t.shares);
    PartsAdd(a.commission, b.commission, t.commission, n, k, t.shares);
    PartsAdd(a.stampTax, b.stampTax, t.stampTax, n, k, t.shares);
    PartsAdd(a.cost, b.cost, t.cost, n, k, t.shares);
  }

  lemma LeftIsPart(a: real, whole: real, n: int, shares: int)
    requires IsPart(a, whole, n, shares)
    ensures IsPart(whole - a, whole, shares - n, shares)
  {
    Distribute(shares as real, whole, -a);
    Distribute(whole, shares as real, -(n as real));
  }

  lemma LeftInProportion(given: Money, t: Trade, n: int)
    requires InProportion(given, t, n)
    ensures InProportion(Less(MoneyOf(t), given), t, t.shares - n)
  {
    LeftIsPart(given.amount, t.amount, n, t.shares);
    LeftIsPart(given.commission, t.commission, n, t.shares);
    LeftIsPart(given.stampTax, t.stampTax, n, t.shares);
    LeftIsPart(given.cost, t.cost, n, t.shares);
  }

  function MoneyOfFill(f: BrokerFill): Money { Money(f.fill.amount, f.commission, f.stampTax, f.fill.cost) }

  lemma {:induction false} FillsInProportion(t: Trade, clientOrderId: string, requested: int, chunks: seq<int>,
                                             slice: nat, slices: nat, given: Money, filled: int)
    requires t.shares > 0 && SumOf(chunks) + filled == t.shares && InProportion(given, t, filled)
    ensures forall f | f in FillsFrom(t, clientOrderId, requested, chunks, slice, slices, given, filled) ::
      InProportion(MoneyOfFill(f), t, f.fill.shares)
    decreases |chunks|
  {
    if chunks != [] {
      var part := if |chunks| == 1 then Less(MoneyOf(t), given) else PartOf(t, chunks[0]);
      if |chunks| == 1 {
        assert chunks[1..] == [] && chunks[0] == t.shares - filled;
        LeftInProportion(given, t, filled);
      } else {
        PartIsInProportion(t, chunks[0]);
      }
      ProportionsAdd(given, part, t, filled, chunks[0]);
      FillsInProportion(t, clientOrderId, requested, chunks[1..], slice + 1, slices, Add(given, part),
                        filled + chunks[0]);
    }
  }

  /** Every child fill, the last one too, has the part of the amount, the commission, the stamp tax and the cost of its
      trade that its shares are of the trade's. */
  lemma SplitIsInProportion(t: Trade, orders: seq<Order>, slices: int, lot: int)
    requires lot >= 1 && t.shares > 0
    ensures forall f | f in SplitTrade(t, orders, slices, lot) :: InProportion(MoneyOfFill(f), t, f.fill.shares)
  {
    SlicesFacts(t.shares, Most(slices, 1), lot);
    var o := RequestedFor(orders, t.symbol, t.side);
    var chunks := Slices(t.shares, Most(slices, 1), lot);
    FillsInProportion(t, if o.Some? then o.value.clientOrderId else "", if o.Some? then o.value.shares else t.shares,
                      chunks, 1, |chunks|, Money(0.0, 0.0, 0.0, 0.0), 0);
  }
}
