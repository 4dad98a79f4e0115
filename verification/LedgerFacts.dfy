/** What the replayed account tells of its log, part by part (ez/live/ledger.py). */
module LedgerFacts {
  import opened Reals
  import opened BrokerStatus
  import opened Events
  import opened Options
  import opened Ledger
  import opened LedgerInvariants
  import opened LedgerReplay
  import Sorting

  // ---- the order of replay ---------------------------------------------------------------

  /** The kinds of events in the order in which those of one moment are replayed: market data, orders from submission to
      rejection, the broker's own events with reports before requests, then risk, checkpoint and tick. */
  function Phase(b: Body): nat {
    match b
    case MarketSnapshot(_) => 0
    case MarketBar(_, _, _) => 1
    case OrderSubmitted => 2
    case OrderPartiallyFilled(_) => 3
    case OrderFilled(_) => 4
    case OrderRejected => 5
    case BrokerAccount => 6
    case BrokerRuntime(_) => 7
    case BrokerExecution(_) => 8
    case BrokerCancelRequested(_) => 9
    case RiskRecorded(_) => 10
    case SnapshotSaved(_) => 11
    case TickCompleted => 12
  }

  /** A replay goes by time, and within one moment by kind. */
  lemma ReplayGoesByPhase(events: seq<Event>, i: nat, j: nat)
    requires IdsIdentify(events) && i < j < |Dedup(Sorting.Sort(events, KeyLess), {})|
    ensures var log := Dedup(Sorting.Sort(events, KeyLess), {});
      log[i].ts < log[j].ts || (log[i].ts == log[j].ts && Phase(log[i].body) <= Phase(log[j].body))
  {
    var log := Dedup(Sorting.Sort(events, KeyLess), {});
    NormalLog(events);
    assert KeyLess(log[i], log[j]);
    PriorityIsPhase(log[i].body, log[j].body);
  }

  lemma PriorityIsPhase(a: Body, b: Body)
    ensures Priority(a) <= Priority(b) <==> Phase(a) <= Phase(b)
  {
  }

  // ---- the checkpoints -------------------------------------------------------------------

  /** What the events give of one kind, in their order. */
  function Given<T>(log: seq<Event>, f: Event -> Option<T>): seq<T> {
    if log == [] then [] else (if f(log[0]).Some? then [f(log[0]).value] else []) + Given(log[1..], f)
  }

  /** The last of these, or what there was before them. */
  function LastOr<T>(s: seq<T>, before: T): T { if s == [] then before else s[|s| - 1] }

  function EquityOf(e: Event): Option<real> { if e.body.SnapshotSaved? then e.body.checkpoint.equity else None }

  function DateOf(e: Event): Option<int> { if e.body.SnapshotSaved? then e.body.checkpoint.date else None }

  function WeightsOf(e: Event): Option<map<string, real>> {
    if e.body.SnapshotSaved? then e.body.checkpoint.weights else None
  }

  function ReturnsOf(e: Event): Option<map<string, real>> {
    if e.body.SnapshotSaved? then e.body.checkpoint.prevReturns else None
  }

  function RiskOf(e: Event): Option<string> { if e.body.RiskRecorded? then e.body.riskEvent else None }

  /** The latest date at every checkpoint that has one or comes after one. */
  function DatesFrom(log: seq<Event>, latest: Option<int>): seq<int> {
    if log == [] then []
    else
      var now := if DateOf(log[0]).Some? then DateOf(log[0]) else latest;
      (if log[0].body.SnapshotSaved? && now.Some? then [now.value] else []) + DatesFrom(log[1..], now)
  }

  function Whole<T>(given: seq<T>, before: Option<T>): Option<T> {
    if given == [] then before else Some(given[|given| - 1])
  }

  /** The history an account ends with: what all checkpoints gave, and the last that they gave. */
  ghost predicate Follows(h: History, log: seq<Event>, r: History) {
    && r.equityCurve == h.equityCurve + Given(log, EquityOf)
    && r.dates == h.dates + DatesFrom(log, h.latestDate)
    && r.latestDate == Whole(Given(log, DateOf), h.latestDate)
    && r.latestEquity == Whole(Given(log, EquityOf), h.latestEquity)
    && r.weights == LastOr(Given(log, WeightsOf), h.weights)
    && r.prevReturns == LastOr(Given(log, ReturnsOf), h.prevReturns)
  }

  lemma HistoryStep(a: Account, e: Event)
    ensures Follows(a.history, [e], Apply(a, e).history) && Apply(a, e).riskEvents == a.riskEvents + Given([e], RiskOf)
  {
    One(e, EquityOf);
    One(e, DateOf);
    One(e, WeightsOf);
    One(e, ReturnsOf);
    One(e, RiskOf);
    OneDate(e, a.history.latestDate);
    if e.body.SnapshotSaved? { CheckpointStep(a.history, e); } else { OtherStep(a, e); }
  }

  lemma One<T>(e: Event, f: Event -> Option<T>)
    ensures Given([e], f) == if f(e).Some? then [f(e).value] else []
  {
    assert [e][1..] == [];
  }

  lemma OneDate(e: Event, latest: Option<int>)
    ensures var now := if DateOf(e).Some? then DateOf(e) else latest;
      DatesFrom([e], latest) == if e.body.SnapshotSaved? && now.Some? then [now.value] else []
  {
    assert [e][1..] == [];
  }

  lemma CheckpointStep(h: History, e: Event)
    requires e.body.SnapshotSaved?
    ensures Follows(h, [e], Remember(h, e.body.checkpoint))
  {
    One(e, EquityOf);
    One(e, DateOf);
    One(e, WeightsOf);
    One(e, ReturnsOf);
    OneDate(e, h.latestDate);
  }

  lemma OtherStep(a: Account, e: Event)
    requires !e.body.SnapshotSaved?
    ensures Apply(a, e).history == a.history
    ensures Apply(a, e).riskEvents == a.riskEvents + if RiskOf(e).Some? then [RiskOf(e).value] else []
  {
    match e.body
    case OrderFilled(f) => FillTouchesNeither(a, e.clientOrderId, f, FullyFilled);
    case OrderPartiallyFilled(f) => FillTouchesNeither(a, e.clientOrderId, f, PartFilled);
    case BrokerCancelRequested(_) => RequestTouchesNeither(a, e);
    case BrokerExecution(_) => ReportTouchesNeither(a, e);
    case _ =>
  }

  lemma FillTouchesNeither(a: Account, key: string, f: FillPayload, status: OrderStatus)
    ensures ApplyFill(a, key, f, status).history == a.history
    ensures ApplyFill(a, key, f, status).riskEvents == a.riskEvents
  {
  }

  lemma RequestTouchesNeither(a: Account, e: Event)
    requires e.body.BrokerCancelRequested?
    ensures Apply(a, e).history == a.history && Apply(a, e).riskEvents == a.riskEvents
  {
  }

  lemma ReportTouchesNeither(a: Account, e: Event)
    requires e.body.BrokerExecution?
    ensures Apply(a, e).history == a.history && Apply(a, e).riskEvents == a.riskEvents
  {
  }

  lemma DatesStep(log: seq<Event>, latest: Option<int>)
    requires log != []
    ensures DatesFrom(log, latest)
      == DatesFrom([log[0]], latest) + DatesFrom(log[1..], Whole(Given([log[0]], DateOf), latest))
  {
    One(log[0], DateOf);
    OneDate(log[0], latest);
  }

  lemma GivenStep<T>(log: seq<Event>, f: Event -> Option<T>)
    requires log != []
    ensures Given(log, f) == Given([log[0]], f) + Given(log[1..], f)
  {
    One(log[0], f);
  }

  lemma JoinedSides<T>(list: seq<T>, first: seq<T>, rest: seq<T>, last: T, latest: Option<T>)
    ensures list + (first + rest) == list + first + rest
    ensures LastOr(first + rest, last) == LastOr(rest, LastOr(first, last))
    ensures Whole(first + rest, latest) == Whole(rest, Whole(first, latest))
  {
  }

  /** What a kind of part collects is collected event by event. */
  lemma ColumnStep<T>(log: seq<Event>, f: Event -> Option<T>, list: seq<T>, last: T, latest: Option<T>)
    requires log != []
    ensures var first, rest := Given([log[0]], f), Given(log[1..], f);
      && list + Given(log, f) == list + first + rest
      && LastOr(Given(log, f), last) == LastOr(rest, LastOr(first, last))
      && Whole(Given(log, f), latest) == Whole(rest, Whole(first, latest))
  {
    GivenStep(log, f);
    JoinedSides(list, Given([log[0]], f), Given(log[1..], f), last, latest);
  }

  lemma FollowsOn(h: History, log: seq<Event>, middle: History, r: History)
    requires log != [] && Follows(h, [log[0]], middle) && Follows(middle, log[1..], r)
    ensures Follows(h, log, r)
  {
    ColumnStep(log, EquityOf, h.equityCurve, 0.0, h.latestEquity);
    DatesOn(log, h.dates, h.latestDate, middle.dates, middle.latestDate, r.dates, r.latestDate);
    ColumnStep(log, WeightsOf, [], h.weights, None);
    ColumnStep(log, ReturnsOf, [], h.prevReturns, None);
  }

  lemma DatesOn(log: seq<Event>, dates: seq<int>, latest: Option<int>, dates1: seq<int>, latest1: Option<int>,
                dates2: seq<int>, latest2: Option<int>)
    requires log != []
    requires dates1 == dates + DatesFrom([log[0]], latest) && latest1 == Whole(Given([log[0]], DateOf), latest)
    requires dates2 == dates1 + DatesFrom(log[1..], latest1) && latest2 == Whole(Given(log[1..], DateOf), latest1)
    ensures dates2 == dates + DatesFrom(log, latest) && latest2 == Whole(Given(log, DateOf), latest)
  {
    DatesStep(log, latest);
    ColumnStep(log, DateOf, [], 0, latest);
  }

  /** The history of an account is that of its checkpoints, and its risk events are those recorded, in order. */
  lemma {:induction false} HistoryIsOfCheckpoints(a: Account, log: seq<Event>)
    ensures Follows(a.history, log, Fold(a, log).history)
    ensures Fold(a, log).riskEvents == a.riskEvents + Given(log, RiskOf)
    decreases |log|
  {
    if log != [] {
      HistoryStep(a, log[0]);
      HistoryIsOfCheckpoints(Apply(a, log[0]), log[1..]);
      FollowsOn(a.history, log, Apply(a, log[0]).history, Fold(a, log).history);
      ColumnStep(log, RiskOf, a.riskEvents, "", None);
    }
  }

  // ---- the cash --------------------------------------------------------------------------

  /** The cash after the events: buys cost their amount and charges, sales bring in their amount less charges, and a
      checkpoint with cash sets it. */
  function CashAfterAll(cash: real, log: seq<Event>): real
    decreases |log|
  {
    if log == [] then cash
    else
      var next := match log[0].body
        case OrderFilled(f) => if f.side == Buy then cash - f.amount - f.cost else cash + f.amount - f.cost
        case OrderPartiallyFilled(f) => if f.side == Buy then cash - f.amount - f.cost else cash + f.amount - f.cost
        case SnapshotSaved(c) => if c.cash.Some? then c.cash.value else cash
        case _ => cash;
      CashAfterAll(next, log[1..])
  }

  /** The cash of an account is what its fills moved since the last checkpoint with cash. */
  lemma {:induction false} CashIsOfFills(a: Account, log: seq<Event>)
    ensures Fold(a, log).cash == CashAfterAll(a.cash, log)
    decreases |log|
  {
    if log != [] {
      CashAfter(a, log[0]);
      CashIsOfFills(Apply(a, log[0]), log[1..]);
    }
  }

  // ---- the order statuses ----------------------------------------------------------------

  /** The name that an event asks a local status for: the client's id, else the broker's. */
  function NameIn(e: Event): string {
    if e.clientOrderId != "" then e.clientOrderId
    else match e.body
      case BrokerExecution(r) => r.brokerOrderId
      case BrokerCancelRequested(c) => c.brokerOrderId
      case _ => ""
  }

  /** The local statuses are kept under those names: no event touches another, and a nameless one touches none. */
  lemma StatusesAreNamed(a: Account, e: Event, key: string)
    requires key != NameIn(e) || key == ""
    ensures Get(Apply(a, e).orderStatuses, key) == Get(a.orderStatuses, key)
  {
    StatusesAfter(a, e);
    NameIsRequested(e);
  }

  lemma NameIsRequested(e: Event)
    ensures Requested(e).Some? ==> Requested(e).value.0 == NameIn(e)
  {
  }

  // ---- the prices ------------------------------------------------------------------------

  /** The price an event quotes for a symbol. */
  function Quote(e: Event, symbol: string): Option<real> {
    match e.body
    case OrderFilled(f) => if f.symbol == symbol && f.price > 0.0 then Some(f.price) else None
    case OrderPartiallyFilled(f) => if f.symbol == symbol && f.price > 0.0 then Some(f.price) else None
    case MarketSnapshot(prices) => if symbol in prices && prices[symbol] > 0.0 then Some(prices[symbol]) else None
    case MarketBar(quoted, adjClose, close) =>
      if quoted != symbol || symbol == "" then None
      else if adjClose > 0.0 then Some(adjClose)
      else if close > 0.0 then Some(close)
      else None
    case _ => None
  }

  /** The account's last checkpoint values the position: a positive equity, a long position and a positive weight. */
  predicate Valued(a: Account, symbol: string) {
    && a.history.latestEquity.Some? && a.history.latestEquity.value > 0.0
    && symbol in a.holdings && a.holdings[symbol] > 0
    && symbol in a.history.weights && a.history.weights[symbol] > 0.0
  }

  /** The event says nothing of the symbol's price. */
  predicate Silent(a: Account, e: Event, symbol: string) {
    Quote(e, symbol).None? && !(e.body.SnapshotSaved? && Valued(Apply(a, e), symbol))
  }

  predicate Quiet(a: Account, log: seq<Event>, symbol: string)
    decreases |log|
  {
    log == [] || (Silent(a, log[0], symbol) && Quiet(Apply(a, log[0]), log[1..], symbol))
  }

  /** The price is the one quoted, or the one that makes the position its weight of the equity. */
  predicate PricedBy(a: Account, e: Event, symbol: string, price: Option<real>) {
    if Quote(e, symbol).Some? then price == Quote(e, symbol)
    else
      && price.Some? && Valued(a, symbol)
      && Weighed(price.value, a.holdings[symbol] as real)
           == Weighed(a.history.latestEquity.value, a.history.weights[symbol])
  }

  lemma PriceAfter(a: Account, e: Event, symbol: string)
    ensures var r := Apply(a, e);
      if Silent(a, e, symbol) then Get(r.lastPrices, symbol) == Get(a.lastPrices, symbol)
      else PricedBy(r, e, symbol, Get(r.lastPrices, symbol))
  {
    match e.body
    case SnapshotSaved(_) => CheckpointPrices(a, e, symbol);
    case OrderFilled(f) => FillPrices(a, e.clientOrderId, f, FullyFilled, symbol);
    case OrderPartiallyFilled(f) => FillPrices(a, e.clientOrderId, f, PartFilled, symbol);
    case BrokerExecution(_) => BrokerPrices(a, e);
    case BrokerCancelRequested(_) => BrokerPrices(a, e);
    case _ =>
  }

  lemma FillPrices(a: Account, key: string, f: FillPayload, status: OrderStatus, symbol: string)
    ensures Get(ApplyFill(a, key, f, status).lastPrices, symbol)
      == if f.symbol == symbol && f.price > 0.0 then Some(f.price) else Get(a.lastPrices, symbol)
  {
  }

  lemma BrokerPrices(a: Account, e: Event)
    requires e.body.BrokerExecution? || e.body.BrokerCancelRequested?
    ensures Apply(a, e).lastPrices == a.lastPrices
  {
  }

  lemma CheckpointPrices(a: Account, e: Event, symbol: string)
    requires e.body.SnapshotSaved?
    ensures var r := Apply(a, e);
      if Valued(r, symbol) then PricedBy(r, e, symbol, Get(r.lastPrices, symbol))
      else Get(r.lastPrices, symbol) == Get(a.lastPrices, symbol)
  {
    var r := Apply(a, e);
    if Valued(r, symbol) {
      var value, shares := r.history.latestEquity.value * r.history.weights[symbol], r.holdings[symbol] as real;
      assert r.lastPrices[symbol] == value / shares;
      assert value / shares * shares == value;
    }
  }

  lemma {:induction false} QuietKeepsPrice(a: Account, log: seq<Event>, symbol: string)
    requires Quiet(a, log, symbol)
    ensures Get(Fold(a, log).lastPrices, symbol) == Get(a.lastPrices, symbol)
    decreases |log|
  {
    if log != [] {
      PriceAfter(a, log[0], symbol);
      QuietKeepsPrice(Apply(a, log[0]), log[1..], symbol);
    }
  }

  /** The price of a symbol is the last that a fill, a market snapshot or a bar quoted or a checkpoint implied, and no
      other event touches it. */
  lemma PriceIsLastQuote(a: Account, before: seq<Event>, e: Event, after: seq<Event>, symbol: string)
    requires !Silent(Fold(a, before), e, symbol) && Quiet(Fold(a, before + [e]), after, symbol)
    ensures PricedBy(Fold(a, before + [e]), e, symbol, Get(Fold(a, before + [e] + after).lastPrices, symbol))
  {
    FoldOfBoth(a, before + [e], after);
    FoldOfBoth(a, before, [e]);
    OneEvent(Fold(a, before), e);
    PriceAfter(Fold(a, before), e, symbol);
    QuietKeepsPrice(Fold(a, before + [e]), after, symbol);
  }

  // ---- the broker's orders ---------------------------------------------------------------

  /** What a row shows of the report or the cancel request it was last taken from; a request carries no counts. */
  predicate Shows(o: BrokerOrder, e: Event) {
    && o.eventId == e.id && o.eventTs == e.ts && o.clientOrderId == e.clientOrderId
    && match e.body
       case BrokerExecution(r) =>
         && o.status == r.status && o.reportId == r.reportId && o.avgPrice == r.avgPrice
         && o.filledShares == (if IsSubmissionOnly(r.status) then 0 else r.filledShares)
         && (!IsSubmissionOnly(r.status) || r.filledShares == 0 ==> o.remainingShares == r.remainingShares)
       case BrokerCancelRequested(_) =>
         IsCancelPending(o.status) && o.reportId == "" && o.filledShares == o.remainingShares == 0 && o.avgPrice == 0.0
       case _ => false
  }

  /** A report that claims fills before the broker could have any. */
  predicate ClaimsTooEarly(e: Event) {
    e.body.BrokerExecution? && IsSubmissionOnly(e.body.report.status) && e.body.report.filledShares != 0
  }

  /** The event's status is further than the row's, or as far and not older. */
  predicate Newer(o: BrokerOrder, status: Status, ts: int) {
    if IsTerminal(o.status) then o.status == PartiallyCanceled && status == Canceled
    else Rank(o.status) < Rank(status) || (Rank(o.status) == Rank(status) && o.eventTs <= ts)
  }

  /** The status that a report or a cancel request gives an order in this state. */
  function GivenStatus(before: Option<BrokerOrder>, e: Event): Option<Status> {
    match e.body
    case BrokerExecution(r) => Some(r.status)
    case BrokerCancelRequested(_) =>
      if before.Some? && IsTerminal(before.value.status) then None
      else if before.Some? && before.value.status in {PartiallyFilled, PartiallyFilledCancelPending} then
        Some(PartiallyFilledCancelPending)
      else Some(ReportedCancelPending)
    case _ => None
  }

  /** The key an event is filed under: the broker's id of the order if it has one, else the client's. */
  function FiledAt(e: Event): Option<string> {
    match e.body
    case BrokerExecution(r) => Some(if r.brokerOrderId != "" then r.brokerOrderId else e.clientOrderId)
    case BrokerCancelRequested(c) => Some(if c.brokerOrderId != "" then c.brokerOrderId else e.clientOrderId)
    case _ => None
  }

  /** The event is filed under the key and the row takes it. */
  predicate Takes(before: Option<BrokerOrder>, e: Event, key: string) {
    && FiledAt(e) == Some(key) && GivenStatus(before, e).Some?
    && (before.None? || Newer(before.value, GivenStatus(before, e).value, e.ts))
  }

  /** Who asked for a cancel, when, and for what. */
  datatype Mark = Mark(id: string, at: Option<int>, state: Option<Status>)

  const UNMARKED := Mark("", None, None)

  function MarkIn(o: Option<BrokerOrder>): Mark {
    match o
    case None => UNMARKED
    case Some(row) => Mark(row.cancelRequestEventId, row.cancelRequestedAt, row.cancelState)
  }

  /** What one event does to the row at a key. */
  ghost predicate Moves(before: Option<BrokerOrder>, e: Event, key: string, after: Option<BrokerOrder>) {
    && (if Takes(before, e, key) then
          && after.Some? && Shows(after.value, e) && after.value.brokerOrderId == key
          && after.value.status == GivenStatus(before, e).value
          && (ClaimsTooEarly(e) && before.Some? ==> after.value.remainingShares == before.value.remainingShares)
          && (ClaimsTooEarly(e) && before.None? ==> after.value.remainingShares == e.body.report.remainingShares)
        else SameBut(before, after))
    && MarkIn(after) == MarkAfter(before, e, key)
  }

  /** A cancel request of an unfinished order marks its row, even when the row does not take it. */
  predicate Marks(before: Option<BrokerOrder>, e: Event, key: string) {
    FiledAt(e) == Some(key) && e.body.BrokerCancelRequested? && GivenStatus(before, e).Some?
  }

  function MarkAfter(before: Option<BrokerOrder>, e: Event, key: string): Mark {
    if Marks(before, e, key) then Mark(e.id, Some(e.ts), GivenStatus(before, e)) else MarkIn(before)
  }

  /** The same row but for the mark of a cancel request. */
  predicate SameBut(before: Option<BrokerOrder>, after: Option<BrokerOrder>) {
    match before
    case None => after == None
    case Some(o) => after.Some? && after.value == o.(cancelRequestEventId := after.value.cancelRequestEventId,
      cancelRequestedAt := after.value.cancelRequestedAt, cancelState := after.value.cancelState)
  }

  lemma ReportMoves(a: Account, e: Event, key: string)
    requires e.body.BrokerExecution? && key != ""
    ensures Moves(Get(a.brokerOrders, key), e, key, Get(Apply(a, e).brokerOrders, key))
  {
  }

  lemma RequestMoves(a: Account, e: Event, key: string)
    requires e.body.BrokerCancelRequested? && key != ""
    ensures Moves(Get(a.brokerOrders, key), e, key, Get(Apply(a, e).brokerOrders, key))
  {
    var at, before := FiledAt(e).value, Get(a.brokerOrders, FiledAt(e).value);
    RequestIsAdvance(a, e, at);
    if at == key && (before.None? || !IsTerminal(before.value.status)) { RequestOfUnfinished(a.brokerOrders, key, e); }
  }

  lemma RequestIsAdvance(a: Account, e: Event, at: string)
    requires e.body.BrokerCancelRequested? && FiledAt(e) == Some(at)
    ensures Apply(a, e).brokerOrders == RequestCancel(a.brokerOrders, at, e)
  {
  }

  lemma RequestOfUnfinished(orders: map<string, BrokerOrder>, key: string, e: Event)
    requires e.body.BrokerCancelRequested? && key != "" && FiledAt(e) == Some(key)
    requires key in orders ==> !IsTerminal(orders[key].status)
    ensures Moves(Get(orders, key), e, key, Get(RequestCancel(orders, key, e), key))
  {
  }

  lemma EventMoves(a: Account, e: Event, key: string)
    requires key != ""
    ensures Moves(Get(a.brokerOrders, key), e, key, Get(Apply(a, e).brokerOrders, key))
  {
    match e.body
    case BrokerExecution(_) => ReportMoves(a, e, key);
    case BrokerCancelRequested(_) => RequestMoves(a, e, key);
    case _ =>
  }

  /** The last event the row at a key took, and the last cancel request that marked it. */
  ghost function LastTaken(a: Account, log: seq<Event>, key: string, known: Option<Event>): Option<Event>
    decreases |log|
  {
    if log == [] then known
    else LastTaken(Apply(a, log[0]), log[1..], key,
                   if Takes(Get(a.brokerOrders, key), log[0], key) then Some(log[0]) else known)
  }

  ghost function LastMark(a: Account, log: seq<Event>, key: string, known: Mark): Mark
    decreases |log|
  {
    if log == [] then known
    else LastMark(Apply(a, log[0]), log[1..], key,
                  if Marks(Get(a.brokerOrders, key), log[0], key)
                  then MarkAfter(Get(a.brokerOrders, key), log[0], key) else known)
  }

  /** The row shows this event; there is none while there is no event to show. */
  ghost predicate RowShows(row: Option<BrokerOrder>, known: Option<Event>) {
    (row.None? <==> known.None?) && (row.Some? ==> Shows(row.value, known.value))
  }

  lemma {:induction false} RowShowsLater(a: Account, log: seq<Event>, key: string, known: Option<Event>)
    requires key != "" && RowShows(Get(a.brokerOrders, key), known)
    ensures RowShows(Get(Fold(a, log).brokerOrders, key), LastTaken(a, log, key, known))
    ensures MarkIn(Get(Fold(a, log).brokerOrders, key)) == LastMark(a, log, key, MarkIn(Get(a.brokerOrders, key)))
    decreases |log|
  {
    if log != [] {
      EventMoves(a, log[0], key);
      RowShowsLater(Apply(a, log[0]), log[1..], key,
                    if Takes(Get(a.brokerOrders, key), log[0], key) then Some(log[0]) else known);
    }
  }

  /** Over any log the row of an order shows the last report or cancel request that was further than it or as far and
      not older, and carries the mark of the last cancel request that found it unfinished. */
  lemma RowShowsLastTaken(cash: real, holdings: map<string, int>, log: seq<Event>, key: string)
    requires key != ""
    ensures var a := Opening(cash, holdings);
      && RowShows(Get(Fold(a, log).brokerOrders, key), LastTaken(a, log, key, None))
      && MarkIn(Get(Fold(a, log).brokerOrders, key)) == LastMark(a, log, key, UNMARKED)
  {
    RowShowsLater(Opening(cash, holdings), log, key, None);
  }

  /** A cancel request makes the ledger forget what it knew of the fills: whatever a partly filled order's row showed,
      it then shows no filled shares, no remaining ones and no price. */
  lemma CancelRequestForgetsFills(a: Account, e: Event, key: string)
    requires key != "" && key in a.brokerOrders && a.brokerOrders[key].status == PartiallyFilled
    requires e.body.BrokerCancelRequested? && FiledAt(e) == Some(key)
    ensures var after := Apply(a, e).brokerOrders;
      && key in after && after[key].status == PartiallyFilledCancelPending
      && after[key].filledShares == after[key].remainingShares == 0 && after[key].avgPrice == 0.0
  {
    EventMoves(a, e, key);
  }

  // ---- the count of events ---------------------------------------------------------------

  /** How many events have an id. */
  function Named(log: seq<Event>): nat {
    if log == [] then 0 else (if log[0].id != "" then 1 else 0) + Named(log[1..])
  }

  lemma {:induction false} NamedAfterFilter(events: seq<Event>, seen: set<string>)
    ensures Named(Dedup(events, seen)) == |Ids(events) - seen|
  {
    if events == [] {
      assert Ids(events) - seen == {};
    } else {
      var e, rest := events[0], events[1..];
      assert events == [e] + rest;
      IdsTail(e, rest);
      NamedTail(e, rest, seen);
      if e.id == "" || e.id in seen {
        NamedAfterFilter(rest, seen);
        SameNew(Ids(rest), if e.id == "" then {} else {e.id}, seen);
      } else {
        NamedAfterFilter(rest, seen + {e.id});
        OneMoreNew(Ids(rest), e.id, seen);
      }
    }
  }

  lemma SameNew(ids: set<string>, known: set<string>, seen: set<string>)
    requires known <= seen
    ensures ids + known - seen == ids - seen
  {
  }

  lemma OneMoreNew(ids: set<string>, id: string, seen: set<string>)
    requires id !in seen
    ensures |ids + {id} - seen| == 1 + |ids - (seen + {id})|
  {
    assert ids + {id} - seen == ids - (seen + {id}) + {id};
  }

  lemma IdsTail(e: Event, rest: seq<Event>)
    ensures Ids([e] + rest) == Ids(rest) + if e.id != "" then {e.id} else {}
  {
  }

  lemma NamedTail(e: Event, rest: seq<Event>, seen: set<string>)
    ensures Named(Dedup([e] + rest, seen)) == if e.id == "" then Named(Dedup(rest, seen))
      else if e.id in seen then Named(Dedup(rest, seen))
      else 1 + Named(Dedup(rest, seen + {e.id}))
  {
    assert ([e] + rest)[1..] == rest;
  }

  /** The count that a replay reports is that of the events with an id which it applied. */
  lemma CountIsOfAppliedEvents(events: seq<Event>, cash: real, holdings: map<string, int>)
    ensures Replay(events, cash, holdings).seenEventCount == Named(Dedup(Sorting.Sort(events, KeyLess), {}))
  {
    SortedIds(events);
    NamedAfterFilter(Sorting.Sort(events, KeyLess), {});
    assert Ids(events) - {} == Ids(events);
  }
}
