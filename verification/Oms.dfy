/** The paper OMS, ez/live/oms.py: target weights become orders, the orders pass the risk gate, the broker
    carries out the accepted ones, and everything that happened is written to the event log. */
module Oms {
  import opened BrokerStatus
  import opened Options
  import opened Events
  import opened Ledger
  import opened Orders
  import opened Execution
  import opened PaperBroker
  import opened CapitalPolicy
  import opened RiskGate
  import opened RiskLaws
  import SortedKeys

  /** A day's rebalance; `weights` are the target weights after allocation. */
  datatype Day = Day(
    deployment: string, date: string, weights: map<string, real>, holdings: map<string, int>, equity: real, cash: real,
    market: Market, risk: Config, policy: Option<Policy>, paperBroker: bool, slices: int)

  /** What the OMS reports of an order. */
  datatype Record = Record(order: Order, status: OrderStatus, remaining: int)

  datatype Outcome = Outcome(
    records: seq<Record>, fills: seq<BrokerFill>, events: seq<Event>, refused: seq<Refusal>,
    holdings: map<string, int>, cash: real, volume: real)

  function SettingOf(d: Day): Setting { Setting(d.risk, d.policy, d.paperBroker, d.market.prices, d.equity) }

  // ---- the orders of the day -----------------------------------------------------------------

  function DesiredOrder(d: Day, target: map<string, int>, s: string): seq<Order> {
    var delta := Held(target, s) - Held(d.holdings, s);
    var side := if delta > 0 then Buy else Sell;
    if delta == 0 then []
      else [Order(ClientOrderId(d.deployment, d.date, s, side), s, side, if delta > 0 then delta else -delta)]
  }

  function DesiredFrom(d: Day, target: map<string, int>, symbols: seq<string>): seq<Order> {
    if symbols == [] then [] else DesiredOrder(d, target, symbols[0]) + DesiredFrom(d, target, symbols[1..])
  }

  function DesiredTarget(d: Day): map<string, int>
    requires d.market.lot >= 1
  {
    TargetShares(d.weights, d.equity, d.market.prices, d.market.lot)
  }

  ghost function Desired(d: Day): seq<Order>
    requires d.market.lot >= 1
  {
    DesiredFrom(d, DesiredTarget(d), SortedKeys.Keys(d.holdings.Keys + DesiredTarget(d).Keys))
  }

  ghost function Gated(d: Day): Gate
    requires d.market.lot >= 1
  {
    Evaluate(SettingOf(d), Desired(d), d.holdings)
  }

  ghost function Accepted(d: Day): seq<Order>
    requires d.market.lot >= 1
  {
    Gated(d).accepted
  }

  /** The weights of the long, priced positions the accepted orders lead to. */
  function AcceptedWeights(d: Day, accepted: seq<Order>): map<string, real> {
    var projected := Projected(d.holdings, accepted);
    if d.equity <= 0.0 then map[]
    else map s | s in projected && projected[s] > 0 && s in d.market.prices && d.market.prices[s] > 0.0
           :: WeightOf(projected[s], d.market.prices[s], d.equity)
  }

  /** Without accepted orders the broker is not called. */
  ghost function BrokerOf(d: Day): BrokerResult
    requires d.market.lot >= 1
  {
    if Accepted(d) == [] then BrokerResult([], [], d.holdings, d.cash, 0.0)
    else Broker(d.market, AcceptedWeights(d, Accepted(d)), d.holdings, d.equity, d.cash, Accepted(d), d.slices)
  }

  // ---- the event log ---------------------------------------------------------------------------

  /** Records, events still without a timestamp, and the fills written to the log. */
  datatype Journal = Journal(records: seq<Record>, drafts: seq<Event>, fills: seq<BrokerFill>)

  const BLANK := Journal([], [], [])

  function Join(a: Journal, b: Journal): Journal
  {
    Journal(a.records + b.records, a.drafts + b.drafts, a.fills + b.fills)
  }

  function Draft(d: Day, o: Order, kind: string, body: Body): Event {
    Event(EventId(o.clientOrderId, kind), d.deployment, 0, o.clientOrderId, body)
  }

  function SubmittedDraft(d: Day, o: Order): Event { Draft(d, o, "order_submitted", OrderSubmitted) }

  function RejectedDraft(d: Day, o: Order): Event { Draft(d, o, "order_rejected", OrderRejected) }

  function FillDraft(d: Day, o: Order, f: BrokerFill): Event {
    var kind := if f.remainingShares > 0 then "order_partially_filled" else "order_filled";
    Event(FillEventId(o.clientOrderId, kind, f.slice, f.slices), d.deployment, 0, o.clientOrderId,
          if f.remainingShares > 0 then OrderPartiallyFilled(f.fill) else OrderFilled(f.fill))
  }

  function FillDrafts(d: Day, o: Order, fills: seq<BrokerFill>): seq<Event> {
    if fills == [] then [] else [FillDraft(d, o, fills[0])] + FillDrafts(d, o, fills[1..])
  }

  function RejectOrder(d: Day, o: Order): Journal {
    Journal([Record(o, Rejected, o.shares)], [RejectedDraft(d, o)], [])
  }

  function RejectAll(d: Day, refused: seq<Refusal>): Journal {
    if refused == [] then BLANK else Join(RejectOrder(d, refused[0].order), RejectAll(d, refused[1..]))
  }

  /** The report of an order; the last one for its id. */
  function ReportFor(reports: seq<Report>, id: string): Option<Report> {
    if reports == [] then None
    else if reports[|reports| - 1].clientOrderId == id then Some(reports[|reports| - 1])
    else ReportFor(reports[..|reports| - 1], id)
  }

  predicate IsSubmissionOnlyReport(r: Report) {
    r.filledShares <= 0 && IsSubmissionOnly(Normalize(r.status, r.filledShares, r.remainingShares))
  }

  /** The broker's acknowledgement of a submission. */
  function AckDrafts(d: Day, o: Order, r: Report): seq<Event> {
    var left := if r.remainingShares != 0 then r.remainingShares else o.shares;
    var id := "submit_ack:" + r.brokerOrderId;
    if r.brokerOrderId == "" then []
    else [Event(d.deployment + ":broker_report:" + id, d.deployment, 0, o.clientOrderId,
            BrokerExecution(ReportPayload(id, "paper", r.brokerOrderId, o.symbol, "", Normalize(r.status, 0, left), 0,
                                          left, r.price)))]
  }

  function FillsWith(fills: seq<BrokerFill>, id: string): seq<BrokerFill> {
    if fills == [] then [] else (if fills[0].clientOrderId == id then [fills[0]] else []) + FillsWith(fills[1..], id)
  }

  function SettleOrder(d: Day, o: Order, report: Option<Report>, own: seq<BrokerFill>): Journal {
    if report.Some? && IsSubmissionOnlyReport(report.value) then
      var left := if report.value.remainingShares != 0 then report.value.remainingShares else o.shares;
      Journal([Record(o, Submitted, left)], [SubmittedDraft(d, o)] + AckDrafts(d, o, report.value), [])
    else if report.None? || report.value.filledShares <= 0 then
      Journal([Record(o, Rejected, o.shares)], [SubmittedDraft(d, o), RejectedDraft(d, o)], [])
    else
      var status := if report.value.status == "partially_filled" then PartFilled else FullyFilled;
      Journal([Record(o, status, report.value.remainingShares)], [SubmittedDraft(d, o)] + FillDrafts(d, o, own), own)
  }

  function SettleAll(d: Day, orders: seq<Order>, reports: seq<Report>, fills: seq<BrokerFill>): Journal {
    if orders == [] then BLANK
    else
      var o := orders[0];
      Join(SettleOrder(d, o, ReportFor(reports, o.clientOrderId), FillsWith(fills, o.clientOrderId)),
           SettleAll(d, orders[1..], reports, fills))
  }

  /** Event number `i` gets the reading of the clock when it is written. */
  function Stamp(drafts: seq<Event>, from: nat, clock: nat -> int): seq<Event> {
    seq(|drafts|, i requires 0 <= i < |drafts| => drafts[i].(ts := clock(from + i)))
  }

  ghost function JournalOf(d: Day): Journal
    requires d.market.lot >= 1
  {
    Join(RejectAll(d, Gated(d).refused), SettleAll(d, Accepted(d), BrokerOf(d).reports, BrokerOf(d).fills))
  }

  ghost function Rebalance(d: Day, clock: nat -> int): Outcome
    requires d.market.lot >= 1
  {
    var j, b := JournalOf(d), BrokerOf(d);
    Outcome(j.records, j.fills, Stamp(j.drafts, 0, clock), Gated(d).refused, b.holdings, b.cash, b.volume)
  }

  // ---- the OMS as the code has it ----------------------------------------------------------------

  method BuildDesiredOrders(d: Day) returns (orders: seq<Order>)
    requires d.market.lot >= 1
    ensures orders == Desired(d)
  {
    var target := DesiredTarget(d);
    var symbols := SortedKeys.SortKeys(d.holdings.Keys + target.Keys);
    orders := OrdersTowards(d, target, symbols);
  }

  method OrdersTowards(d: Day, target: map<string, int>, symbols: seq<string>) returns (orders: seq<Order>)
    ensures orders == DesiredFrom(d, target, symbols)
  {
    orders := [];
    assert symbols[0..] == symbols;
    for i := 0 to |symbols|
      invariant orders + DesiredFrom(d, target, symbols[i..]) == DesiredFrom(d, target, symbols)
    {
      DesiredStep(d, target, symbols, i, orders);
      orders := orders + DesiredOrder(d, target, symbols[i]);
    }
    assert orders + [] == orders;
  }

  lemma DesiredStep(d: Day, target: map<string, int>, symbols: seq<string>, i: nat, orders: seq<Order>)
    requires i < |symbols|
    ensures orders + DesiredFrom(d, target, symbols[i..])
         == orders + DesiredOrder(d, target, symbols[i]) + DesiredFrom(d, target, symbols[i + 1..])
  {
    assert symbols[i..][1..] == symbols[i + 1..];
  }

  method AcceptedTargetWeights(d: Day, accepted: seq<Order>) returns (weights: map<string, real>)
    ensures weights == AcceptedWeights(d, accepted)
  {
    var projected := d.holdings;
    for i := 0 to |accepted|
      invariant projected == Projected(d.holdings, accepted[..i])
    {
      var o := accepted[i];
      assert accepted[..i + 1][..i] == accepted[..i];
      var next := Held(projected, o.symbol) + Delta(o);
      if next > 0 {
        projected := projected[o.symbol := next];
      } else {
        projected := projected - {o.symbol};
      }
    }
    assert accepted[..|accepted|] == accepted;
    if d.equity <= 0.0 { return map[]; }
    weights := map s | s in projected && projected[s] > 0 && s in d.market.prices && d.market.prices[s] > 0.0
                 :: WeightOf(projected[s], d.market.prices[s], d.equity);
  }

  /** The journal of one accepted order. */
  method Settle(d: Day, o: Order, report: Option<Report>, own: seq<BrokerFill>) returns (j: Journal)
    ensures j == SettleOrder(d, o, report, own)
  {
    var drafts := [SubmittedDraft(d, o)];
    if report.None? {
      return Journal([Record(o, Rejected, o.shares)], drafts + [RejectedDraft(d, o)], []);
    }
    var r := report.value;
    if IsSubmissionOnlyReport(r) {
      var left := if r.remainingShares != 0 then r.remainingShares else o.shares;
      return Journal([Record(o, Submitted, left)], drafts + AckDrafts(d, o, r), []);
    }
    if r.filledShares <= 0 {
      return Journal([Record(o, Rejected, o.shares)], drafts + [RejectedDraft(d, o)], []);
    }
    ghost var whole := drafts + FillDrafts(d, o, own);
    assert own[0..] == own;
    for i := 0 to |own|
      invariant drafts + FillDrafts(d, o, own[i..]) == whole
    {
      assert own[i..][1..] == own[i + 1..];
      var next := FillDraft(d, o, own[i]);
      assert drafts + [next] + FillDrafts(d, o, own[i + 1..]) == drafts + ([next] + FillDrafts(d, o, own[i + 1..]));
      drafts := drafts + [next];
    }
    assert drafts + [] == drafts;
    j := Journal([Record(o, if r.status == "partially_filled" then PartFilled else FullyFilled, r.remainingShares)],
                 drafts, own);
  }

  lemma JoinLaws(a: Journal, b: Journal, c: Journal)
    ensures Join(Join(a, b), c) == Join(a, Join(b, c)) && Join(a, BLANK) == a && Join(BLANK, a) == a
  {
  }

  method WriteJournal(d: Day, refused: seq<Refusal>, accepted: seq<Order>, reports: seq<Report>, fills: seq<BrokerFill>)
    returns (j: Journal)
    ensures j == Join(RejectAll(d, refused), SettleAll(d, accepted, reports, fills))
  {
    j := BLANK;
    JoinLaws(RejectAll(d, refused), BLANK, BLANK);
    for i := 0 to |refused|
      invariant Join(j, RejectAll(d, refused[i..])) == RejectAll(d, refused)
    {
      assert refused[i..][1..] == refused[i + 1..];
      JoinLaws(j, RejectOrder(d, refused[i].order), RejectAll(d, refused[i + 1..]));
      j := Join(j, RejectOrder(d, refused[i].order));
    }
    JoinLaws(j, BLANK, BLANK);
    ghost var whole := Join(j, SettleAll(d, accepted, reports, fills));
    assert accepted[0..] == accepted;
    for i := 0 to |accepted|
      invariant Join(j, SettleAll(d, accepted[i..], reports, fills)) == whole
    {
      var o := accepted[i];
      var next := Settle(d, o, ReportFor(reports, o.clientOrderId), FillsWith(fills, o.clientOrderId));
      assert accepted[i..][1..] == accepted[i + 1..];
      JoinLaws(j, next, SettleAll(d, accepted[i + 1..], reports, fills));
      j := Join(j, next);
    }
    JoinLaws(j, BLANK, BLANK);
  }

  method ExecuteRebalance(d: Day, clock: nat -> int) returns (r: Outcome)
    requires d.market.lot >= 1
    ensures r == Rebalance(d, clock)
  {
    var desired := BuildDesiredOrders(d);
    var gate := EvaluateOrders(SettingOf(d), desired, d.holdings);
    var b := BrokerResult([], [], d.holdings, d.cash, 0.0);
    if gate.accepted != [] {
      var weights := AcceptedTargetWeights(d, gate.accepted);
      b := ExecuteTargetWeights(d.market, weights, d.holdings, d.equity, d.cash, gate.accepted, d.slices);
    }
    var j := WriteJournal(d, gate.refused, gate.accepted, b.reports, b.fills);
    r := Outcome(j.records, j.fills, Stamp(j.drafts, 0, clock), gate.refused, b.holdings, b.cash, b.volume);
  }
}
