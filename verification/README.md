# A Dafny model of a quantitative trading platform

A Dafny 4.11 model of the platform's live order management, its backtest engine, its constrained allocator and two
smaller algorithms: methods that follow the code, specifications they refine, and lemmas that say what the code
guarantees and exactly where it does not. `dfyconfig.toml` lists the files.

Prices, cash, weights and share quantities of the backtest are exact reals; the code's tolerances (1e-12, 1e-10, 1e-9,
1e-6, 0.01, 0.001) are kept as they are. Timestamps are integers, broker statuses a datatype with an `Other` case for
words outside the table, SQL rows map entries, and a reading of the clock, the kill switch or the database is a
parameter. A Python dict is a map; an order of iteration that the code leaves open is left open here.

## What is modelled

**Live orders and their event log.** `Oms.ExecuteRebalance` turns target weights into orders, passes them through the
sequential risk gate (`RiskGate`, `CapitalPolicy`), lets the paper broker (`Execution`, `ShareSlices`, `PaperBroker`)
carry out what was accepted, and writes the event log. `Ledger` replays a log into an account. `OrderLinks` is the
store's own projection of the same events, updated as they arrive. `BuyLaws`, `RefusalLaws` and `OmsWeights` say which
orders pass, which are carried out and where a day ends, `LedgerFacts`, `LinkNames` and `StatusWords` what the two
projections show of an order. Code that changes state in place is a class
(`Ledger.LedgerState`, `OrderLinks.EventStore`, `MatcherObjects.MatcherObject`, `FundamentalCache.FundamentalStore`)
or a method over arrays; each method is proved equal to a specification function, and the laws are lemmas about
those functions.

**Backtest.** `Engine.SimulateBars` is the general bar loop over any stack of matchers, `FastEngine.RunFastLoop` the
hand-inlined loop, `FastEngine.Simulate` the choice between them; `FillLaws` tells what the matchers fill, and
`WeightLaws`, `RuleRuns`, `BacktestLaws`, `RoundTrips`, `TradeRecords`, `LotLaws` over `LotArithmetic`, `EquityLaws` and
`FastRuns` hold the laws of whole runs.

**Allocator.** `Simplex` holds the mathematics of the capped-simplex bisection, `Refill` the budget refill, `Allocator`
the projection and the gradient steps. `GradientLaws`, `DescentLaws` and `SettledLaws` say what they minimise,
`RefillShares` and `RefillRest` what they do when they fill up the budget, `StepSizeLaws` what a round gains and
`StepLimits` how far that reaches. `HedgedRisk` are covariances that the code's guard lets pass, `Overshoot` and
`TwoSymbols` runs that go up instead of down, `TargetOptimizer` is the whole of `optimize_target_weights` with its laws
in `TargetLaws`, and `HeldSymbol` a call of it that fails.

**Small algorithms.** Benjamini-Hochberg and Bonferroni (`Fdr`), LRU eviction over three maps (`FundamentalCache`, its
runs in `CacheRuns`).

## Main results

- Replaying the log of a paper rebalance gives back its cash, its holdings, the status of every order and no status of
  any other *if and only if* every trade of the broker was ordered (`RebalanceReplay.LogReplaysExactly`), for any
  holdings, any number of slices and any clock. Of long positions that means no stray sale
  (`RebalanceReplay.LongLogReplaysExactly`), and whole lots with prices are enough (`RebalanceReplay.WholeLotsReplay`).
- Replay depends only on which events happened, not on their order or repetition
  (`LedgerReplay.ReplayDependsOnlyOnTheEvents`).
- The ledger and the link table agree on how far an order has come, whatever order the events reach the store in and
  also when the broker's id of the order becomes known late (`Projections.ProjectionsAgree`). Their final statuses agree
  *if and only if* the first final report in replay order says what the latest by timestamp says
  (`FinalStatuses.FinalStatusesAgreeExactly`).
- Over any interleaving of reports, acknowledgements, cancel requests and cancel failures a link row never goes back
  (`LinkRuns.RunsGoForward`), and reports may arrive in any order (`LinkRuns.DeliveryOrderDoesNotMatter`).
- Over any run a link row knows the last broker id, symbol and account that were told of its order
  (`LinkNames.RowKnowsLastTold`), and the ledger's row of it the last report or request it could take
  (`LedgerFacts.RowShowsLastTaken`).
- The risk gate keeps every budget and cap over the whole order list (`RiskLaws.GateKeepsLimits`), and refuses an order
  *if and only if* it breaks a rule, told over the holdings it would lead to (`RefusalLaws.RefusedExactly`).
- The broker buys a symbol *if and only if* it has to grow, may be bought, and the cash at its turn pays for the whole
  gap or affords a lot (`BuyLaws.BuyHappensExactly`), and then as much as the cash affords (`BuyLaws.BuysAreMade`). A
  rebalance that is accepted and paid for ends at the greatest whole lots that the requested weights pay for
  (`OmsWeights.RebalanceReachesWeights`).
- The fast loop refines the general one for every weight sequence (`FastLoop.FastLoopRefines`); for all-or-nothing
  signals the trade lists agree *if and only if* the record arrays did not overflow and no dust position is left open
  at a price (`FastLoop.AcceleratedTradesAgree`), and up to 200001 bars they cannot overflow (`FastRuns.ShortRunsAgree`).
- A stack of matchers fills exactly what its limits, lots, rates and taxes leave of an order
  (`FillLaws.BuyFillsExactly`, `FillLaws.SaleFillsExactly`). Every bar of every run trades towards its weight and not
  past it (`WeightLaws.RunsTradeTowards`), and without costs it ends there (`WeightLaws.RunsReachWeights`).
- The backtest's books balance after every bar, for any weights and any matcher stack
  (`BacktestLaws.ProfitAndLossBalance`), every round trip a run records is a difference of its cash
  (`RoundTrips.RoundTripsAreCash`), and it tells the fills of its cycle (`TradeRecords.TradesTellTheirFills`).
- Nested lot sizes, however many, keep every run in whole outer lots *if and only if* rounding to them one after another
  takes whole outer lots to whole outer lots (`LotLaws.RunsKeepLotsExactly`), which is settled by a finite check
  (`LotArithmetic.FiniteCheck`) and for one inner lot size means that one divides the other
  (`LotArithmetic.OneLotExactly`).
- The bisection computes the Euclidean projection (`Allocator.ProjectionIsNearest`), and every allocation is feasible
  whatever the covariance (`TargetOptimizer.TargetsKeepTheLimits`). Weights at which the descent comes to rest, refill
  included, are the only minimum of the risk-adjusted distance to the target among the weights in the caps with no
  larger sum *if and only if* the clipped gradient step already uses the budget or has no room left, for every
  symmetric positive semidefinite covariance (`DescentLaws.SettledIsOptimalExactly`). Where the refill put them, they
  are the only minimum among the weights that have no less of the target-weighted sum and raise no full symbol *if and
  only if* the gradient step pulls evenly at them, which it does unless it wants a weight below 0
  (`RefillRest.RefilledRestIsLeastExactly`). A descent that stops because no weight moves by more than 1e-9 is, in
  either sense, within a billionth times (n + 4) times the risk of the most variable symbol times the sums of the
  minimum (`RefillShares.DescentIsNearlyOptimal`).
- Each round of the descent that refills nothing lowers that distance by an amount stated for any number of symbols, up
  to what the bisection leaves of the budget (`StepSizeLaws.IdleRoundGains`). No such round ends higher *if and only if*
  (n - 8) times the risk aversion times the greatest variance is at most 1 (`StepLimits.StepSuitsExactly`). Past that,
  and with rounds that refill, the whole descent can end above its start, for covariances far from degenerate
  (`Overshoot.TenSymbolsOvershoot`, `TwoSymbols.TwoSymbolsRise`).
- The equity curve is the compounded returns, and its distance from the capital is realised plus unrealised profit
  (`EquityLaws.ReturnsCompound`, `EquityLaws.EquityDecomposes`).
- The step-up loop of Benjamini-Hochberg rejects exactly the hypotheses below its line (`FdrLaws.RejectsExactly`).
- Eviction keeps protected symbols, evicts the least recently used first and no more than needed
  (`CacheLaws.EvictionLaws`), and over any run of requests the times it goes by are those of the last requests
  (`CacheRuns.RunTimes`).

## What the proofs found

- **Trades nobody ordered.** Accepted orders are turned back into weights and rounded to lots again
  (ez/live/oms.py:499-522, ez/portfolio/execution.py:96). A held odd lot, or a position without a positive price, that no
  accepted order is about is then sold without an order, and the sale never reaches the log.
  `OmsTargets.StraySaleIsOddLot` says exactly when; `OddLot.OddLotIsSoldUnasked` is a concrete rebalance whose log does
  not replay. Without equity the broker closes everything, also beyond what an order asked
  (`OrderOutcomes.TradeWithinOrder`).
- **Final statuses.** Of two different final reports the ledger keeps the first in replay order, a partial cancel
  completed by a cancel (ez/live/events.py:183-188, `FinalStatuses.LedgerKeepsFirstFinal`), and the link row the one with
  the greatest timestamp, the last to arrive among ties (ez/live/_broker_order_links.py:747-755,
  `FinalStatuses.RowKeepsLatestFinal`). The comment at ez/live/events.py:75-76 describes only the ledger's rule.
  `FinalStatuses.FinalStatusesMayDiffer` is a pair of reports on which they part.
- **Names of an order.** The ledger files the reports before and after the broker's id is known under two keys, the store
  under one row; and the ledger takes in reports without an id, which the store refuses
  (`Projections.LedgerShowsFurthest`, `Projections.RowShowsFurthest`).
- **Refused cancels.** A cancel request and the broker's refusal leave the same row status in either order of arrival
  exactly for orders the broker has already reported; when the refusal names only the broker's id and the store learns
  that id from the request, exactly for those of them without a pending cancel. A refusal whose order the store cannot
  tell even then, because orders share the id or it names another account, settles nothing, but stored first it still
  keeps the request from marking the order (ez/live/_broker_order_links.py:382-388): there the two ways agree exactly
  for finished orders and for cancels that stay pending (`LinkRuns.RefusedCancelEitherOrder`, with
  `LinkRuns.UnreportedOrderDiffers`, `LinkRuns.LateNamedOrderDiffers` and `LinkRuns.SharedIdDiffers` as the three ways
  to differ).
- **Fast loop.** The two loops treat a position of at most 1e-10 shares at the end differently
  (ez/backtest/engine.py:290 and ez/backtest/engine.py:510, `FastRuns.DustIsNotClosed`), and the fast loop drops trades
  after the 100000th (ez/core/_jit_fill.py:159, `FastRuns.LongRunsLoseTrades`).
- **Nested lots.** Market rules around market rules whose lot size neither divides the outer one nor is divided by it
  break whole lots, in a sale (`LotLaws.SalesKeepLotsExactly`) and in a run (`LotLaws.RunsKeepLotsExactly`). Deeper
  stacks can keep lots although no inner lot size is a multiple of the outer one: 3, 2 and 3 below 2
  (`LotArithmetic.GrainIsNotNeeded`).
- **Refill against risk.** The descent fills every projection up to the budget
  (ez/live/optimizer_allocator.py:461-466), also when the gradient step went below it on purpose.
  `DescentLaws.FullyInvestedStaysPut` is one fully invested symbol that stays at weight 1 although half of it has a
  lower risk-adjusted distance to the target. The refill hands out in proportion to the target, so a round that refills
  can also raise that distance at the same sum; one that does not raise the target-weighted sum gains as the others do
  (`RefillShares.RefilledRoundGains`). Two symbols of equal variance, correlated by one half, at 0.8 and 0.2 of a full
  budget, come out of the descent at 0.86 or more in the first, whatever the number of rounds: from an objective of
  0.42 to at least 0.4434, where 0.65 and 0.35 have 0.40875 (`TwoSymbols.TwoSymbolsRise`).
- **Step size.** The step 1 / (1 + 4 * aversion * greatest variance) (ez/live/optimizer_allocator.py:452-453) takes no
  account of how many symbols move together. As long as no round refills anything it is safe for up to eight symbols,
  and for n symbols exactly while (n - 8) times aversion times greatest variance is at most 1
  (`StepSizeLaws.SafeForFew`, `StepLimits.StepSuitsExactly`); among the covariances that the guard against degenerate
  ones lets pass (ez/live/optimizer_allocator.py:325-377) some fail once n - 8 less 2e-6 n (n - 1) makes that product
  exceed 1 (`StepLimits.GuardedRoundEndsHigher`). Ten symbols with correlations of 0.99, half of them the other way,
  which the guard lets pass (`HedgedRisk.HedgedPasses`), swing between their caps until the 120 rounds are over: from
  an objective of 0.904 to one of 1.1165, where equal weights have 0.042 (`Overshoot.TenSymbolsOvershoot`).
- **Risk shaping.** The covariance has a row for every requested or held symbol, the weights only for symbols with a
  target weight (ez/live/optimizer_allocator.py:446-455). When the two differ and the risk aversion is positive, the
  matrix product cannot be formed and the call fails (`ShapeError`); `TargetOptimizer.FailsExactly` says exactly when,
  and `TargetOptimizer.HeldSymbolsFail` that one held symbol that is no longer requested is enough;
  `HeldSymbol.SwitchingFails` is a switch from one symbol to another.
- **Execution.** The one-cent tolerance after cutting a dear buy (ez/portfolio/execution.py:164) is never used
  when the commission rate is not negative: `Execution.BuyFits`. The formula before it charges the minimum commission on
  top of the rate (ez/portfolio/execution.py:150-157), so that a lot which the cash does pay for can be left:
  `BuyLaws.AffordableLotIsLeft`.
- **Cancel requests in the ledger.** A cancel request carries no share counts (ez/live/events.py:498-503), and the
  ledger takes what it carries (ez/live/ledger.py:238-245): a partly filled order then shows no filled shares and no
  price until the next report (`LedgerFacts.CancelRequestForgetsFills`).
- **Next-day rule.** The engine trades at most once a bar, so the rule against selling on the bar of the purchase
  (ez/core/market_rules.py:113-115) never stops it: `RuleRuns.NextDayRuleNeverBinds`. It tells the bar only to the
  outermost wrapper (ez/backtest/engine.py:363-375), so that such rules inside another wrapper never let it sell:
  `RuleRuns.InnerRulesNeverSell`. The paper broker's rule against buying what was sold on the day
  (ez/portfolio/execution.py:119-121) changes nothing either, as each symbol is on one side only and no caller hands in
  earlier sales: `BuyLaws.SoldTodayNeverBinds`.

## Model

| member | source | states |
|---|---|---|
| `BrokerStatus.StoredStatusReadsBack` | ez/live/events.py:119-158 | a normalised status stored as text and read back without share counts is the same status, for every reported word and every counts |
| `StatusWords.SpellingsMeanTheirWords` | ez/live/events.py:47-131 | every known spelling and every word of the table means its status whatever the share counts |
| `StatusWords.StrangeWordMeans` | ez/live/events.py:132-152 | a word outside the table is told by its parts, and by the share counts exactly where the parts leave it open |
| `StatusWords.WholeWordMeans` | ez/live/events.py:144-158 | a strange word without such parts is taken for what a short list says, or for itself |
| `StatusWords.RanksTellPhases` | ez/live/events.py:67-117 | ranks and statuses agree on what is finished, only submitted or cancel-pending, and the order status a report leads to rises with the rank and is complete exactly for finished orders |
| `Events.KeyLessIsWeakOrder` | ez/live/ledger.py:109-126 | the replay key (timestamp, priority, id) is a strict weak order on events |
| `Events.DistinctIdsCompare` | ez/live/ledger.py:126 | two events with different ids never tie in the replay order |
| `Orders.ClientOrderIdIdentifies` | ez/live/events.py:292-298 | within a deployment and a date a client order id belongs to one symbol and side, even when symbols contain colons |
| `Orders.EventIdIdentifies` | ez/live/oms.py:399-403 | an event id tells the order, the kind of event and the slice number |
| `Ledger.LedgerState.AdvanceLocalOrderStatus` | ez/live/ledger.py:362-373 | the status map afterwards: forward only, blank keys ignored |
| `Ledger.LedgerState.AdvanceBrokerOrderState` | ez/live/ledger.py:382-450 | the projection afterwards: advance rule, timestamp tie-break, clamped fills of submission-only reports |
| `Ledger.LedgerState.ApplyFillEvent` | ez/live/ledger.py:148-189 | cash, holdings, prices, status and trades after a fill |
| `Ledger.LedgerState.ApplyCancelRequest` | ez/live/ledger.py:222-249 | the broker projection after a cancel request, unchanged for a finished order |
| `Ledger.LedgerState.ApplySnapshotCheckpoint` | ez/live/ledger.py:284-334 | the whole account after a checkpoint with any keys absent |
| `Ledger.LedgerState.ApplyEvent` | ez/live/ledger.py:128-282 | the whole account after any event |
| `Ledger.ReplayNext` | ez/live/ledger.py:99-105 | one turn of the replay loop leaves the outcome of the rest of the log unchanged; a seen id is passed over |
| `Ledger.ReplayLog` | ez/live/ledger.py:79-107 | the loop over sorted events with a set of seen ids computes the replay function |
| `LedgerReplay.NormalLog` | ez/live/ledger.py:98-105 | sorting and the duplicate filter give a strictly sorted list of exactly the events of the log |
| `LedgerFacts.ReplayGoesByPhase` | ez/live/ledger.py:109-126 | a replay goes by time, and within one moment by kind: market data, submissions, partial and full fills, rejections, the broker's reports before cancel requests, then risk, checkpoint and tick |
| `LedgerReplay.ReplayDependsOnlyOnTheEvents` | ez/live/ledger.py:79-126 | when ids identify events, two lists of the same events in any order with any repetition replay to the same state and the same count |
| `LedgerReplay.StatusesOnlyGoForward` | ez/live/ledger.py:336-450 | over any log no broker rank and no local rank falls, and finished statuses stay, apart from partially canceled to canceled |
| `LedgerFacts.StatusesAreNamed` | ez/live/ledger.py:362-380 | an event touches the local status of the order it names, by the client's id or else the broker's, and no other; a nameless one touches none |
| `LedgerInvariants.ReplayIsCoherent` | ez/live/ledger.py:382-450 | after any replay a submission-only broker order shows no fills, orders are stored under their own id, prices are positive and the equity curve ends at the latest equity |
| `LedgerInvariants.OnlyFillsAndCheckpointsMoveMoney` | ez/live/ledger.py:191-282 | a log without fills and checkpoints leaves cash, holdings and trades as they were |
| `LedgerInvariants.CheckpointDecides` | ez/live/ledger.py:284-309 | a checkpoint with cash and holdings makes the run independent of everything before it |
| `LedgerInvariants.TradesAreTheFills` | ez/live/ledger.py:148-189 | the trades are the fills of the log in the order they were applied |
| `LedgerFacts.CashIsOfFills` | ez/live/ledger.py:148-165 | over any log the cash is the opening one, or that of the last checkpoint with cash, less amount and charges of each buy, plus amount less charges of each sale |
| `LedgerFacts.HistoryIsOfCheckpoints` | ez/live/ledger.py:284-324 | over any log: the equity curve is the equities of all checkpoints in order, dates, equity, weights and returns are the last given, the date list repeats the latest date at every checkpoint; the risk events are those recorded, in order |
| `LedgerFacts.PriceIsLastQuote` | ez/live/ledger.py:167-334 | over any log the price of a symbol is the last that a fill, a snapshot or a bar quoted with a positive price, or the one at which a checkpoint's long position is its weight of the equity; no other event touches it |
| `LedgerFacts.RowShowsLastTaken` | ez/live/ledger.py:222-450 | over any log a broker order shows status, report, counts and average price of the last report or cancel request that was further or as far and not older, and the mark of the last cancel request that found it unfinished |
| `LedgerFacts.CancelRequestForgetsFills` | ez/live/ledger.py:222-247 | after a cancel request a partly filled order shows no filled and no remaining shares and no price, whatever it showed before |
| `LedgerFacts.CountIsOfAppliedEvents` | ez/live/ledger.py:98-107 | the reported count is the number of applied events that have an id |
| `OrderLinks.EventStore.UpsertReports` | ez/live/_broker_order_links.py:695-792 | the rows after a list of reports and the number of rows whose report changed |
| `OrderLinks.EventStore.HasLaterCancelFailed` | ez/live/_broker_order_links.py:320-389 | the newest-first scan that stops early finds a failure exactly when one no older than the request is stored |
| `OrderLinks.EventStore.UpsertExecution` | ez/live/_broker_order_links.py:230-262 | the effect of a stored report on its row, none for incomplete reports |
| `OrderLinks.EventStore.UpsertSubmitAck` | ez/live/_broker_order_links.py:264-318 | the effect of a submission acknowledgement on its row |
| `OrderLinks.EventStore.UpsertCancelRequested` | ez/live/_broker_order_links.py:391-478 | the effect of a cancel request, none when a later refusal is already stored |
| `OrderLinks.EventStore.FindOrder` | ez/live/_broker_order_links.py:506-533 | the order a callback is about, by client id or by the only row with that broker order id |
| `OrderLinks.EventStore.UpsertCancelAck` | ez/live/_broker_order_links.py:480-622 | the effect of an accepted cancel on its row, also when the row is new |
| `OrderLinks.EventStore.UpsertCancelFailed` | ez/live/_broker_order_links.py:624-693 | the effect of a refused cancel on its row |
| `OrderLinks.EventStore.AppendEvents` | ez/live/deployment_store.py:1040-1073 | table and rows after a batch: known ids are not inserted again but still dispatched; the count of inserted events |
| `LinkNames.TableKeepsFirsts` | ez/live/deployment_store.py:1040-1073 | whatever is delivered and however often, the table keeps what it had and holds each new id once, by the first event with it |
| `LinkNames.RowIsCorrected` | ez/live/_broker_order_links.py:264-792 | broker id, symbol and account of a row after any event: what the event tells where it tells something, else what the row knew, for late reports too |
| `LinkNames.RowKnowsLastTold` | ez/live/_broker_order_links.py:264-792 | over any run of events a row carries the last broker id, the last symbol and the last account that were told of its order |
| `LinkNames.ReportIsShown` | ez/live/_broker_order_links.py:706-792 | what a stored report makes of status, report id and time of its row: the report's when it is further or as far and not older, the row's own when it is late; a pending cancel survives a partial fill and a repeated acknowledgement |
| `LinkNames.AcknowledgedIsReported` | ez/live/_broker_order_links.py:264-318 | an acknowledgement makes an order of a lower rank reported, also one not known before, and leaves any other status |
| `LinkNames.CancelIsMarked` | ez/live/_broker_order_links.py:391-622 | an unanswered cancel request and an accepted cancel make every unfinished order cancel-pending, partly filled exactly if it was |
| `LinkNames.NamedRefusalSettles` | ez/live/_broker_order_links.py:624-693 | a refusal with the client's id takes a pending cancel of that order back and leaves any other status; an unknown order stays unknown |
| `LinkNames.UpdatesAreCounted` | ez/live/_broker_order_links.py:695-792 | the number of updates grows by one with each report that creates a row or changes the report a row shows, and with no other |
| `LinkNames.ToldIdIsFound` | ez/live/_broker_order_links.py:506-693 | once a broker id was last told of an order and no other row of the broker and account carries it, a refusal by that id alone settles the pending cancel |
| `LinkRuns.RunsGoForward` | ez/live/deployment_store.py:1040-1073 | for every order and any interleaving of events, the rank with cancel-pending erased never falls and finished rows stay finished |
| `LinkRuns.TerminalRowTakes` | ez/live/_broker_order_links.py:742-763 | a finished row changes status exactly for a final report that is no older |
| `LinkRuns.FinishedRowsChangeOnlyByFinalReports` | ez/live/_broker_order_links.py:391-792 | over any events without a final report of the order, a finished row keeps its status |
| `LinkRuns.RowShowsGreatest` | ez/live/_broker_order_links.py:706-792 | after reports without cancel-pending statuses the row shows the greatest (rank, timestamp), the last to arrive among ties |
| `LinkRuns.DeliveryOrderDoesNotMatter` | ez/live/_broker_order_links.py:706-792 | any two deliveries of the same reports, repeats included, end at the same report when none tie |
| `LinkRuns.StoreDelivers` | ez/live/_broker_order_links.py:230-262 | storing report events one by one takes the reports one after another at their row |
| `LinkRuns.RequestThenRefusal` | ez/live/_broker_order_links.py:624-693 | a refusal after the request takes the pending cancel back exactly if the store can then tell whose it is, by either id |
| `LinkRuns.RefusalThenRequest` | ez/live/_broker_order_links.py:391-478 | a refusal stored first settles the row if the store can already tell whose it is, and the request that arrives after it changes no status |
| `LinkRuns.RefusedCancelEitherOrder` | ez/live/_broker_order_links.py:320-533 | for every refusal that answers the request, both orders of arrival leave the same status if and only if: the order was reported before and the store knew whose the refusal is without the request or no cancel was pending; or, when it cannot tell even after the request, the order is finished or had a pending cancel that the refusal alone would not settle |
| `LinkRuns.NamedRefusalEitherOrder` | ez/live/_broker_order_links.py:506-533 | a refusal with the client's id is found in any store, so only the report before matters |
| `LinkRuns.UnreportedOrderDiffers` | ez/live/_broker_order_links.py:391-478 | an unreported order: request and refusal leave it reported, refusal and request leave no row |
| `LinkRuns.LateNamedOrderDiffers` | ez/live/_broker_order_links.py:624-693 | a pending cancel whose broker id only the request names: the refusal by that id is lost when it comes first |
| `LinkRuns.SharedIdDiffers` | ez/live/_broker_order_links.py:320-389 | two reported orders with one broker id: a refusal by that id leaves the cancel pending when the request came first, and unmarked when it did not |
| `Projections.LedgerShowsFurthest` | ez/live/ledger.py:191-255 | for any log and any key, the ledger's order is in the largest band among the reports and cancel requests filed under the key |
| `Projections.RowShowsFurthest` | ez/live/_broker_order_links.py:391-792 | for any order and any delivery without callbacks, the row is in the largest band among the events that touch it |
| `Projections.ProjectionsAgree` | ez/live/ledger.py:191-255 | for an order the ledger files under one name or two, the row is in the larger of the ledger's bands, in whatever order the events arrive; never in a larger one when the ledger took in reports the store refuses |
| `FinalStatuses.LedgerKeepsFirstFinal` | ez/live/events.py:171-188 | for any log: without a final report the ledger's order is not finished, otherwise it ends at the first in replay order, a partial cancel completed by a cancel |
| `FinalStatuses.RowKeepsLatestFinal` | ez/live/_broker_order_links.py:695-792 | for any delivery, callbacks and cancels included: without a final report the row is not finished, otherwise it ends at the one with the greatest timestamp, the last to arrive among ties |
| `FinalStatuses.FinalStatusesAgreeExactly` | ez/live/events.py:171-188 | for any log, any delivery and any key of the ledger, the two final statuses are equal if and only if the first final report under that key, completed, says what the latest one of the row says |
| `FinalStatuses.OneFinalStatusAgrees` | ez/live/ledger.py:191-221 | for an order that the ledger files under up to two keys: the row is finished if and only if the ledger is under one of them, and every finished key shows the row's status when all final reports say the same |
| `FinalStatuses.FinalStatusesMayDiffer` | ez/live/events.py:183-188 | a fill and a later cancel leave the ledger filled and the row canceled |
| `Flows.LogMoves` | ez/live/ledger.py:156-165 | replaying a log of orders moves cash by the log's total and nets each position that is only bought or only sold |
| `Flows.FurthestStatusWins` | ez/live/ledger.py:340-373 | whatever the order of the log, an order ends at the furthest status asked for |
| `Flows.UnaskedStatusStays` | ez/live/ledger.py:340-373 | a log that asks nothing for an order leaves its status alone |
| `Execution.ExecutePortfolioTrades` | ez/portfolio/execution.py:89-189 | the sell-then-buy loop computes the specification's desk |
| `Execution.ExecutionBalances` | ez/portfolio/execution.py:106-189 | cash and every position afterwards are what the recorded trades moved, and no symbol trades twice |
| `Execution.ExecutionTrades` | ez/portfolio/execution.py:101-145 | a sale happens if and only if the position has to shrink and the rules allow it; a buy only when it has to grow and the rules allow it |
| `Execution.BuyFits` | ez/portfolio/execution.py:146-167 | a buy takes between one share and the request, costs no more than the cash, and is whole lots when cut |
| `BuyLaws.BuyIsAllItCan` | ez/portfolio/execution.py:146-167 | a buy is made in full at the slipped price when the cash covers value and commission; otherwise it is the greatest number of whole lots that the formula affords, and it fails exactly when that is not even one lot |
| `BuyLaws.BuysAreMade` | ez/portfolio/execution.py:101-189 | in a whole day every symbol that has to grow and may be bought gets exactly that with the cash at its turn, and no other trade |
| `BuyLaws.BuyHappensExactly` | ez/portfolio/execution.py:101-167 | a symbol is bought if and only if it has to grow, may be bought, and the cash at its turn pays for the whole gap or affords a lot |
| `BuyLaws.AffordableLotIsLeft` | ez/portfolio/execution.py:148-167 | a lot that costs 1005 with its commission is not bought with 1005.5 when two were asked for |
| `BuyLaws.SalesAreMade` | ez/portfolio/execution.py:101-189 | a symbol that has to shrink and may be sold is sold down to its target in one trade, with the selling rate and the stamp tax on its value, whatever the cash |
| `BuyLaws.TargetsAreReached` | ez/portfolio/execution.py:89-189 | when the cash after the sales pays for all buys that may be made, every symbol that may be traded ends at its target |
| `BuyLaws.TargetIsGreatest` | ez/portfolio/execution.py:89-99 | the target of a priced symbol is the greatest number of whole lots worth no more than its weight of the equity |
| `BuyLaws.LimitsBlock` | ez/portfolio/execution.py:109-132 | a close a limit above the previous one blocks buys, one a limit below blocks sales, and one of the two is always allowed |
| `BuyLaws.NoLimitBlocksNothing` | ez/portfolio/execution.py:109-132 | without a limit or without both closes every priced symbol with a bar, and no other, can be traded either way |
| `BuyLaws.SoldTodayNeverBinds` | ez/portfolio/execution.py:101-189 | in a call that starts with no sales the rule against buying what was sold changes no outcome, for a symbol is sold or bought and never both; the call notes exactly the symbols it sold |
| `Execution.ExecutionFits` | ez/portfolio/execution.py:101-189 | no trade exceeds what its position has to move, a sale moves all of it, and the buys never overdraw what the sales left |
| `Execution.VolumeIsTraded` | ez/portfolio/execution.py:177-189 | the reported volume is the amount of all recorded trades |
| `ShareSlices.SplitShares` | ez/live/paper_broker.py:199-214 | the slicing loop computes the specified chunks |
| `ShareSlices.SlicesFacts` | ez/live/paper_broker.py:199-214 | chunks add up, their number is max(min(slices, total // lot), 1), they are positive and rising, differ by less than two lots, and all but the last are whole lots |
| `PaperBroker.SplitOneTrade` | ez/live/paper_broker.py:147-195 | the child fills of a trade, the last taking the money left over |
| `PaperBroker.SplitBrokerFills` | ez/live/paper_broker.py:137-196 | the child fills of all trades in order |
| `PaperBroker.BuildOrderReports` | ez/live/paper_broker.py:84-134 | a report per requested order from its child fills |
| `PaperBroker.ExecuteTargetWeights` | ez/live/paper_broker.py:27-81 | what the broker returns for weights and requested orders |
| `PaperBroker.SplitKeepsTheTrades` | ez/live/paper_broker.py:137-196 | the child fills move exactly the cash and shares of the trades, for any number of slices |
| `PaperBroker.SplitKeepsTheMoney` | ez/live/paper_broker.py:151-173 | amount, commission, stamp tax and cost of a trade are each handed out in full to its child fills |
| `PaperBroker.SplitIsInProportion` | ez/live/paper_broker.py:147-195 | every child fill, the last one with the remainder too, has the part of amount, commission, stamp tax and cost that its shares are of the trade's |
| `PaperBroker.SplitFeesAddUp` | ez/live/paper_broker.py:151-195 | every child fill is at the trade's price and costs its own commission and stamp tax |
| `CapitalPolicy.RealOrdersNeedARealStage` | ez/live/capital_policy.py:297-347 | an order let through was not in the read-only stage, and to a real broker neither under the kill switch nor in the paper stage |
| `RiskGate.TotalExposureOf` | ez/live/risk.py:210-215 | the loop over holdings computes the exposure sum, in whatever order it walks |
| `RiskGate.PortfolioMetrics` | ez/live/risk.py:359-392 | gross exposure, largest weight and the positive weights |
| `RiskGate.JudgeOrder` | ez/live/risk.py:186-341 | the first rule an order breaks, capital policy first |
| `RiskGate.EvaluateOrders` | ez/live/risk.py:94-184 | the sequential gate computes the specified state |
| `RiskLaws.GateKeepsLimits` | ez/live/risk.py:94-341 | turnover and stage budgets hold for the accepted total; no position or exposure ends above where it started except within its cap; weights are unchanged or within the concentration cap, each up to 1e-9 |
| `RiskLaws.GateSortsOut` | ez/live/risk.py:103-184 | every order is accepted or refused once; the running notional and holdings are those of the accepted orders |
| `RiskLaws.AcceptedAreCleared` | ez/live/capital_policy.py:297-356 | every accepted order passed the kill switch, the order cap, the stage and its whitelist |
| `RefusalLaws.RefusedExactly` | ez/live/risk.py:186-341 | an order is refused if and only if it breaks a rule, told over the holdings after it, and then by the first one in the order of the code: switch, stage, whitelist and stage caps, then order cap, day turnover, position weight of buys, gross exposure of buys, concentration |
| `RefusalLaws.SaleIsRefusedOnlyBy` | ez/live/risk.py:186-341 | a sale is refused only by a kill switch, the stage, its whitelist, its day budget, the order cap, the turnover, or because some weight after it exceeds the concentration cap |
| `RefusalLaws.EachIsJudged` | ez/live/risk.py:94-184 | over a whole order list each order is judged so on the state that the orders accepted before it left, and accepted or refused accordingly |
| `RiskLaws.BoughtWithinStageCaps` | ez/live/capital_policy.py:387-459 | an admitted buy leaves position value and total exposure within the stage's caps |
| `RiskLaws.BoughtWithinWeights` | ez/live/risk.py:288-339 | an admitted buy leaves its weight and the gross exposure within their caps |
| `Oms.BuildDesiredOrders` | ez/live/oms.py:456-497 | the orders that move every position to its target, in symbol order |
| `Oms.AcceptedTargetWeights` | ez/live/oms.py:499-522 | the weights of the positions the accepted orders lead to |
| `Oms.Settle` | ez/live/oms.py:217-413 | record, events and fills of one accepted order in every branch: no report, submission only, nothing filled, filled |
| `Oms.WriteJournal` | ez/live/oms.py:185-413 | the journal of all refused and accepted orders |
| `Oms.ExecuteRebalance` | ez/live/oms.py:123-436 | the whole outcome of a rebalance |
| `OmsOrders.GatedOrdersAreSound` | ez/live/oms.py:123-142 | refused and accepted orders are the desired ones: at most one a symbol, each moving its position to the target |
| `OmsOrders.IdsDiffer` | ez/live/oms.py:483-485 | different orders of a day have different ids |
| `OmsTargets.TargetAt` | ez/live/oms.py:499-522 | the broker is asked to hold each long priced position rounded down to lots, and nothing else |
| `OmsWeights.OrdersAskForWeights` | ez/live/oms.py:456-497 | the orders take every symbol from its position to the greatest whole lots worth no more than its weight of the equity: one order if they differ, none if not |
| `OmsWeights.RebalanceReachesWeights` | ez/live/oms.py:123-436 | a day whose orders are all accepted and paid for ends with every symbol that may be traded at the position its weight asks for |
| `OmsTargets.BuysAreOrdered` | ez/live/oms.py:144-167 | a position that is not short is only enlarged on order |
| `OmsTargets.StraySaleIsOddLot` | ez/live/oms.py:499-522 | a sale nobody ordered happens if and only if the symbol may be sold, is held long and, with positive equity, no accepted order is about it and it is an odd lot or has no positive price; without equity, no accepted order sells it |
| `OmsFills.SplitTradeFacts` | ez/live/paper_broker.py:147-195 | a trade's child fills are numbered, positive, add up, and only the last one can report nothing remaining |
| `OmsFills.FillsOfOrder` | ez/live/oms.py:172-174 | the fills grouped under an order are the slices of the trade in its symbol and direction, or none |
| `OmsFills.OrdersShareTheFills` | ez/live/oms.py:172-174 | when every fill belongs to an order, the groups together move what all fills move |
| `OmsJournal.RejectedReadsAsError` | ez/live/events.py:144-145 | the broker's word for a rejected order is not in the status table and reads as an order error, so it is no submission-only report |
| `OmsJournal.FilledIsTruthful` | ez/live/oms.py:364-413 | a filled order's events have distinct ids and lead its status where the OMS reports it |
| `OmsJournal.JoinIsTruthful` | ez/live/oms.py:189-413 | journals of different orders can be joined: ids stay distinct and no order's status is disturbed |
| `OmsReplay.JournalIsTold` | ez/live/oms.py:185-413 | when every trade was ordered the journal is that of each order's own fills, and its events lead every order to its reported status |
| `OmsReplay.JournalMoves` | ez/live/oms.py:370-413 | when every trade was ordered the fill events move exactly what the broker's trades moved |
| `OmsReplay.JournalIsBacked` | ez/live/oms.py:370-413 | every fill event is a child fill of the broker, in any case |
| `OmsReplay.OrderedUnlessStray` | ez/live/oms.py:144-177 | of long positions, every trade was ordered if and only if there is no stray sale |
| `OmsReplay.UnorderedBuyClosesShort` | ez/live/oms.py:144-177 | a buy nobody ordered closes a short position |
| `RebalanceReplay.CashAndHoldingsReplay` | ez/live/oms.py:438-454 | when every trade was ordered replay gives back cash and holdings |
| `RebalanceReplay.StatusReplays` | ez/live/oms.py:438-454 | when every trade was ordered replay gives back the status of every order |
| `RebalanceReplay.UnorderedTradeIsNotReplayed` | ez/live/oms.py:151-177 | a trade nobody ordered, bought or sold, is missing from the replayed holdings |
| `RebalanceReplay.StraySaleIsNotReplayed` | ez/live/oms.py:151-177 | a stray sale is missing from the replayed holdings |
| `RebalanceReplay.LogReplaysExactly` | ez/live/oms.py:87-454 | for every day, replay of a rebalance's log from the starting cash and holdings gives back cash, holdings, all statuses and no others if and only if every trade of the broker was ordered |
| `RebalanceReplay.OnlyReportedReplay` | ez/live/oms.py:229-454 | when every trade was ordered, replay gives a status to no order that the rebalance does not report |
| `RebalanceReplay.LongLogReplaysExactly` | ez/live/oms.py:87-454 | of long positions, if and only if there is no stray sale |
| `RebalanceReplay.WholeLotsReplay` | ez/live/oms.py:87-454 | with positive equity, long positions in whole lots with positive prices always replay |
| `OrderOutcomes.AcceptedOrderStatus` | ez/live/oms.py:243-369 | an accepted order is rejected without a trade, else partially or completely filled according to the trade's shares |
| `OrderOutcomes.TradeWithinOrder` | ez/live/oms.py:144-177 | the broker sells no more than an order asked if and only if there is equity or nothing was to be kept; it buys no more, unless a short position was to be left |
| `OrderOutcomes.ReportTellsTheTrade` | ez/live/paper_broker.py:95-133 | the broker's report of an order tells the serving trade's shares, what remains and its average price, for any number of slices |
| `OrderOutcomes.ReportWordTells` | ez/live/paper_broker.py:84-134 | a report counts the fills of its order, by client id or symbol and side, with their average price, and says rejected exactly without any, partially filled exactly for fewer shares than ordered |
| `OrderOutcomes.SubmissionIsAcknowledged` | ez/live/oms.py:286-320 | an order whose report only tells of its submission is recorded as submitted with its shares left open, and its log replays to the broker's acknowledgement with nothing filled and no money moved |
| `OrderOutcomes.SubmissionIsLinked` | ez/live/oms.py:286-320 | stored in the link table, that acknowledgement leaves the order's row with the broker's id and the symbol, whatever the table held |
| `OrderOutcomes.SubmissionWithoutId` | ez/live/oms.py:286-320 | without a broker's id the log of such an order says only that it was submitted |
| `OrderOutcomes.FilledReportIsRecorded` | ez/live/oms.py:362-413 | an order whose report has fills is recorded as filled, partly exactly if the report says so, and the fills of its log are its own in order |
| `OrderOutcomes.RebalanceVolumeIsTraded` | ez/live/oms.py:144-183 | the volume of a rebalance is the amount of the broker's trades, none without an accepted order |
| `OddLot.OddLotIsSoldUnasked` | ez/live/oms.py:518-522 | a concrete rebalance whose log does not replay |
| `Matchers.BuyKernelIsFair` | ez/core/_jit_fill.py:59-73 | a buy's shares, price and commission account for the amount; nothing is filled exactly when the commission eats it or the price is not positive |
| `Matchers.SellKernelIsFair` | ez/core/_jit_fill.py:75-91 | a sale never returns negative cash and sells what was asked |
| `Matchers.BuyIsFair` | ez/core/market_rules.py:52-107 | any stack of tax, market rules and base matcher spends no more than offered, and its commission respects the base matcher's floor |
| `Matchers.SaleIsFair` | ez/core/matcher.py:132-163 | any stack sells no more than asked, pays no negative cash, and net is value less commission |
| `FillLaws.RoundedIsGreatest` | ez/core/market_rules.py:66-71 | rounding to lots keeps the most whole lots that the shares hold |
| `FillLaws.BuyFillsExactly` | ez/core/market_rules.py:52-107 | what a stack of any depth fills of a buy: nothing at a limit, without a price or when the commission eats it up; else what the amount less commission pays for at the slipped price, rounded from the innermost wrapper outwards, with the commission of the rounded value |
| `FillLaws.SaleFillsExactly` | ez/core/market_rules.py:109-130 | what it fills of a sale: nothing at a limit or on the bar of purchase; else the shares rounded from the outermost wrapper inwards at the slipped price, less the commission and each tax, never less than nothing |
| `FillLaws.BuyMarksStack` | ez/core/market_rules.py:105-107 | a buy changes nothing of a stack but the bars of purchase, and a filled one all of them |
| `FillLaws.RulesRemember` | ez/core/market_rules.py:63-107 | rules remember the bar exactly when they fill something, and the wrapper inside is asked exactly when the order and the limit allow it |
| `FillLaws.BoughtIsNotSold` | ez/core/market_rules.py:113-115 | what was bought through next-day rules at any depth is not sold again on the same bar at any price |
| `MatcherObjects.MatcherObject.BarStarts` | ez/core/market_rules.py:47-50 | the bar state afterwards |
| `MatcherObjects.MatcherObject.TryBuy` | ez/core/market_rules.py:52-107 | fill and new state of any stack of matcher objects |
| `MatcherObjects.MatcherObject.TrySell` | ez/core/market_rules.py:109-130 | the fill of a sale through any stack |
| `BacktestLaws.SaleConserves` | ez/backtest/engine.py:391-432 | booking a sale keeps the books consistent, and cash plus cost less recorded and partial profit moves only by what is written off |
| `BacktestLaws.BuyConserves` | ez/backtest/engine.py:438-462 | booking a purchase keeps the books consistent and leaves cash plus cost less recorded and partial profit as it was |
| `Engine.ExecutePlan` | ez/backtest/engine.py:377-462 | the order branch of a bar |
| `Engine.RecordTerminal` | ez/backtest/engine.py:510-550 | the virtual closing trade through the unwrapped matcher |
| `Engine.SimulateBars` | ez/backtest/engine.py:313-554 | equity array, return array, trades and matcher state of the whole run |
| `WeightLaws.TradingIsTowards` | ez/backtest/engine.py:377-478 | with any stack a bar stays where it is or trades towards the weight and not past it: it spends and adds at most what is lacking, or takes away at most what is too much |
| `WeightLaws.BaseTradesTheGap` | ez/backtest/engine.py:378-478 | a triggered bar of a base matcher spends exactly what is lacking, or all the cash, with commission and slippage, unless the commission eats it up; and sells exactly what is too much |
| `WeightLaws.CostlessReaches` | ez/backtest/engine.py:378-478 | without costs a triggered bar ends with shares worth the weight of the whole and the rest in cash, dust apart |
| `WeightLaws.RunsTradeTowards` | ez/backtest/engine.py:365-478 | so every bar of every run; a bar whose weight moved by at most 0.001 from the one last reached does nothing, and after a trade the weight that was reached is remembered |
| `WeightLaws.RunsReachWeights` | ez/backtest/engine.py:365-483 | in a run without costs every bar whose weight moved by more than 0.001 ends at its weight, whatever happened before, and the equity is what that split is worth |
| `RuleRuns.RunsObeyLimits` | ez/backtest/engine.py:374-438 | in any run a bar that opens up by the limit from the previous close buys nothing, and one that opens down by it sells nothing |
| `RuleRuns.NextDayRuleNeverBinds` | ez/core/market_rules.py:113-115 | a run with the next-day rule in the outermost wrapper has the books, equity and returns of the run without it |
| `RuleRuns.InnerRulesNeverSell` | ez/backtest/engine.py:363-375 | a run through next-day rules that are inside another wrapper never sells and records no trade |
| `BacktestLaws.ProfitAndLossBalance` | ez/backtest/engine.py:365-483 | after every bar cash, cost of the position and entry commission equal the capital plus recorded and partial profit, up to written-off dust below 1e-10 shares a bar |
| `BacktestLaws.FlatCashIsRealisedProfit` | ez/backtest/engine.py:402-428 | whenever a run is flat, its cash has moved by the recorded profit less the written-off dust |
| `RoundTrips.RoundTripsAreCash` | ez/backtest/engine.py:402-421 | every round trip a run records: its profit is the cash after its exit bar less the cash before its entry bar, up to written-off dust, and its percentage is that profit by the most cash the position ever had at risk |
| `RoundTrips.TerminalIsClosing` | ez/backtest/engine.py:510-550 | the closing trade is recorded exactly when there is a position, a last price and a fill at that price |
| `RoundTrips.ClosingTradeIsCash` | ez/backtest/engine.py:524-550 | the closing trade's profit is what selling would have added to the cash since the entry, shares not sold at their cost |
| `RoundTrips.TradesTakeTwoBars` | ez/backtest/engine.py:365-483 | recorded round trips and an open one take two bars and one, for any matcher stack and any weights |
| `TradeRecords.TradesTellTheirFills` | ez/backtest/engine.py:393-460 | over any run a recorded trade has the commissions of all fills of its cycle, the price of the last one, the average cost before it and the weight reached before it; the open cycle's books have its commissions and its largest position |
| `TradeRecords.OpeningForgets` | ez/backtest/engine.py:440-450 | a position is opened with nothing carried over from what the books remember of earlier ones |
| `TradeRecords.ClosingIgnoresRules` | ez/backtest/engine.py:507-552 | the closing trade of a run is of the whole position at the last price with slippage, commission and taxes, whatever limits, lots and next-day rules are around the matcher |
| `EquityLaws.ReturnsCompound` | ez/backtest/engine.py:480-483 | every point of the equity curve is the one before it grown by the daily return |
| `EquityLaws.EquityDecomposes` | ez/backtest/engine.py:480-483 | equity less capital is recorded profit, profit of partial sales and unrealised gain over cost, less written-off dust |
| `EquityLaws.EquityIsNotNegative` | ez/backtest/engine.py:365-483 | with prices that are not negative the equity never is |
| `LotLaws.SellsFloored` | ez/core/market_rules.py:109-130 | any stack sells nothing or what is left of the asked shares after rounding down to its lot sizes from outside to inside |
| `LotLaws.SalesKeepLotsExactly` | ez/core/market_rules.py:109-130 | a stack of any depth that lets sales through sells whole outer lots as whole outer lots, at every price, if and only if rounding to its lot sizes keeps them |
| `LotLaws.PositionInWholeLots` | ez/core/market_rules.py:66-130 | under market rules around a stack whose rounding keeps the lot the position is whole lots after every bar and nothing is written off |
| `LotLaws.RunsKeepLotsExactly` | ez/core/market_rules.py:66-130 | nested lot sizes of any depth keep the position of every run in whole outer lots if and only if rounding to them keeps whole lots |
| `LotArithmetic.FiniteCheck` | ez/core/market_rules.py:123-130 | rounding keeps all whole lots if and only if it keeps as many of them as the product of the inner lot sizes |
| `LotArithmetic.GrainSuffices` | ez/core/market_rules.py:123-130 | rounding keeps whole lots when the outer lot divides the grain that the stack leaves: a lot size that divides what comes in leaves it, any other becomes the grain |
| `LotArithmetic.OneLotExactly` | ez/core/market_rules.py:123-130 | one inner lot size keeps whole outer lots if and only if one of the two divides the other |
| `LotArithmetic.GrainIsNotNeeded` | ez/core/market_rules.py:123-130 | lots of 3, 2 and 3 below lots of 2 keep them although the grain is 3 |
| `FastLoop.InlinedSellIsKernel` | ez/core/_jit_fill.py:140-150 | the inlined sale is the sell kernel |
| `FastLoop.InlinedBuyIsKernel` | ez/core/_jit_fill.py:172-183 | the inlined purchase is the buy kernel |
| `FastLoop.FastLoopRefines` | ez/core/_jit_fill.py:124-205 | for every weight sequence and positive opens, the two loops agree on equity, returns, cash, position, average cost and entry |
| `FastLoop.BinaryRunsAgree` | ez/backtest/engine.py:222-234 | all-or-nothing signals keep the books all-in or flat, and the recorded round trips are the same |
| `FastLoop.AcceleratedTradesAgree` | ez/backtest/engine.py:279-305 | the rebuilt trade list is the general one if and only if the record arrays did not overflow and no position of at most 1e-10 shares is left at a positive last price |
| `FastEngine.RunFastLoop` | ez/core/_jit_fill.py:100-210 | the loop over arrays computes the specified run |
| `FastLoop.TerminalsAgree` | ez/backtest/engine.py:290-305 | the closing trade rebuilt from the loop's final state is the general one, and none for a dust position |
| `FastRuns.ShortRunsAgree` | ez/core/_jit_fill.py:95-170 | up to 200001 bars the record arrays cannot overflow, and the lists agree if and only if no dust is left |
| `FastRuns.DustIsNotClosed` | ez/backtest/engine.py:290-305 | with a capital of at most 1e-10 at price 1 the accelerated list misses the closing trade |
| `FastRuns.LongRunsLoseTrades` | ez/core/_jit_fill.py:159-168 | going in and out over 200003 bars the accelerated list misses a trade |
| `FastEngine.Simulate` | ez/backtest/engine.py:556-585 | whichever path is taken, equity and returns are those of the general loop, and so are the trades; positive opens are needed on the accelerated path only |
| `Simplex.ClippedIsProjection` | ez/live/optimizer_allocator.py:244-270 | values clipped at a common threshold are the unique nearest vector in the box with no larger sum |
| `Simplex.TotalFalls` | ez/live/optimizer_allocator.py:256-259 | raising the threshold lowers the total, by no more than the raise times the number of symbols |
| `Simplex.HalvedIsDivided` | ez/live/optimizer_allocator.py:254-263 | the interval after a number of halvings is the first divided by two to that number |
| `Simplex.BracketedFacts` | ez/live/optimizer_allocator.py:254-263 | every round keeps total(lower) > budget >= total(upper) and halves the interval |
| `Simplex.ThresholdFacts` | ez/live/optimizer_allocator.py:252-270 | the threshold found is positive and its total lies below the budget by less than the last interval times the number of symbols |
| `Simplex.Bisect` | ez/live/optimizer_allocator.py:252-263 | the search from the least and greatest threshold that matter ends at the specified one |
| `Refill.FillToBudget` | ez/live/optimizer_allocator.py:475-509 | the passes over the expandable symbols compute the specified weights, early exits included |
| `Refill.FilledUpFacts` | ez/live/optimizer_allocator.py:475-509 | weights stay in their boxes and within the budget; with at most twelve symbols the loop ends with a residual of at most 1e-12 or every symbol within 1e-12 of its cap |
| `Refill.PassFacts` | ez/live/optimizer_allocator.py:488-508 | a pass hands out the whole residual or fills up a symbol |
| `Allocator.ProjectCappedSimplex` | ez/live/optimizer_allocator.py:234-270 | the dict returned: values clipped, lowered when clipping exceeds the budget, small weights dropped |
| `Allocator.ProjectionIsFeasible` | ez/live/optimizer_allocator.py:234-270 | every projection is within the caps and the budget up to 1e-12, and keeps only symbols that had a value |
| `Allocator.ProjectionUsesBudget` | ez/live/optimizer_allocator.py:244-270 | when clipping exceeds the budget, the sum is at most the budget and more than the budget less n (upper - lower) / 2^80 less n 1e-12 |
| `Allocator.ProjectionIsNearest` | ez/live/optimizer_allocator.py:234-270 | before small weights are dropped no vector in the box with no larger sum is nearer to the values, and none is equally near |
| `Allocator.BlendIsFeasible` | ez/live/optimizer_allocator.py:417-432 | a blend is feasible for any strength and any alternative |
| `TargetLaws.BlendMovesPart` | ez/live/optimizer_allocator.py:417-432 | a blend of two targets that fit moves every weight by the strength's part of the way from the base to the alternative |
| `RiskBudgetLaws.RiskTargetIsProportional` | ez/live/optimizer_allocator.py:390-414 | the risk budget is feasible for any scores; when every share fits its cap it uses the whole budget in proportion to the inverse volatilities |
| `Allocator.DescendFrom` | ez/live/optimizer_allocator.py:454-471 | at most 120 rounds of gradient step, projection and refill, ending early when nothing moves by more than 1e-9 |
| `Allocator.ProjectedGradient` | ez/live/optimizer_allocator.py:435-472 | the dict the descent ends at |
| `Allocator.GradientIsFeasible` | ez/live/optimizer_allocator.py:435-472 | whatever the matrix, the descent returns feasible weights |
| `GradientLaws.FormIsSymmetric` | ez/live/optimizer_allocator.py:455 | a symmetric covariance gives a symmetric form, so that aversion times sigma w is the gradient of the risk |
| `GradientLaws.ObjectiveAfter` | ez/live/optimizer_allocator.py:455 | what a move does to the objective: the loop's gradient along it, half its squared length and its risk |
| `GradientLaws.StandstillIsOptimal` | ez/live/optimizer_allocator.py:454-460 | a vector the projected gradient step leaves unchanged is the only minimum of the objective in the box among sums no larger |
| `DescentLaws.SettledIsOptimalExactly` | ez/live/optimizer_allocator.py:454-471 | weights that a whole round of the loop, projection and refill, returns unchanged are the only minimum among weights in the caps with no larger sum if and only if the clipped step uses the budget up to 1e-12 or no symbol has room; otherwise they are no minimum |
| `DescentLaws.CandidateResolves` | ez/live/optimizer_allocator.py:252-263 | the bisection of a gradient step leaves at most 1e-12 of the budget, unless symbols times caps exceed 10^12: no gradient step strays from the caps by more than a quarter of the sum |
| `SettledLaws.SettledIsNearlyOptimal` | ez/live/optimizer_allocator.py:450-471 | after a round that refills nothing and moves no weight by more than 1e-9, no weights in the caps with no larger sum have an objective lower by more than 1e-9 times (n + 4) times aversion times greatest variance times both sums |
| `RefillShares.FillIsProportional` | ez/live/optimizer_allocator.py:488-508 | however many passes there are, together they give every symbol one rate times its priority, and less only where its cap stops it |
| `RefillShares.SettledRefillIsNearlyLeast` | ez/live/optimizer_allocator.py:450-471 | after a round that refills and moves no weight by more than 1e-9, no weights in the caps have an objective lower by more than that same bound, among those that have no less of the priorities in all, raise no full symbol and keep what the step would take below 0 |
| `RefillShares.DescentIsNearlyOptimal` | ez/live/optimizer_allocator.py:450-471 | the whole descent, with any number of rounds: it ends with its last round or at a settled one, and then that near the minimum, or the minimum among weights with as much of the target, as the round refilled nothing or something |
| `RefillShares.RefilledRoundGains` | ez/live/optimizer_allocator.py:450-466 | a round that refills gains what a round without a refill gains if the target-weighted sum does not grow, no symbol it leaves without room shrinks and none the step takes below 0 grows |
| `RefillRest.RefilledRestIsLeastExactly` | ez/live/optimizer_allocator.py:454-471 | weights that a round with a refill returns unchanged are the only minimum among weights with no less of the target, no full symbol raised, if and only if the step pulls no held symbol harder for its priority than one with room; it does not when it wants no held symbol below 0, and does when it wants one with room below 0 and another not; otherwise weights with the same target-weighted sum lie lower |
| `StepSizeLaws.ProjectedStepGains` | ez/live/optimizer_allocator.py:450-460 | a projected step lowers the objective by half of the squared move times 1 + (8 - n) times aversion times greatest variance, but for the lost sum times the threshold times 1 + 4 times aversion times greatest variance |
| `StepSizeLaws.IdleRoundGains` | ez/live/optimizer_allocator.py:450-466 | a round that refills nothing lowers the objective by that gain, for every n, but for at most 2e-12 times the same factor times the greatest cap plus a quarter of the budget |
| `StepSizeLaws.SafeForFew` | ez/live/optimizer_allocator.py:450-453 | no such round raises the objective by more than that drift while (n - 8) times aversion times greatest variance is at most 1 |
| `StepSizeLaws.IdleDescentIsNoWorse` | ez/live/optimizer_allocator.py:453-471 | then a descent that refills nothing until it stops ends above its start by no more than the drift of its rounds, after any number of rounds |
| `StepLimits.StepSuitsExactly` | ez/live/optimizer_allocator.py:452-460 | every round of n symbols with this aversion times greatest variance that refills nothing ends no higher, but for the exact slip of its projection, if and only if (n - 8) times it is at most 1 |
| `StepLimits.LongStep` | ez/live/optimizer_allocator.py:452-460 | for nine symbols or more, a round that refills, lowers and drops nothing and changes the objective by exactly half the squared move times aversion (q n + r) - 1 - 8 aversion (q + r), for a common risk q and an own risk r |
| `StepLimits.GuardedRoundEndsHigher` | ez/live/optimizer_allocator.py:325-377 | where n - 8 - 2e-6 n (n - 1), times aversion times greatest variance, is above 1, such a round ends higher with a covariance the guard lets pass |
| `HedgedRisk.HedgedPasses` | ez/live/optimizer_allocator.py:347-360 | per unit of squared length every portfolio has a risk between the own risk and n times the variance, so the guard lets the matrix pass when the own risk is above 1e-8 and above 1e-6 of the latter |
| `Overshoot.TenSymbolsOvershoot` | ez/live/optimizer_allocator.py:435-472 | a covariance of ten symbols that the guard lets pass, on which the whole descent ends at an objective of 1.1165 after starting at 0.90417375, while equal weights of the same sum have 0.041625 |
| `TwoSymbols.TwoSymbolsRise` | ez/live/optimizer_allocator.py:435-472 | two symbols of variance 1 correlated by one half: the whole descent ends at an objective of at least 0.4434 after starting at 0.42, while other weights of the same sum have 0.40875 |
| `TwoSymbols.DescentOfTwo` | ez/live/optimizer_allocator.py:454-471 | that holds after any number of rounds: every iterate has between 0.86 and 0.945 in the first symbol |
| `DescentLaws.FullyInvestedStaysPut` | ez/live/optimizer_allocator.py:435-472 | one fully invested symbol is returned at weight 1 although weight 1/2 has a lower objective |
| `TargetOptimizer.CompressionFits` | ez/live/optimizer_allocator.py:214-231 | compression between feasible weights is feasible and meets the turnover cap up to 1e-12 a symbol |
| `TargetOptimizer.FittingIsUnchanged` | ez/live/optimizer_allocator.py:244-250 | projecting weights that already fit changes nothing |
| `TargetOptimizer.TurnoverIsCapped` | ez/live/optimizer_allocator.py:152-186 | the outcome is feasible; it meets the cap or keeps the optimized target; it meets the cap for up to a thousand symbols when the current weights fit |
| `TargetLaws.CapMovesPart` | ez/live/optimizer_allocator.py:152-231 | a cap that binds moves every weight the same part of the way from the current to the optimized one, the part that the cap is of the turnover, up to weights of 1e-12 |
| `TargetLaws.ClampingLosesNothing` | ez/live/optimizer_allocator.py:86-98 | clamping the budget to the caps keeps all weights that fit the caps and the budget, and leaves the budget or the sum of the caps |
| `TargetLaws.FittingRequestIsGranted` | ez/live/optimizer_allocator.py:99-186 | without a use of the covariance, requested weights that fit the caps and the clamped budget and can be reached within the turnover cap are the allocation |
| `TargetOptimizer.RiskShapedIsFeasible` | ez/live/optimizer_allocator.py:138-146 | whenever the matrix product can be formed, the shaped target is feasible |
| `TargetOptimizer.OptimizeTargetWeights` | ez/live/optimizer_allocator.py:24-211 | the whole outcome on every path, over the symbols with a positive requested or current weight |
| `TargetOptimizer.TargetsKeepTheLimits` | ez/live/optimizer_allocator.py:82-211 | every allocation is within the caps and the clamped budget up to 1e-12, and the turnover cap holds as above, whatever the covariance |
| `TargetOptimizer.FailsExactly` | ez/live/optimizer_allocator.py:107-146 | the call fails if and only if a risk aversion meets a covariance with a row for a symbol without a weight in the shaped target |
| `TargetOptimizer.HeldSymbolsFail` | ez/live/optimizer_allocator.py:62-146 | without a risk budget one held symbol that is not requested makes it fail, as long as anything is requested |
| `HeldSymbol.SwitchingFails` | ez/live/optimizer_allocator.py:62-146 | a switch from one symbol to another with any risk aversion fails |
| `Fdr.AdjustPValues` | ez/agent/fdr.py:82-90 | the in-place backward pass leaves at each rank the value of the step-up recursion |
| `Fdr.CorrectBH` | ez/agent/fdr.py:49-109 | the corrections in the original order, invalid p-values marked |
| `Fdr.CorrectBonferroni` | ez/agent/fdr.py:26-46 | the Bonferroni corrections |
| `FdrLaws.AdjustedIsLeast` | ez/agent/fdr.py:88-90 | the adjusted value is the least of this and all later raw values |
| `FdrLaws.RejectsTheSmallest` | ez/agent/fdr.py:78-100 | exactly the k smallest are rejected, k the largest rank with p m / k < alpha |
| `FdrLaws.RejectsExactly` | ez/agent/fdr.py:49-109 | without mentioning ranks: a test is significant if and only if some p-value no smaller than its own lies under the line |
| `FdrLaws.AdjustmentKeepsOrder` | ez/agent/fdr.py:78-109 | adjusted values are monotone in p, equal for ties, at least p and at most 1 |
| `FdrLaws.BonferroniIsStricter` | ez/agent/fdr.py:36-46 | every Bonferroni rejection is a Benjamini-Hochberg rejection |
| `FdrLaws.BonferroniExactly` | ez/agent/fdr.py:26-46 | each valid p-value is multiplied by the number of all tests and cut at 1, and rejected if and only if it is below alpha by that number or alpha is above 1; invalid ones are marked |
| `FundamentalCache.FundamentalStore.TouchSymbols` | ez/data/fundamental.py:197-201 | the access times afterwards |
| `FundamentalCache.FundamentalStore.CacheUnits` | ez/data/fundamental.py:203-209 | the units over all three maps |
| `FundamentalCache.FundamentalStore.CleanupGhostAccessTime` | ez/data/fundamental.py:211-221 | only access times of symbols with data stay; how many were dropped |
| `FundamentalCache.FundamentalStore.CandidatesByAge` | ez/data/fundamental.py:234-252 | the unprotected symbols once each, least recently used first |
| `FundamentalCache.ChooseEvicted` | ez/data/fundamental.py:253-262 | the chosen set and the tracked count |
| `FundamentalCache.CountLeftIsTrue` | ez/data/fundamental.py:253-262 | the tracked count is the true number of units left over all three maps |
| `FundamentalCache.FundamentalStore.RemoveEvicted` | ez/data/fundamental.py:263-269 | the three maps and the access times without the evicted symbols |
| `FundamentalCache.FundamentalStore.EvictLru` | ez/data/fundamental.py:223-277 | what eviction may leave of a cache, and that the count it ends with is the true one |
| `FundamentalCache.FundamentalStore.Preload` | ez/data/fundamental.py:279-294 | loading, then evicting with the request's symbols protected |
| `CacheLaws.EvictionLaws` | ez/data/fundamental.py:223-277 | symbols stay or go whole, protected ones stay, access times are live, enough is gone unless nothing is left to take, the oldest went first, none went without need |
| `CacheLaws.RequestSurvives` | ez/data/fundamental.py:279-360 | what a request loaded is in the cache when it returns |
| `CacheRuns.LoadedFacts` | ez/data/fundamental.py:279-360 | after loading, each key has the last row of the request or what it had, a requested symbol has the request's time and no other time changed |
| `CacheRuns.OneRow` | ez/data/fundamental.py:320-350 | a report row that was read is its symbol's and no other's |
| `CacheRuns.RowsOfBoth` | ez/data/fundamental.py:320-350 | the report rows of a symbol are those of each part of what was read, in order |
| `CacheRuns.RunTimes` | ez/data/fundamental.py:197-201 | over any run of requests with evictions, every stored time is that of the last request for the symbol |
| `CacheRuns.LeastRecentlyAskedGoesFirst` | ez/data/fundamental.py:223-277 | at rising times no evicted symbol was requested later than one that stays unprotected |

## Left out

- DuckDB, JSON, transactions, locks and schema migration: rows are map entries and each upsert is one atomic step.
- The C++ paths of `execute_portfolio_trades` and of the simulation loop: only the Python code is modelled.
- The runtime allocator in front of the OMS: `Oms.Day` takes the adjusted weights as given; the QMT and shadow brokers.
- Floating-point rounding, NaN and infinity of numbers, numba and pandas: exact reals, and a missing price is `None`.
- Covariance alignment, eigenvalue lifting and volatility lookup: the matrix is arbitrary of the right size and the
  inverse-volatility scores are any positive numbers. The guard's eigenvalue bounds appear as bounds on the risk of
  portfolios of length 1 (`HedgedRisk.PassesGuard`).
- `strip()` and `lower()` of reported words, and text conversion of numbers: words arrive normalised.
- `UpsertCancelAck`: a found row is looked up again by its key, the row's own copies of the ids are not compared.
- Audit payloads, messages, details dictionaries, risk event texts, monitors, alerts and deployment gates.
- Stage promotion in the capital policy and the parsing of its parameters: flat comparisons.
- `pnl_pct` of the accelerated path: it deliberately uses another formula (ez/backtest/engine.py:274-278).
- ExecutePortfolioTrades: sales of earlier calls on the same day, which the code could be given and is given nowhere in
  the repository, are taken to be none.
- BlendMovesPart: stated for blends without a weight between 0 and 1e-12, which the projection would drop.
- FittingRequestIsGranted: stated for requested weights above 1e-12, for the same reason.
- CapMovesPart: stated for current weights that fit and at most a thousand symbols, as TurnoverIsCapped.
- RefusedExactly: where a stage caps positions, stated for purchases of symbols that are neither short nor negatively
  priced; the policy adds the order's notional to the value before (ez/live/capital_policy.py:387-459).
- RebalanceReachesWeights: stated for weights that are not negative; TargetAt and BuysAreMade cover the others.
- TradeWithinOrder: nothing is stated for a buy that should leave a short position, which the broker is asked to close.
- ProjectionsAgree: stated without runtime callbacks; an acknowledgement is resolved through the rows themselves, and
  RunsGoForward and RowKeepsLatestFinal cover callbacks.
- FastLoopRefines: stated for positive open prices; at other opens the inlined sale has no price check.
- RejectsExactly: identifiers of tests are taken as unique and p-values in [0, 1]; with repeated identifiers the result
  map keeps the last.
- EvictLru: ties of access times may come in any order, as the iteration over a set leaves them open.
- Preload: the rows read from the database are parameters; point-in-time queries and the recency they update are left
  out, and symbols and industries without text are taken as filtered by the caller.
- SettledIsOptimalExactly: weights of at most 1e-12 are taken to be 0 already, as the loop would drop them.
- SettledIsNearlyOptimal: stated for rounds that drop no weight between 0 and 1e-12.
- SettledRefillIsNearlyLeast: the same.
- RefilledRoundGains: one way only; that the target-weighted sum may grow and the objective still fall is not ruled out.
- IdleDescentIsNoWorse: that a descent settles within its 120 rounds is not stated; TenSymbolsOvershoot does not.
- API routes, the assistant, data providers, the code sandbox, statistics and the web front end.
