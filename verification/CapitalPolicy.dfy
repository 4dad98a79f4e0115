/** The staged capital policy, ez/live/capital_policy.py. */
module CapitalPolicy {
  import opened Options
  import opened Events

  const TOLERANCE := 0.000000001

  datatype Stage = ReadOnly | PaperSim | SmallWhitelist | ExpandedWhitelist | FullCapital

  datatype StageLimits = StageLimits(
    maxCapitalPerDay: real, maxPositionValue: real, maxGrossExposure: real, allowed: Option<seq<string>>)

  /** `killSwitch` is the environment variable's reading. */
  datatype Policy = Policy(currentStage: Stage, limits: map<Stage, StageLimits>, killSwitch: bool)

  datatype Rule =
    | KillSwitchDowngrade | ReadOnlyBlocks | PaperStageNeedsPaperBroker | NotWhitelisted
    | CapitalPerDay | PositionValue | TotalExposure
    | KillSwitch | OrderNotional | DailyTurnover | PositionWeight | Concentration | GrossExposure

  function EffectiveStage(p: Policy): Stage {
    if p.killSwitch then (if p.currentStage.ReadOnly? then ReadOnly else PaperSim) else p.currentStage
  }

  /** The first rule of the policy an order breaks, if any. */
  function CheckOrder(p: Policy, symbol: string, side: Side, notional: real, positionValue: real, exposure: real,
                      dayNotional: real, paperBroker: bool): Option<Rule>
  {
    var stage := EffectiveStage(p);
    if p.killSwitch && !paperBroker then Some(KillSwitchDowngrade)
    else if stage.ReadOnly? then Some(ReadOnlyBlocks)
    else if stage.PaperSim? && !paperBroker then Some(PaperStageNeedsPaperBroker)
    else if stage !in p.limits then None
    else
      var limits := p.limits[stage];
      if limits.allowed.Some? && symbol !in limits.allowed.value then Some(NotWhitelisted)
      else if dayNotional + notional > limits.maxCapitalPerDay + TOLERANCE then Some(CapitalPerDay)
      else if side.Buy? && positionValue + notional > limits.maxPositionValue + TOLERANCE then Some(PositionValue)
      else if side.Buy? && exposure + notional > limits.maxGrossExposure + TOLERANCE then Some(TotalExposure)
      else None
  }

  /** A real broker gets an order through only in the three real-money stages with the kill switch off,
      and a read-only stage lets nothing through. */
  lemma RealOrdersNeedARealStage(p: Policy, symbol: string, side: Side, notional: real, positionValue: real,
                                 exposure: real, dayNotional: real, paperBroker: bool)
    requires CheckOrder(p, symbol, side, notional, positionValue, exposure, dayNotional, paperBroker).None?
    ensures !p.currentStage.ReadOnly?
    ensures !paperBroker ==> !p.killSwitch && !p.currentStage.PaperSim?
    ensures p.killSwitch ==> EffectiveStage(p) == PaperSim
  {
  }
}
