/** packages/trading-decision: levels, sizing and statuses, and the verdict flags of packages/trading-plan. */
module Decisions {
  import opened Wrappers
  import opened Decimal
  import opened ExecutionTypes

  /** Price steps per unit of money: levels are rounded to two decimals. */
  const STEPS: real := 100.0

  /** Quantity steps per unit: sizes are rounded to eight decimals. */
  const UNITS: real := 100_000_000.0

  datatype Multipliers = Multipliers(stop: real, tp1: real, tp2: real, tp3: real)

  const DEFAULT_MULTIPLIERS := Multipliers(1.5, 1.5, 3.0, 4.5)

  /** Levels in price steps. */
  datatype Levels = Levels(
    entry: Option<int>, stop: Option<int>, tp1: Option<int>, tp2: Option<int>, tp3: Option<int>)

  function RoundPrice(x: real): int { Round(x * STEPS) }

  /** A distance from the entry, in multiples of the average true range. */
  function Reach(multiple: real, atr: real): real { multiple * atr }

  function ComputeLevels(direction: Direction, price: Option<real>, atr: Option<real>, m: Multipliers): Levels {
    if direction.Flat? || price.None? then Levels(None, None, None, None, None)
    else if atr.None? || atr.value <= 0.0 then Levels(Some(RoundPrice(price.value)), None, None, None, None)
    else
      var a := atr.value;
      LevelsAt(direction.Long?, price.value, Reach(m.stop, a), Reach(m.tp1, a), Reach(m.tp2, a), Reach(m.tp3, a))
  }

  /** The levels at given distances from the entry: targets with the direction, the stop against it. */
  function LevelsAt(long: bool, entry: real, stop: real, tp1: real, tp2: real, tp3: real): Levels {
    Levels(
      Some(RoundPrice(entry)), Some(RoundPrice(if long then entry - stop else entry + stop)),
      Some(RoundPrice(if long then entry + tp1 else entry - tp1)),
      Some(RoundPrice(if long then entry + tp2 else entry - tp2)),
      Some(RoundPrice(if long then entry + tp3 else entry - tp3)))
  }

  /** The riskRewardRatio of computeLevels, available with the stop. */
  function RewardRatio(direction: Direction, price: Option<real>, atr: Option<real>, m: Multipliers): Option<real> {
    if direction.Flat? || price.None? || atr.None? || atr.value <= 0.0 then None
    else
      var risk, reward := AbsReal(Reach(m.stop, atr.value)), AbsReal(Reach(m.tp1, atr.value));
      Some(Round((if risk > 0.0 then reward / risk else 0.0) * 100.0) as real / 100.0)
  }

  // ------------------------------------------------------------------ sizing

  /** The size in quantity steps and the notional in price steps. */
  datatype Sizing = Sizing(size: Option<int>, notional: Option<int>)

  datatype RiskMode = NORMAL | CAUTIOUS | RISK_OFF | FROZEN

  datatype RiskContext = RiskContext(equity: real, fraction: real, maxNotional: real, mode: Option<RiskMode>)

  function Distance(entry: int, stop: int): real { AbsReal((entry - stop) as real) / STEPS }

  function Quantity(risk: RiskContext, distance: real): real
    requires distance > 0.0
  {
    risk.equity * risk.fraction / distance
  }

  /** A quantity to eight decimals, and its worth at a price. */
  function SizingOf(qty: real, price: real): Sizing { Sizing(Some(Round(qty * UNITS)), Some(RoundPrice(qty * price))) }

  function ComputeSizing(direction: Direction, entry: Option<int>, stop: Option<int>, risk: RiskContext): Sizing {
    if direction.Flat? || entry.None? || stop.None? then Sizing(None, None)
    else
      var distance := Distance(entry.value, stop.value);
      if distance <= 0.0 || risk.equity <= 0.0 || risk.fraction <= 0.0 then Sizing(None, None)
      else
        SizingOf(Quantity(risk, distance), entry.value as real / STEPS)
  }

  // ------------------------------------------------------------------ statuses

  datatype RuntimeState =
    | BOOTING | STARTING | HEALTHY | DEGRADED | PROTECTED | STOPPED | RECOVERING | FAILED | OTHER_STATE

  datatype Permission = ALLOWED | DENIED

  datatype ControlContext = ControlContext(permission: Option<Permission>, state: Option<RuntimeState>, kill: bool)

  datatype ControlStatus = ControlAllowed | ControlBlocked | ControlUnknown
  datatype ExecutionReadiness = ExecutionReady | ExecutionWaiting | ExecutionBlocked | ExecutionUnknown
  datatype RiskStatus = RiskApproved | RiskBlocked | RiskUnknown | RiskNotApplicable
  datatype Overall = NO_TRADE | BLOCKED | WAITING | INCOMPLETE | ACTIONABLE

  function DeriveControlStatus(c: ControlContext): ControlStatus {
    if c.kill then ControlBlocked
    else if c.permission.None? then ControlUnknown
    else if c.permission.value.ALLOWED? then ControlAllowed
    else ControlBlocked
  }

  function DeriveExecutionStatus(c: ControlContext, control: ControlStatus): ExecutionReadiness {
    match control
    case ControlUnknown => ExecutionUnknown
    case ControlBlocked => ExecutionBlocked
    case ControlAllowed =>
      if c.state.None? then ExecutionWaiting
      else if c.state.value.HEALTHY? then ExecutionReady
      else if c.state.value.STOPPED? || c.state.value.FAILED? || c.state.value.PROTECTED? then ExecutionBlocked
      else ExecutionWaiting
  }

  function EvaluateStaticRisk(direction: Direction, notional: Option<int>, risk: RiskContext): RiskStatus {
    if risk.mode == Some(RISK_OFF) || risk.mode == Some(FROZEN) then RiskBlocked
    else if direction.Flat? then RiskNotApplicable
    else if notional.None? then RiskUnknown
    else if notional.value as real / STEPS > risk.maxNotional then RiskBlocked
    else RiskApproved
  }

  /** The execution status blocks only through WAITING and UNKNOWN. */
  function DeriveOverallStatus(direction: Direction, control: ControlStatus, risk: RiskStatus,
                               execution: ExecutionReadiness, entryAvailable: bool): Overall
  {
    if direction.Flat? then NO_TRADE
    else if control.ControlBlocked? || risk.RiskBlocked? then BLOCKED
    else if execution.ExecutionWaiting? || execution.ExecutionUnknown? then WAITING
    else if !entryAvailable then INCOMPLETE
    else ACTIONABLE
  }

  // ------------------------------------------------------------------ buildTradingDecision

  datatype DecisionInputs = DecisionInputs(
    signalId: string, direction: Direction, confidence: real, createdAt: Option<int>, featureAt: Option<int>, now: int,
    price: Option<real>, atr: Option<real>, risk: RiskContext, control: ControlContext, multipliers: Multipliers)

  datatype Decision = Decision(
    signalId: string, direction: Direction, confidence: real, signalAge: int, featureAge: Option<int>,
    levels: Levels, rr: Option<real>, sizing: Sizing,
    control: ControlStatus, execution: ExecutionReadiness, risk: RiskStatus, overall: Overall)

  /** Whole seconds since an instant, at least 0; halves round up. */
  function AgeSeconds(now: int, at: Option<int>): Option<int> {
    if at.None? then None else Some(Max(0, ((now - at.value) as real / 1000.0 + 0.5).Floor))
  }

  function BuildTradingDecision(x: DecisionInputs): Decision {
    var levels := ComputeLevels(x.direction, x.price, x.atr, x.multipliers);
    var sizing := ComputeSizing(x.direction, levels.entry, levels.stop, x.risk);
    var control := DeriveControlStatus(x.control);
    var execution := DeriveExecutionStatus(x.control, control);
    var risk := EvaluateStaticRisk(x.direction, sizing.notional, x.risk);
    var age := AgeSeconds(x.now, x.createdAt);
    Decision(
      x.signalId, x.direction, x.confidence, if age.Some? then age.value else 0, AgeSeconds(x.now, x.featureAt),
      levels, RewardRatio(x.direction, x.price, x.atr, x.multipliers), sizing, control, execution, risk,
      DeriveOverallStatus(x.direction, control, risk, execution, levels.stop.Some?))
  }

  // ------------------------------------------------------------------ buildTradePlan: verdict flags and action

  datatype PlanConfig = PlanConfig(signalStale: int, featureStale: int, strongConfidence: real, readyRR: real)

  const DEFAULT_PLAN_CONFIG := PlanConfig(180, 180, 0.75, 2.0)

  datatype Verdict = Verdict(
    hardBlocked: bool, stale: bool, noTrade: bool, actionable: bool, canTrade: bool, strong: bool, good: bool)

  function DeriveVerdict(d: Decision, kill: bool, cfg: PlanConfig): Verdict {
    var hardBlocked := kill || d.control.ControlBlocked? || d.risk.RiskBlocked? || d.overall.BLOCKED?;
    var actionable := d.overall.ACTIONABLE? && !kill;
    var confident := d.confidence >= cfg.strongConfidence;
    var rewarding := d.rr.Some? && d.rr.value >= cfg.readyRR;
    Verdict(
      hardBlocked,
      d.signalAge > cfg.signalStale || (d.featureAge.Some? && d.featureAge.value > cfg.featureStale),
      d.direction.Flat? || d.overall.NO_TRADE?,
      actionable, actionable && !hardBlocked,
      confident && rewarding, !(confident && rewarding) && (confident || rewarding))
  }

  function ActionFor(direction: Direction, v: Verdict): Action {
    if v.noTrade || v.hardBlocked then Action.NoTrade
    else if !v.actionable || v.stale then Action.Wait
    else if direction.Long? then (if v.strong then Action.StrongBuy else if v.good then Action.Buy else Action.Watch)
    else if direction.Short? then (if v.strong then Action.StrongSell else if v.good then Action.Sell else Action.Watch)
    else Action.Wait
  }

  predicate ShouldTrade(a: Action) { a.StrongBuy? || a.Buy? || a.StrongSell? || a.Sell? }

  /** The plan's maximum loss, in price steps. */
  function MaxLoss(d: Decision): Option<int> {
    if d.sizing.size.None? || d.levels.entry.None? || d.levels.stop.None? then None
    else Some(RoundPrice(d.sizing.size.value as real / UNITS * Distance(d.levels.entry.value, d.levels.stop.value)))
  }

  // ------------------------------------------------------------------ buildExecutionIntent

  /** A level as the execution core holds it, in 1e-8 units. */
  function ToPrice(level: Option<int>): Option<real> {
    if level.None? then None else Some(level.value as real / STEPS * UNITS)
  }

  /** collectTargets: the available take-profit levels, in order. */
  function CollectTargets(levels: seq<Option<int>>): seq<real> {
    if levels == [] then []
    else (if levels[0].Some? then [ToPrice(levels[0]).value] else []) + CollectTargets(levels[1..])
  }

  function BuildIntent(d: Decision, kill: bool, cfg: PlanConfig, readiness: Option<real>, mode: Mode, venue: Venue,
      now: int): Intent
  {
    var v := DeriveVerdict(d, kill, cfg);
    var action := ActionFor(d.direction, v);
    Intent(
      d.signalId, d.direction, ToPrice(d.levels.entry), ToPrice(d.levels.stop),
      CollectTargets([d.levels.tp1, d.levels.tp2, d.levels.tp3]), d.sizing.size,
      action, v.canTrade, ShouldTrade(action), readiness, mode, venue, now)
  }
}
