/** From the served inputs to an armed execution: what must have held, and what the planned loss is. */
module Gate {
  import opened Wrappers
  import opened Decimal
  import opened ExecutionTypes
  import opened Decisions
  import Permissions
  import Plans
  import opened Reducer
  import Lifecycles

  // ------------------------------------------------------------------ levels

  /** Stop, entry and targets in the order the direction calls for. */
  predicate InOrder(direction: Direction, l: Levels) {
    l.entry.Some? && l.stop.Some? && l.tp1.Some? && l.tp2.Some? && l.tp3.Some? &&
    if direction.Long? then l.stop.value <= l.entry.value <= l.tp1.value <= l.tp2.value <= l.tp3.value
    else l.stop.value >= l.entry.value >= l.tp1.value >= l.tp2.value >= l.tp3.value
  }

  predicate Increasing(m: Multipliers) { 0.0 <= m.stop && 0.0 <= m.tp1 <= m.tp2 <= m.tp3 }

  lemma ReachMonotone(x: real, y: real, a: real)
    requires x <= y && a > 0.0
    ensures Reach(x, a) <= Reach(y, a)
  {}

  lemma PriceMonotone(x: real, y: real)
    requires x <= y
    ensures RoundPrice(x) <= RoundPrice(y)
  {
    RoundMonotone(x * STEPS, y * STEPS);
  }

  lemma DistancesInOrder(long: bool, e: real, stop: real, tp1: real, tp2: real, tp3: real)
    requires 0.0 <= stop && 0.0 <= tp1 <= tp2 <= tp3
    ensures InOrder(if long then Direction.Long else Direction.Short, LevelsAt(long, e, stop, tp1, tp2, tp3))
  {
    if long {
      PriceMonotone(e - stop, e);
      PriceMonotone(e, e + tp1);
      PriceMonotone(e + tp1, e + tp2);
      PriceMonotone(e + tp2, e + tp3);
    } else {
      PriceMonotone(e, e + stop);
      PriceMonotone(e - tp1, e);
      PriceMonotone(e - tp2, e - tp1);
      PriceMonotone(e - tp3, e - tp2);
    }
  }

  lemma ReachesInOrder(m: Multipliers, a: real)
    requires Increasing(m) && a > 0.0
    ensures 0.0 <= Reach(m.stop, a) && 0.0 <= Reach(m.tp1, a) <= Reach(m.tp2, a) <= Reach(m.tp3, a)
  {
    assert Reach(0.0, a) == 0.0;
    ReachMonotone(0.0, m.stop, a);
    ReachMonotone(0.0, m.tp1, a);
    ReachMonotone(m.tp1, m.tp2, a);
    ReachMonotone(m.tp2, m.tp3, a);
  }

  /** Rounding keeps the levels in order, for any increasing multipliers. */
  lemma LevelsInOrder(direction: Direction, price: Option<real>, atr: Option<real>, m: Multipliers)
    requires Increasing(m) && !direction.Flat? && price.Some? && atr.Some? && atr.value > 0.0
    ensures InOrder(direction, ComputeLevels(direction, price, atr, m))
  {
    var a := atr.value;
    ReachesInOrder(m, a);
    DistancesInOrder(direction.Long?, price.value, Reach(m.stop, a), Reach(m.tp1, a), Reach(m.tp2, a), Reach(m.tp3, a));
  }

  // ------------------------------------------------------------------ the submit gate, exactly

  predicate Directional(x: DecisionInputs) { !x.direction.Flat? }

  predicate HasLevels(x: DecisionInputs) { x.price.Some? && x.atr.Some? && x.atr.value > 0.0 }

  /** The control context as the decision reads it: only some non-healthy states hold it back. */
  predicate ControlOpen(c: ControlContext) {
    && !c.kill && c.permission == Some(ALLOWED) && c.state.Some?
    && (c.state.value.HEALTHY? || c.state.value.STOPPED? || c.state.value.FAILED? || c.state.value.PROTECTED?)
  }

  /** The mode lets trade, and a known notional does not exceed what may be held. */
  predicate RiskOpen(x: DecisionInputs) {
    var notional := BuildTradingDecision(x).sizing.notional;
    && x.risk.mode != Some(RISK_OFF) && x.risk.mode != Some(FROZEN)
    && (Directional(x) && notional.Some? ==> notional.value as real / 100.0 <= x.risk.maxNotional)
  }

  /** Within so many seconds, rounded to the nearest: a signal of unknown age counts as new. */
  predicate IsRecent(now: int, at: Option<int>, seconds: int) {
    seconds >= 0 && (at.Some? ==> now - at.value < 1_000 * seconds + 500)
  }

  predicate Fresh(x: DecisionInputs, cfg: PlanConfig) {
    && IsRecent(x.now, x.createdAt, cfg.signalStale)
    && (x.featureAt.Some? ==> IsRecent(x.now, x.featureAt, cfg.featureStale))
  }

  lemma AgeIff(now: int, at: Option<int>, seconds: int)
    ensures IsRecent(now, at, seconds) <==> (if at.Some? then AgeSeconds(now, at).value else 0) <= seconds
  {
    if at.Some? {
      var t := (now - at.value) as real / 1000.0 + 0.5;
      assert t.Floor as real <= t < t.Floor as real + 1.0;
      assert t.Floor <= seconds <==> t < (seconds + 1) as real;
    }
  }

  predicate Convincing(x: DecisionInputs, cfg: PlanConfig) {
    var rr := RewardRatio(x.direction, x.price, x.atr, x.multipliers);
    x.confidence >= cfg.strongConfidence || (rr.Some? && rr.value >= cfg.readyRR)
  }

  predicate GateOpen(x: DecisionInputs, kill: bool, cfg: PlanConfig, readiness: Option<real>) {
    && Directional(x) && HasLevels(x) && ControlOpen(x.control) && !kill && RiskOpen(x)
    && Fresh(x, cfg) && Convincing(x, cfg) && readiness.Some?
  }

  lemma ActionableIff(x: DecisionInputs)
    ensures BuildTradingDecision(x).overall.ACTIONABLE? <==>
      Directional(x) && HasLevels(x) && ControlOpen(x.control) && RiskOpen(x)
  {}

  lemma CollectStep(t: Option<int>, rest: seq<Option<int>>)
    ensures |CollectTargets([t] + rest)| == |CollectTargets(rest)| + if t.Some? then 1 else 0
  {
    assert ([t] + rest)[1..] == rest;
  }

  lemma TargetsIff(d: Decision)
    ensures |CollectTargets([d.levels.tp1, d.levels.tp2, d.levels.tp3])| == 0 <==>
      d.levels.tp1.None? && d.levels.tp2.None? && d.levels.tp3.None?
  {
    var t1, t2, t3 := d.levels.tp1, d.levels.tp2, d.levels.tp3;
    CollectStep(t1, [t2, t3]);
    CollectStep(t2, [t3]);
    CollectStep(t3, []);
    assert [t1, t2, t3] == [t1] + [t2, t3] && [t2, t3] == [t2] + [t3] && [t3] == [t3] + [];
  }

  /** An intent passes the submit gate exactly when all of this holds of the inputs it was built from. */
  lemma SubmittableIff(x: DecisionInputs, kill: bool, cfg: PlanConfig, readiness: Option<real>, mode: Mode,
      venue: Venue, now: int)
    ensures Plans.CheckSubmittable(BuildIntent(BuildTradingDecision(x), kill, cfg, readiness, mode, venue, now)).None?
      <==> GateOpen(x, kill, cfg, readiness)
  {
    var d := BuildTradingDecision(x);
    ActionableIff(x);
    TargetsIff(d);
    VerdictIff(x, kill, cfg);
  }

  lemma VerdictIff(x: DecisionInputs, kill: bool, cfg: PlanConfig)
    ensures var d := BuildTradingDecision(x);
      var v := DeriveVerdict(d, kill, cfg);
      && (v.canTrade <==> d.overall.ACTIONABLE? && !kill)
      && (ShouldTrade(ActionFor(d.direction, v))
         <==> d.overall.ACTIONABLE? && !kill && Fresh(x, cfg) && Convincing(x, cfg))
  {
    ActionableIff(x);
    AgeIff(x.now, x.createdAt, cfg.signalStale);
    AgeIff(x.now, x.featureAt, cfg.featureStale);
  }

  // ------------------------------------------------------------------ runs

  /** READY and everything that can only follow it. */
  predicate IsArmed(s: Status) {
    || s.Ready? || s.Submitted? || s.Acknowledged? || s.PartiallyFilled?
    || s.Filled? || s.Open? || s.Reducing? || s.Closed?
  }

  ghost predicate ArmedWithReason(s: State, plan: Plan) {
    s.plan == Some(plan) && (IsArmed(s.status) ==> plan.submittable)
  }

  lemma ReadyOnlyByArm(s: State, c: Command)
    requires s.status.Planned? && ReduceExecution(s, c).state.status.Ready?
    ensures s.plan.Some? && s.plan.value.submittable
  {}

  lemma StepKeepsReason(s: State, c: Command, plan: Plan)
    requires ArmedWithReason(s, plan)
    ensures ArmedWithReason(ReduceExecution(s, c).state, plan)
  {
    var r := ReduceExecution(s, c);
    Lifecycles.StepShape(s, c);
    if s.status.Planned? && r.state.status.Ready? {
      ReadyOnlyByArm(s, c);
    }
  }

  lemma {:induction false} RunKeepsReason(s: State, cs: seq<Command>, plan: Plan)
    requires ArmedWithReason(s, plan)
    ensures ArmedWithReason(Run(s, cs), plan)
  {
    if cs != [] {
      RunKeepsReason(s, cs[..|cs| - 1], plan);
      StepKeepsReason(Run(s, cs[..|cs| - 1]), cs[|cs| - 1], plan);
    }
  }

  /** On no run does an execution arm unless its intent passed the submit gate. */
  lemma ArmedOnlyIfSubmittable(intent: Intent, kill: bool, healthy: bool, now: int, cs: seq<Command>)
    requires IsArmed(Run(Created(intent, kill, healthy, now), cs).status)
    ensures Plans.CheckSubmittable(intent).None?
  {
    var plan := Plans.PlanFor(intent);
    var start := InitState(intent, Some(plan));
    var planned := ReduceExecution(start, Command.Plan(now)).state;
    StepKeepsReason(start, Command.Plan(now), plan);
    StepKeepsReason(planned, Command.Kill(now), plan);
    StepKeepsReason(planned, Command.RuntimeUnhealthy(now), plan);
    RunKeepsReason(Created(intent, kill, healthy, now), cs, plan);
  }

  // ------------------------------------------------------------------ end to end

  /** The decision's control context was read off the permission evaluated for the same runtime state. */
  predicate SameRuntime(x: DecisionInputs, control: Permissions.ControlInputs, state: RuntimeState) {
    && x.control.state == Some(state)
    && x.control.permission == Some(if Permissions.Permitted(control, Some(state)) then ALLOWED else DENIED)
  }

  /**
   * If an execution ever arms, on any run, then the signal was directional, every permission check held,
   * the runtime was HEALTHY, no kill switch was engaged, risk had not blocked, the data was fresh, and the
   * levels were in order.
   */
  lemma ArmedMeansEverythingHeld(
      x: DecisionInputs, control: Permissions.ControlInputs, state: RuntimeState, planKill: bool, cfg: PlanConfig,
      readiness: Option<real>, mode: Mode, venue: Venue, kill: bool, healthy: bool, now: int, cs: seq<Command>)
    requires SameRuntime(x, control, state) && Increasing(x.multipliers)
    requires var intent := BuildIntent(BuildTradingDecision(x), planKill, cfg, readiness, mode, venue, now);
      IsArmed(Run(Created(intent, kill, healthy, now), cs).status)
    ensures Directional(x) && state.HEALTHY?
    ensures control.database.Healthy? && control.redis.Healthy? && control.quant.Healthy? && control.riskEngineActive
    ensures control.features.lag.Some? && control.features.lag.value <= control.features.stale
    ensures control.signals.lag.Some? && control.signals.lag.value <= control.signals.stale
    ensures control.execution.lag.Some? ==> control.execution.lag.value <= control.execution.stale
    ensures !planKill && !x.control.kill && !control.killEngaged
    ensures RiskOpen(x) && Fresh(x, cfg) && Convincing(x, cfg)
    ensures InOrder(x.direction, BuildTradingDecision(x).levels)
  {
    var intent := BuildIntent(BuildTradingDecision(x), planKill, cfg, readiness, mode, venue, now);
    ArmedOnlyIfSubmittable(intent, kill, healthy, now, cs);
    SubmittableIff(x, planKill, cfg, readiness, mode, venue, now);
    LevelsInOrder(x.direction, x.price, x.atr, x.multipliers);
  }

  /**
   * The statuses alone do not give HEALTHY: with a permission that is not about the current state, an intent
   * that passes the gate still passes it when the runtime has failed.
   */
  lemma StaleAllowanceSurvivesFailure(x: DecisionInputs, kill: bool, cfg: PlanConfig, readiness: Option<real>)
    requires GateOpen(x, kill, cfg, readiness)
    ensures GateOpen(x.(control := x.control.(state := Some(FAILED))), kill, cfg, readiness)
  {}

  predicate GivesHealthy(x: DecisionInputs, control: Permissions.ControlInputs, evaluated: Option<RuntimeState>,
      state: RuntimeState, kill: bool, cfg: PlanConfig, readiness: Option<real>)
  {
    var granted := if Permissions.Permitted(control, evaluated) then ALLOWED else DENIED;
    x.control.state == Some(state) && x.control.permission == Some(granted) && GateOpen(x, kill, cfg, readiness)
    ==> state.HEALTHY?
  }

  /** Whatever the inputs, an open gate means a HEALTHY runtime: permission evaluated for one state, used in another. */
  ghost predicate GuaranteesHealthy(evaluated: Option<RuntimeState>, state: RuntimeState) {
    forall x, control, kill, cfg, readiness :: GivesHealthy(x, control, evaluated, state, kill, cfg, readiness)
  }

  predicate Unnoticed(state: RuntimeState) { state.STOPPED? || state.FAILED? || state.PROTECTED? }

  /** Inputs that open the gate in a state the statuses do not notice. */
  function OpenInputs(state: RuntimeState): DecisionInputs {
    DecisionInputs("s", Direction.Long, 1.0, None, None, 0, Some(1.0), Some(1.0), RiskContext(0.0, 0.0, 0.0, None),
                   ControlContext(Some(ALLOWED), Some(state), false), DEFAULT_MULTIPLIERS)
  }

  function AllGood(): Permissions.ControlInputs {
    Permissions.ControlInputs(
      Permissions.Health.Healthy, Permissions.Health.Healthy, Permissions.Health.Healthy,
      Permissions.Freshness(Some(0.0), 1.0), Permissions.Freshness(Some(0.0), 1.0), Permissions.Freshness(None, 1.0),
      true, false)
  }

  lemma OpenInputsOpen(state: RuntimeState)
    requires Unnoticed(state)
    ensures GateOpen(OpenInputs(state), false, DEFAULT_PLAN_CONFIG, Some(1.0))
  {}

  /**
   * A permission gives HEALTHY exactly when it could not have been granted for the state it was evaluated for,
   * or the current state is none of the three that the decision's statuses let pass.
   */
  lemma HealthyIff(evaluated: Option<RuntimeState>, state: RuntimeState)
    ensures GuaranteesHealthy(evaluated, state) <==>
      (evaluated.Some? && !evaluated.value.HEALTHY?) || !Unnoticed(state)
  {
    if (evaluated.None? || evaluated.value.HEALTHY?) && Unnoticed(state) {
      OpenInputsOpen(state);
      assert !GivesHealthy(OpenInputs(state), AllGood(), evaluated, state, false, DEFAULT_PLAN_CONFIG, Some(1.0));
    }
  }

  // ------------------------------------------------------------------ strong actions

  /** The reward:risk ratio of a plan is that of its multipliers, whatever the price and the range. */
  lemma RatioIsOfMultipliers(x: DecisionInputs)
    requires x.multipliers.stop > 0.0 && x.multipliers.tp1 >= 0.0 && Directional(x) && HasLevels(x)
    ensures RewardRatio(x.direction, x.price, x.atr, x.multipliers)
      == Some(Round(x.multipliers.tp1 / x.multipliers.stop * 100.0) as real / 100.0)
  {
    var a, m := x.atr.value, x.multipliers;
    RatioOfReaches(m.tp1, m.stop, a);
  }

  lemma RatioOfReaches(tp: real, stop: real, a: real)
    requires stop > 0.0 && tp >= 0.0 && a > 0.0
    ensures AbsReal(Reach(stop, a)) > 0.0 && AbsReal(Reach(tp, a)) / AbsReal(Reach(stop, a)) == tp / stop
  {
    ProductOfNonNegatives(tp, a);
    ReachMonotone(0.0, stop, a);
    var q := tp / stop;
    DivideCompare(tp, stop, q);
    assert q * stop == tp;
    assert q * (stop * a) == q * stop * a == tp * a;
    PositiveReach(stop, a);
    DivideCompare(tp * a, stop * a, q);
  }

  lemma PositiveReach(x: real, a: real)
    requires x > 0.0 && a > 0.0
    ensures Reach(x, a) > 0.0
  {}

  predicate IsStrong(a: Action) { a.StrongBuy? || a.StrongSell? }

  function ActionOf(x: DecisionInputs, kill: bool, cfg: PlanConfig): Action {
    var d := BuildTradingDecision(x);
    ActionFor(d.direction, DeriveVerdict(d, kill, cfg))
  }

  /** An action is a strong one exactly when the gate's conditions hold and confidence and reward:risk both suffice. */
  lemma StrongIff(x: DecisionInputs, kill: bool, cfg: PlanConfig)
    requires x.multipliers.stop > 0.0 && x.multipliers.tp1 >= 0.0
    ensures IsStrong(ActionOf(x, kill, cfg)) <==>
      && Directional(x) && HasLevels(x) && ControlOpen(x.control) && !kill && RiskOpen(x) && Fresh(x, cfg)
      && x.confidence >= cfg.strongConfidence
      && Round(x.multipliers.tp1 / x.multipliers.stop * 100.0) as real / 100.0 >= cfg.readyRR
  {
    ActionableIff(x);
    AgeIff(x.now, x.createdAt, cfg.signalStale);
    AgeIff(x.now, x.featureAt, cfg.featureStale);
    if Directional(x) && HasLevels(x) { RatioIsOfMultipliers(x); }
  }

  /** So under the defaults, whose reward:risk is 1 and whose bound is 2, no action is ever a strong one. */
  lemma NeverStrongByDefault(x: DecisionInputs, kill: bool)
    requires x.multipliers == DEFAULT_MULTIPLIERS
    ensures !IsStrong(ActionOf(x, kill, DEFAULT_PLAN_CONFIG))
  {
    StrongIff(x, kill, DEFAULT_PLAN_CONFIG);
    DivideCompare(1.5, 1.5, 1.0);
    RoundOfInteger(100);
  }

  // ------------------------------------------------------------------ the planned loss

  lemma ScaledError(a: real, b: real, e: real, d: real)
    requires AbsReal(a - b) <= e && d >= 0.0
    ensures AbsReal(a * d - b * d) <= e * d
  {
    assert (a - b) * d == a * d - b * d;
    if a >= b {
      ScaledLoose(a - b, e, d);
    } else {
      ScaledLoose(b - a, e, d);
    }
  }

  lemma ScaledLoose(x: real, y: real, d: real)
    requires x <= y && d >= 0.0
    ensures x * d <= y * d
  {}

  /** Two roundings away from the budget: the size to eight decimals, the loss to two. */
  lemma LossError(budget: real, distance: real, qty: real, size: int, loss: int)
    requires distance > 0.0 && qty * distance == budget
    requires size == Round(qty * UNITS) && loss == RoundPrice(size as real / UNITS * distance)
    ensures AbsReal(loss as real / STEPS - budget) <= 0.000000005 * distance + 0.005
  {
    var held := size as real / UNITS;
    SizeError(qty, size);
    ScaledError(held, qty, 0.000000005, distance);
    PriceError(held * distance, loss);
    Triangle(loss as real / STEPS, held * distance, budget, 0.005, 0.000000005 * distance);
  }

  lemma Triangle(x: real, y: real, z: real, d: real, e: real)
    requires AbsReal(x - y) <= d && AbsReal(y - z) <= e
    ensures AbsReal(x - z) <= d + e
  {}

  lemma SizeError(qty: real, size: int)
    requires size == Round(qty * UNITS)
    ensures AbsReal(size as real / UNITS - qty) <= 0.000000005
  {
    RoundIsNearest(qty * UNITS, 0);
  }

  lemma PriceError(x: real, price: int)
    requires price == RoundPrice(x)
    ensures AbsReal(price as real / STEPS - x) <= 0.005
  {
    RoundIsNearest(x * STEPS, 0);
  }

  lemma SizeIs(direction: Direction, entry: Option<int>, stop: Option<int>, risk: RiskContext)
      returns (qty: real, budget: real, distance: real)
    requires ComputeSizing(direction, entry, stop, risk).size.Some?
    ensures entry.Some? && stop.Some? && distance == Distance(entry.value, stop.value) && distance > 0.0
    ensures budget == risk.equity * risk.fraction && qty * distance == budget
    ensures ComputeSizing(direction, entry, stop, risk).size.value == Round(qty * UNITS)
  {
    distance := Distance(entry.value, stop.value);
    budget := risk.equity * risk.fraction;
    qty := Quantity(risk, distance);
    DivideCompare(budget, distance, 0.0);
  }

  /** Whenever a size is available the plan's maximum loss is the risk budget, up to both roundings. */
  lemma PlannedLossMeetsBudget(x: DecisionInputs)
    requires BuildTradingDecision(x).sizing.size.Some?
    ensures var d := BuildTradingDecision(x);
      && d.levels.entry.Some? && d.levels.stop.Some? && MaxLoss(d).Some?
      && AbsReal(MaxLoss(d).value as real / STEPS - x.risk.equity * x.risk.fraction)
         <= 0.000000005 * Distance(d.levels.entry.value, d.levels.stop.value) + 0.005
  {
    LossOfDecision(BuildTradingDecision(x), x.direction, x.risk);
  }

  lemma LossOfDecision(d: Decision, direction: Direction, risk: RiskContext)
    requires d.sizing == ComputeSizing(direction, d.levels.entry, d.levels.stop, risk) && d.sizing.size.Some?
    ensures d.levels.entry.Some? && d.levels.stop.Some? && MaxLoss(d).Some?
    ensures AbsReal(MaxLoss(d).value as real / STEPS - risk.equity * risk.fraction)
      <= 0.000000005 * Distance(d.levels.entry.value, d.levels.stop.value) + 0.005
  {
    var qty, budget, distance := SizeIs(direction, d.levels.entry, d.levels.stop, risk);
    LossError(budget, distance, qty, d.sizing.size.value, MaxLoss(d).value);
  }
}
