/** Every status and action of a decision, by the inputs it was made from. */
module Verdicts {
  import opened Wrappers
  import opened Decimal
  import opened ExecutionTypes
  import opened Decisions
  import opened Gate

  // ------------------------------------------------------------------ statuses

  predicate ControlShut(c: ControlContext) { c.kill || c.permission == Some(DENIED) }

  predicate ControlGiven(c: ControlContext) { !c.kill && c.permission == Some(ALLOWED) }

  /** The state machine stands still in a way that does not resolve itself. */
  predicate Halted(state: RuntimeState) { state.STOPPED? || state.FAILED? || state.PROTECTED? }

  /** The control and execution statuses, for each context. */
  lemma ControlIs(x: DecisionInputs)
    ensures var d := BuildTradingDecision(x);
      && (d.control.ControlBlocked? <==> ControlShut(x.control))
      && (d.control.ControlAllowed? <==> ControlGiven(x.control))
      && (d.control.ControlUnknown? <==> !x.control.kill && x.control.permission.None?)
      && (d.execution.ExecutionReady? <==> ControlGiven(x.control) && x.control.state == Some(HEALTHY))
      && (d.execution.ExecutionBlocked? <==>
            || ControlShut(x.control)
            || (ControlGiven(x.control) && x.control.state.Some? && Halted(x.control.state.value)))
      && (d.execution.ExecutionUnknown? <==> d.control.ControlUnknown?)
  {
  }

  /** The risk status: blocked by mode or by size, and otherwise by what there is to check. */
  lemma RiskIs(x: DecisionInputs)
    ensures var d := BuildTradingDecision(x);
      && (d.risk.RiskBlocked? <==> !RiskOpen(x))
      && (d.risk.RiskNotApplicable? <==> RiskOpen(x) && x.direction.Flat?)
      && (d.risk.RiskUnknown? <==> RiskOpen(x) && Directional(x) && d.sizing.notional.None?)
      && (d.risk.RiskApproved? <==> RiskOpen(x) && Directional(x) && d.sizing.notional.Some?)
  {
  }

  /** Something forbids the trade: control or risk. */
  predicate Barred(x: DecisionInputs) { ControlShut(x.control) || !RiskOpen(x) }

  /** Control has not decided, or the runtime is on its way. */
  predicate Pending(c: ControlContext) {
    c.permission.None? || c.state.None? || !(c.state.value.HEALTHY? || Halted(c.state.value))
  }

  /** The overall status, first reason first. */
  lemma OverallIs(x: DecisionInputs)
    ensures var d := BuildTradingDecision(x);
      && (d.overall.NO_TRADE? <==> x.direction.Flat?)
      && (d.overall.BLOCKED? <==> Directional(x) && Barred(x))
      && (d.overall.WAITING? <==> Directional(x) && !Barred(x) && Pending(x.control))
      && (d.overall.INCOMPLETE? <==> Directional(x) && !Barred(x) && !Pending(x.control) && !HasLevels(x))
      && (d.overall.ACTIONABLE? <==> Directional(x) && !Barred(x) && !Pending(x.control) && HasLevels(x))
  {
    RiskIs(x);
  }

  // ------------------------------------------------------------------ actions

  predicate Confident(x: DecisionInputs, cfg: PlanConfig) { x.confidence >= cfg.strongConfidence }

  predicate Rewarding(x: DecisionInputs, cfg: PlanConfig) {
    var rr := BuildTradingDecision(x).rr;
    rr.Some? && rr.value >= cfg.readyRR
  }

  /** Everything is open and the data are fresh: an action other than waiting is due. */
  predicate Due(x: DecisionInputs, kill: bool, cfg: PlanConfig) {
    Directional(x) && !kill && !Barred(x) && !Pending(x.control) && HasLevels(x) && Fresh(x, cfg)
  }

  lemma VerdictIs(x: DecisionInputs, kill: bool, cfg: PlanConfig)
    ensures var v := DeriveVerdict(BuildTradingDecision(x), kill, cfg);
      && (v.noTrade || v.hardBlocked <==> x.direction.Flat? || kill || Barred(x))
      && (v.actionable && !v.stale && !v.noTrade && !v.hardBlocked <==> Due(x, kill, cfg))
      && (v.strong <==> Confident(x, cfg) && Rewarding(x, cfg))
      && (v.good <==> Confident(x, cfg) != Rewarding(x, cfg))
  {
    ControlIs(x);
    RiskIs(x);
    OverallIs(x);
    AgeIff(x.now, x.createdAt, cfg.signalStale);
    AgeIff(x.now, x.featureAt, cfg.featureStale);
  }

  /** Each action, exactly: both good reasons make it a strong one, one a plain one, none only worth watching. */
  lemma ActionIs(x: DecisionInputs, kill: bool, cfg: PlanConfig)
    ensures var a, due, good := ActionOf(x, kill, cfg), Due(x, kill, cfg), (Confident(x, cfg), Rewarding(x, cfg));
      && (a.NoTrade? <==> x.direction.Flat? || kill || Barred(x))
      && (a.Wait? <==> Directional(x) && !kill && !Barred(x) && !due)
      && (a.Watch? <==> due && good == (false, false))
      && (a.Buy? <==> due && x.direction.Long? && good.0 != good.1)
      && (a.Sell? <==> due && x.direction.Short? && good.0 != good.1)
      && (a.StrongBuy? <==> due && x.direction.Long? && good == (true, true))
      && (a.StrongSell? <==> due && x.direction.Short? && good == (true, true))
  {
    VerdictIs(x, kill, cfg);
  }

  /** What the intent says of the verdict. */
  lemma IntentActs(x: DecisionInputs, kill: bool, cfg: PlanConfig, readiness: Option<real>, mode: Mode, venue: Venue,
      now: int)
    ensures var i := BuildIntent(BuildTradingDecision(x), kill, cfg, readiness, mode, venue, now);
      && i.action == ActionOf(x, kill, cfg)
      && (i.canTrade <==> BuildTradingDecision(x).overall.ACTIONABLE? && !kill)
      && (i.shouldTrade <==> Due(x, kill, cfg) && (Confident(x, cfg) || Rewarding(x, cfg)))
  {
    ActionIs(x, kill, cfg);
    VerdictIff(x, kill, cfg);
    ActionableIff(x);
  }
}
