/** packages/execution-core/src/state.ts, audit.ts and execution.ts: the reducer. */
module Reducer {
  import opened Wrappers
  import opened Decimal
  import opened ExecutionTypes
  import opened Orders
  import opened Positions
  import Plans

  predicate IsTerminal(s: Status) {
    s.Closed? || s.Rejected? || s.Expired? || s.Cancelled? || s.Failed?
  }

  /** EXEC_TRANSITIONS. */
  predicate CanTransition(from: Status, to: Status) {
    match from
    case NotCreated => to.Planned? || to.Rejected? || to.Cancelled? || to.Failed?
    case Planned => to.Ready? || to.Rejected? || to.Expired? || to.Cancelled? || to.Failed?
    case Ready => to.Submitted? || to.Rejected? || to.Expired? || to.Cancelled? || to.Failed?
    case Submitted => to.Acknowledged? || to.Rejected? || to.Expired? || to.Cancelled? || to.Failed?
    case Acknowledged =>
      to.PartiallyFilled? || to.Filled? || to.Rejected? || to.Expired? || to.Cancelled? || to.Failed?
    case PartiallyFilled => to.PartiallyFilled? || to.Filled? || to.Cancelled? || to.Failed?
    case Filled => to.Open? || to.Cancelled? || to.Failed?
    case Open => to.Reducing? || to.Closed? || to.Cancelled? || to.Failed?
    case Reducing => to.Reducing? || to.Open? || to.Closed? || to.Cancelled? || to.Failed?
    case _ => false
  }

  function InitState(intent: Intent, plan: Option<Plan>): State {
    State(
      Status.NotCreated,
      intent,
      plan,
      match plan case None => [] case Some(p) => p.orders,
      [],
      EmptyPosition(intent),
      Lifecycle(Status.NotCreated, [Status.NotCreated], false),
      Audit([], 0),
      None,
      0,
      intent.createdAt,
      intent.createdAt)
  }

  function AppendEvent(a: Audit, e: Event): Audit {
    Audit(a.events + [e], |a.events| + 1)
  }

  /** What a transition changes besides the status, the lifecycle, the audit and the clock. */
  datatype Patch = Patch(orders: seq<Order>, fills: seq<FillRecord>, position: Position, failure: Option<Failure>)

  function Same(s: State): Patch { Patch(s.orders, s.fills, s.position, s.failure) }

  /** `commit`: one transition, one audit event. */
  function Commit(s: State, to: Status, kind: EventKind, entity: Entity, source: Source, reason: Note, at: int,
      p: Patch): Result
  {
    var event := Event(s.seqNo + 1, entity, kind, s.status, to, source, Provenance.Derived, reason, at);
    var next := State(
      to, s.intent, s.plan, p.orders, p.fills, p.position,
      Lifecycle(to, s.lifecycle.history + [to], IsTerminal(to)),
      AppendEvent(s.audit, event),
      p.failure, s.seqNo + 1, at, at);
    Result(true, next, Some(event), p.failure)
  }

  /** `reject`: no event, no sequence advance, the same state. */
  function Refuse(s: State, reason: FailureReason, at: int): Result {
    Result(false, s, None, Some(Failure(reason, at, false)))
  }

  function BlockedReason(s: State): FailureReason {
    if s.plan.Some? && s.plan.value.blockedReason.Some? then s.plan.value.blockedReason.value else FailureReason.NoPlan
  }

  function ReasonOr(given: Option<Note>, default: Note): Note {
    match given case Some(n) => n case None => default
  }

  /** KILL and CANCEL force-close a live position; other exits leave it. */
  function ClosedIfLive(s: State, at: int): Position {
    if IsLive(s.position) then ClosePosition(s.position, at) else s.position
  }

  function ReduceExecution(s: State, c: Command): Result {
    if IsTerminal(s.status) then Refuse(s, FailureReason.IllegalTransition, c.at) else
    match c
    case Kill(at) =>
      Commit(s, Status.Cancelled, EventKind.Killed, ExecutionEntity, Source.KillSwitch, KillEngaged, at,
             Patch(TransitionAll(s.orders, OrderStatus.Cancelled, at), s.fills, ClosedIfLive(s, at),
                   Some(Failure(FailureReason.KillSwitch, at, false))))
    case RuntimeUnhealthy(at) =>
      Commit(s, Status.Failed, EventKind.Failed, ExecutionEntity, Source.Runtime, RuntimeBad, at,
             Patch(TransitionAll(s.orders, OrderStatus.Failed, at), s.fills, s.position,
                   Some(Failure(FailureReason.RuntimeUnhealthy, at, true))))
    case Plan(at) =>
      if !CanTransition(s.status, Status.Planned) then Refuse(s, FailureReason.IllegalTransition, at)
      else if s.plan.None? then Refuse(s, FailureReason.NoPlan, at)
      else Commit(s, Status.Planned, EventKind.Planned, PlanEntity, Source.ExecutionCore, PlannedFromDecision, at,
          Same(s))
    case Arm(at) =>
      if !CanTransition(s.status, Status.Ready) then Refuse(s, FailureReason.IllegalTransition, at)
      else if s.plan.None? || !s.plan.value.submittable then Refuse(s, BlockedReason(s), at)
      else Commit(s, Status.Ready, EventKind.Armed, ExecutionEntity, Source.ExecutionCore, GatesPass, at,
                  Same(s).(orders := TransitionAll(s.orders, OrderStatus.Ready, at)))
    case Submit(at) =>
      if !CanTransition(s.status, Status.Submitted) then Refuse(s, FailureReason.IllegalTransition, at)
      else if s.plan.None? || !s.plan.value.submittable then Refuse(s, BlockedReason(s), at)
      else Commit(s, Status.Submitted, EventKind.Submitted, ExecutionEntity, Source.ExecutionCore, OrdersSubmitted, at,
                  Same(s).(orders := TransitionAll(s.orders, OrderStatus.Submitted, at)))
    case Acknowledge(at) =>
      if !CanTransition(s.status, Status.Acknowledged) then Refuse(s, FailureReason.IllegalTransition, at)
      else Commit(s, Status.Acknowledged, EventKind.Acknowledged, ExecutionEntity, Source.ExecutionCore,
          VenueAcknowledged, at,
                  Same(s).(orders := TransitionAll(s.orders, OrderStatus.Acknowledged, at)))
    case Fill(at, id, price, quantity) =>
      ReduceFill(s, id, price, quantity, at)
    case Open(at) =>
      var entry := IndexOfEntry(s.orders);
      if !CanTransition(s.status, Status.Open) then Refuse(s, FailureReason.IllegalTransition, at)
      else if entry.None? || s.orders[entry.value].filled <= 0 then Refuse(s, FailureReason.MissingEntry, at)
      else
        var o := s.orders[entry.value];
        Commit(s, Status.Open, EventKind.Opened, PositionEntity, Source.ExecutionCore, OpenedFromEntry, at,
               Same(s).(position := OpenPosition(s.intent, o.filled, o.avgFillPrice, at)))
    case Reduce(at, quantity) =>
      if !CanTransition(s.status, Status.Reducing) || !IsLive(s.position)
          then Refuse(s, FailureReason.IllegalTransition, at)
      else
        var p := ReducePosition(s.position, quantity, at);
        if p.status == PositionStatus.Closed then
          Commit(s, Status.Closed, EventKind.Closed, PositionEntity, Source.ExecutionCore, PositionFullyReduced, at,
              Same(s).(position := p))
        else
          Commit(s, Status.Reducing, EventKind.Reduced, PositionEntity, Source.ExecutionCore, PositionReduced, at,
              Same(s).(position := p))
    case Close(at) =>
      if !CanTransition(s.status, Status.Closed) then Refuse(s, FailureReason.IllegalTransition, at)
      else Commit(s, Status.Closed, EventKind.Closed, PositionEntity, Source.ExecutionCore, PositionClosed, at,
                  Patch(TransitionAll(s.orders, OrderStatus.Cancelled, at), s.fills, ClosePosition(s.position, at),
                      s.failure))
    case Cancel(at, reason) =>
      if !CanTransition(s.status, Status.Cancelled) then Refuse(s, FailureReason.IllegalTransition, at)
      else Commit(s, Status.Cancelled, EventKind.Cancelled, ExecutionEntity, Source.ExecutionCore,
          ReasonOr(reason, ExecutionCancelled), at,
                  Patch(TransitionAll(s.orders, OrderStatus.Cancelled, at), s.fills, ClosedIfLive(s, at),
                        Some(Failure(FailureReason.Cancelled, at, false))))
    case Reject(at, reason) =>
      if !CanTransition(s.status, Status.Rejected) then Refuse(s, FailureReason.IllegalTransition, at)
      else Commit(s, Status.Rejected, EventKind.Rejected, ExecutionEntity, Source.ExecutionCore,
          ReasonOr(reason, ExecutionRejected), at,
                  Patch(TransitionAll(s.orders, OrderStatus.Rejected, at), s.fills, s.position,
                        Some(Failure(FailureReason.Rejected, at, true))))
    case Expire(at) =>
      if !CanTransition(s.status, Status.Expired) then Refuse(s, FailureReason.IllegalTransition, at)
      else Commit(s, Status.Expired, EventKind.Expired, ExecutionEntity, Source.ExecutionCore, ExecutionExpired, at,
                  Patch(TransitionAll(s.orders, OrderStatus.Expired, at), s.fills, s.position,
                        Some(Failure(FailureReason.Expired, at, false))))
    case Fail(at, reason) =>
      if !CanTransition(s.status, Status.Failed) then Refuse(s, FailureReason.IllegalTransition, at)
      else Commit(s, Status.Failed, EventKind.Failed, ExecutionEntity, Source.ExecutionCore,
          ReasonOr(reason, ExecutionFailed), at,
                  Patch(TransitionAll(s.orders, OrderStatus.Failed, at), s.fills, s.position,
                        Some(Failure(FailureReason.Failed, at, true))))
  }

  function FillPatch(s: State, i: nat, price: real, quantity: real, at: int): Patch
    requires i < |s.orders|
  {
    var o := s.orders[i];
    var filled := ApplyFillToOrder(o, price, quantity, at);
    var record := MakeFill(o, CountFills(s.fills, o.id), price, quantity, filled.filled, at);
    Same(s).(orders := ReplaceOrder(s.orders, o.id, filled), fills := s.fills + [record])
  }

  function ReduceFill(s: State, id: OrderId, price: real, quantity: real, at: int): Result {
    var i := IndexOfOrder(s.orders, id);
    if i.None? then Refuse(s, FailureReason.ValidationFailed, at)
    else if quantity <= 0.0 then Refuse(s, FailureReason.ValidationFailed, at)
    else
      var o := s.orders[i.value];
      var patch := FillPatch(s, i.value, price, quantity, at);
      if o.role == Role.Entry then
        if ApplyFillToOrder(o, price, quantity, at).status == OrderStatus.Filled then
          if !CanTransition(s.status, Status.Filled) then Refuse(s, FailureReason.IllegalTransition, at)
          else Commit(s, Status.Filled, EventKind.Filled, OrderEntity(o.id), Source.ExecutionCore, EntryFilled, at,
              patch)
        else
          if !CanTransition(s.status, Status.PartiallyFilled) then Refuse(s, FailureReason.IllegalTransition, at)
          else Commit(s, Status.PartiallyFilled, EventKind.PartiallyFilled, OrderEntity(o.id), Source.ExecutionCore,
              EntryPartiallyFilled, at, patch)
      else if !IsLive(s.position) then Refuse(s, FailureReason.IllegalTransition, at)
      else
        var p := ReducePosition(s.position, quantity, at);
        if p.status == PositionStatus.Closed then
          if !CanTransition(s.status, Status.Closed) then Refuse(s, FailureReason.IllegalTransition, at)
          else Commit(s, Status.Closed, EventKind.Closed, PositionEntity, Source.ExecutionCore,
              ProtectiveClosed(o.role), at, patch.(position := p))
        else
          if !CanTransition(s.status, Status.Reducing) then Refuse(s, FailureReason.IllegalTransition, at)
          else Commit(s, Status.Reducing, EventKind.Reduced, PositionEntity, Source.ExecutionCore,
              ProtectiveReduced(o.role), at, patch.(position := p))
  }

  // ------------------------------------------------------------------ runs

  /** The state after a list of commands; a refused command leaves the state as it was. */
  function Run(s: State, cs: seq<Command>): State {
    if cs == [] then s else ReduceExecution(Run(s, cs[..|cs| - 1]), cs[|cs| - 1]).state
  }

  /** What reduceSequence computes: stop at the first refusal. */
  function SequenceFrom(cur: Result, cs: seq<Command>): Result
    decreases |cs|
  {
    if cs == [] then cur
    else
      var r := ReduceExecution(cur.state, cs[0]);
      if r.ok then SequenceFrom(r, cs[1..]) else r
  }

  function Start(s: State): Result { Result(true, s, None, s.failure) }

  method ReduceSequence(s: State, cs: seq<Command>) returns (cur: Result)
    ensures cur == SequenceFrom(Start(s), cs)
  {
    cur := Start(s);
    for i := 0 to |cs|
      invariant SequenceFrom(Start(s), cs) == SequenceFrom(cur, cs[i..])
    {
      cur := ReduceExecution(cur.state, cs[i]);
      if !cur.ok {
        return;
      }
      assert cs[i..][1..] == cs[i + 1..];
    }
  }

  /** createExecution with a decision and a plan present: plan, then the operational stops. */
  function Created(intent: Intent, killEngaged: bool, runtimeHealthy: bool, now: int): State {
    var planned := ReduceExecution(InitState(intent, Some(Plans.PlanFor(intent))), Command.Plan(now)).state;
    if killEngaged then ReduceExecution(planned, Command.Kill(now)).state
    else if !runtimeHealthy then ReduceExecution(planned, Command.RuntimeUnhealthy(now)).state
    else planned
  }

  /** validateInput: the reason for which nothing is created. */
  function InputFailure(hasDecision: bool, hasPlan: bool): Option<FailureReason> {
    if !hasDecision then Some(FailureReason.NoDecision) else if !hasPlan then Some(FailureReason.NoPlan) else None
  }

  /** Planning always succeeds, and so does the stop that may follow it. */
  lemma PlanningSucceeds(intent: Intent, now: int)
    ensures var r := ReduceExecution(InitState(intent, Some(Plans.PlanFor(intent))), Command.Plan(now));
      r.ok && r.state.status.Planned? && |r.state.audit.events| == 1
  {
  }

  lemma StoppingSucceeds(s: State, c: Command)
    requires !IsTerminal(s.status) && (c.Kill? || c.RuntimeUnhealthy?)
    ensures var r := ReduceExecution(s, c);
      && r.ok && r.state.status == (if c.Kill? then Status.Cancelled else Status.Failed)
      && |r.state.audit.events| == |s.audit.events| + 1
  {
  }

  /** createExecution; the intent is the one built from the decision and the plan when both are there. */
  method CreateExecution(hasDecision: bool, hasPlan: bool, intent: Intent, killEngaged: bool, runtimeHealthy: bool,
      now: int)
    returns (ok: bool, state: Option<State>, failure: Option<Failure>)
    ensures ok <==> hasDecision && hasPlan
    ensures ok ==> state == Some(Created(intent, killEngaged, runtimeHealthy, now)) && failure == state.value.failure
    ensures ok ==>
      state.value.status == if killEngaged then Status.Cancelled else if runtimeHealthy then Status.Planned
          else Status.Failed
    ensures ok ==> |state.value.audit.events| == if killEngaged || !runtimeHealthy then 2 else 1
    ensures !ok ==> state.None? && failure == Some(Failure(if hasDecision then NoPlan else NoDecision, now, true))
  {
    var reason := InputFailure(hasDecision, hasPlan);
    if reason.Some? {
      return false, None, Some(Failure(reason.value, now, true));
    }
    var plan := Plans.BuildExecutionPlan(intent);
    var result := ReduceExecution(InitState(intent, Some(plan)), Command.Plan(now));
    PlanningSucceeds(intent, now);
    StoppingSucceeds(result.state, Command.Kill(now));
    StoppingSucceeds(result.state, Command.RuntimeUnhealthy(now));
    if killEngaged {
      result := ReduceExecution(result.state, Command.Kill(now));
    } else if !runtimeHealthy {
      result := ReduceExecution(result.state, Command.RuntimeUnhealthy(now));
    }
    return result.ok, Some(result.state), result.state.failure;
  }
}
