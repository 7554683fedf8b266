/** What the audit trail says of each step, and what the failure on a state says of its end. */
module AuditTrail {
  import opened Wrappers
  import opened ExecutionTypes
  import opened Orders
  import opened Reducer
  import opened Lifecycles
  import Plans

  /** The kind, entity and source of an event, by the status it leads to. */
  predicate Names(e: Event) {
    match e.next
    case NotCreated => false
    case Planned => e.kind.Planned? && e.entity.PlanEntity? && e.source.ExecutionCore?
    case Ready => e.kind.Armed? && e.entity.ExecutionEntity? && e.source.ExecutionCore?
    case Submitted => e.kind.Submitted? && e.entity.ExecutionEntity? && e.source.ExecutionCore?
    case Acknowledged => e.kind.Acknowledged? && e.entity.ExecutionEntity? && e.source.ExecutionCore?
    case PartiallyFilled => e.kind.PartiallyFilled? && e.entity.OrderEntity? && e.source.ExecutionCore?
    case Filled => e.kind.Filled? && e.entity.OrderEntity? && e.source.ExecutionCore?
    case Open => e.kind.Opened? && e.entity.PositionEntity? && e.source.ExecutionCore?
    case Reducing => e.kind.Reduced? && e.entity.PositionEntity? && e.source.ExecutionCore?
    case Closed => e.kind.Closed? && e.entity.PositionEntity? && e.source.ExecutionCore?
    case Rejected => e.kind.Rejected? && e.entity.ExecutionEntity? && e.source.ExecutionCore?
    case Expired => e.kind.Expired? && e.entity.ExecutionEntity? && e.source.ExecutionCore?
    case Cancelled =>
      && e.entity.ExecutionEntity?
      && if e.source.KillSwitch? then e.kind.Killed? else e.kind.Cancelled? && e.source.ExecutionCore?
    case Failed => e.kind.Failed? && e.entity.ExecutionEntity? && !e.source.KillSwitch?
  }

  /** The failure on a state tells how it ended, if it ended other than by closing. */
  predicate FailureTells(status: Status, failure: Option<Failure>, last: Event) {
    match status
    case Cancelled =>
      && failure.Some? && !failure.value.fatal && failure.value.at == last.ts
      && failure.value.reason == if last.source.KillSwitch? then FailureReason.KillSwitch else FailureReason.Cancelled
    case Failed =>
      && failure.Some? && failure.value.fatal && failure.value.at == last.ts
      && failure.value.reason == if last.source.Runtime? then FailureReason.RuntimeUnhealthy else FailureReason.Failed
    case Rejected => failure == Some(Failure(FailureReason.Rejected, last.ts, true))
    case Expired => failure == Some(Failure(FailureReason.Expired, last.ts, false))
    case _ => failure.None?
  }

  ghost predicate StepTells(s: State, c: Command, r: Result) {
    r.event.Some? && Names(r.event.value)
    && (s.failure.None? ==> FailureTells(r.state.status, r.state.failure, r.event.value))
    && (r.event.value.source.KillSwitch? <==> c.Kill?)
    && (r.event.value.source.Runtime? <==> c.RuntimeUnhealthy?)
  }

  lemma FillTells(s: State, c: Command)
    requires c.Fill? && ReduceFill(s, c.orderId, c.price, c.quantity, c.at).ok
    ensures StepTells(s, c, ReduceFill(s, c.orderId, c.price, c.quantity, c.at))
  {
  }

  lemma StopTells(s: State, c: Command)
    requires c.Kill? || c.RuntimeUnhealthy? || c.Cancel? || c.Reject? || c.Expire? || c.Fail?
    requires ReduceExecution(s, c).ok
    ensures StepTells(s, c, ReduceExecution(s, c))
  {
  }

  lemma AdvanceTells(s: State, c: Command)
    requires c.Plan? || c.Arm? || c.Submit? || c.Acknowledge?
    requires ReduceExecution(s, c).ok
    ensures StepTells(s, c, ReduceExecution(s, c))
  {
  }

  lemma PositionTells(s: State, c: Command)
    requires c.Open? || c.Reduce? || c.Close?
    requires ReduceExecution(s, c).ok
    ensures StepTells(s, c, ReduceExecution(s, c))
  {
  }

  /** An accepted command leaves an event and a failure that tell what it did. */
  lemma CommandTells(s: State, c: Command)
    requires ReduceExecution(s, c).ok
    ensures StepTells(s, c, ReduceExecution(s, c))
  {
    match c
    case Fill(_, _, _, _) => FillTells(s, c);
    case Plan(_) | Arm(_) | Submit(_) | Acknowledge(_) => AdvanceTells(s, c);
    case Open(_) | Reduce(_, _) | Close(_) => PositionTells(s, c);
    case _ => StopTells(s, c);
  }

  predicate GivenOr(reason: Option<Note>, default: Note, said: Note) {
    if reason.Some? then said == reason.value else said == default
  }

  predicate HasRole(os: seq<Order>, id: OrderId, role: Role) {
    exists i :: 0 <= i < |os| && os[i].id == id && os[i].role == role
  }

  /** What an event gives as its reason, by the command and the status it leads to. */
  predicate Says(s: State, c: Command, to: Status, said: Note) {
    match c
    case Plan(_) => said == PlannedFromDecision
    case Arm(_) => said == GatesPass
    case Submit(_) => said == OrdersSubmitted
    case Acknowledge(_) => said == VenueAcknowledged
    case Fill(_, id, _, _) =>
      && (to.PartiallyFilled? ==> said == EntryPartiallyFilled)
      && (to.Filled? ==> said == EntryFilled)
      && (to.Reducing? ==> said.ProtectiveReduced? && HasRole(s.orders, id, said.role))
      && (to.Closed? ==> said.ProtectiveClosed? && HasRole(s.orders, id, said.role))
    case Open(_) => said == OpenedFromEntry
    case Reduce(_, _) => said == if to.Closed? then PositionFullyReduced else PositionReduced
    case Close(_) => said == PositionClosed
    case Cancel(_, reason) => GivenOr(reason, ExecutionCancelled, said)
    case Reject(_, reason) => GivenOr(reason, ExecutionRejected, said)
    case Expire(_) => said == ExecutionExpired
    case Fail(_, reason) => GivenOr(reason, ExecutionFailed, said)
    case Kill(_) => said == KillEngaged
    case RuntimeUnhealthy(_) => said == RuntimeBad
  }

  lemma FillSays(s: State, c: Command)
    requires c.Fill? && ReduceFill(s, c.orderId, c.price, c.quantity, c.at).ok
    ensures var e := ReduceFill(s, c.orderId, c.price, c.quantity, c.at).event;
      e.Some? && Says(s, c, e.value.next, e.value.reason)
  {
    var i := IndexOfOrder(s.orders, c.orderId);
    if i.Some? { assert HasRole(s.orders, c.orderId, s.orders[i.value].role); }
  }

  lemma MoveSays(s: State, c: Command)
    requires !c.Fill? && ReduceExecution(s, c).ok
    ensures var e := ReduceExecution(s, c).event; e.Some? && Says(s, c, e.value.next, e.value.reason)
  {
  }

  /** Every accepted command says why. */
  lemma CommandSays(s: State, c: Command)
    requires ReduceExecution(s, c).ok
    ensures var e := ReduceExecution(s, c).event; e.Some? && Says(s, c, e.value.next, e.value.reason)
  {
    if c.Fill? { FillSays(s, c); } else { MoveSays(s, c); }
  }

  /** The whole trail names every step, and its last event goes with the failure. */
  ghost predicate TrailTells(s: State) {
    && (forall i :: 0 <= i < |s.audit.events| ==> Names(s.audit.events[i]))
    && if s.audit.events == [] then s.failure.None?
       else FailureTells(s.status, s.failure, s.audit.events[|s.audit.events| - 1])
  }

  /** On every reducer run the trail tells each step, and the failure how the execution ended. */
  lemma {:induction false} RunsTell(intent: Intent, plan: Option<Plan>, cs: seq<Command>)
    ensures TrailTells(Run(InitState(intent, plan), cs))
    decreases |cs|
  {
    if cs != [] {
      var s, c := Run(InitState(intent, plan), cs[..|cs| - 1]), cs[|cs| - 1];
      RunsTell(intent, plan, cs[..|cs| - 1]);
      StepShape(s, c);
      if ReduceExecution(s, c).ok { CommandTells(s, c); }
    }
  }
}
