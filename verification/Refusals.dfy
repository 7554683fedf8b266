/** Why a command is refused, by the core and by the adapter. */
module Refusals {
  import opened Wrappers
  import opened ExecutionTypes
  import opened Orders
  import opened Positions
  import opened Reducer
  import opened Lifecycles
  import opened Adapter
  import opened AdapterLog
  import opened AdapterAccepts
  import opened AdapterRuns
  import Plans

  // ------------------------------------------------------------------ the submit gate

  /** The reason names what is missing, and what is asked for before it is there. */
  lemma GateReason(intent: Intent)
    ensures var r := Plans.CheckSubmittable(intent);
      var allowed := !intent.action.NoTrade? && intent.canTrade && intent.shouldTrade;
      && (r == Some(FailureReason.Blocked) <==> !allowed)
      && (r == Some(FailureReason.MissingReadiness) <==> allowed && intent.readinessScore.None?)
      && (r == Some(FailureReason.MissingEntry) <==> allowed && intent.readinessScore.Some? && intent.entry.None?)
      && (r == Some(FailureReason.MissingStop) <==>
            allowed && intent.readinessScore.Some? && intent.entry.Some? && intent.stop.None?)
      && (r == Some(FailureReason.MissingTarget) <==>
            allowed && intent.readinessScore.Some? && intent.entry.Some? && intent.stop.Some? && intent.targets == [])
      && (r == None <==>
            allowed && intent.readinessScore.Some? && intent.entry.Some? && intent.stop.Some? && intent.targets != [])
  {
  }

  // ------------------------------------------------------------------ the core

  /** The statuses from which each command can be accepted at all. */
  predicate InPlace(s: Status, c: Command) {
    match c
    case Plan(_) => s.NotCreated?
    case Arm(_) => s.Planned?
    case Submit(_) => s.Ready?
    case Acknowledge(_) => s.Submitted?
    case Fill(_, _, _, _) => s.Acknowledged? || s.PartiallyFilled? || s.Open? || s.Reducing?
    case Open(_) => s.Filled? || s.Reducing?
    case Reduce(_, _) | Close(_) => s.Open? || s.Reducing?
    case Reject(_, _) =>
      s.NotCreated? || s.Planned? || s.Ready? || s.Submitted? || s.Acknowledged?
    case Expire(_) => s.Planned? || s.Ready? || s.Submitted? || s.Acknowledged?
    case Cancel(_, _) | Fail(_, _) | Kill(_) | RuntimeUnhealthy(_) =>
      !s.Closed? && !s.Rejected? && !s.Expired? && !s.Cancelled? && !s.Failed?
  }

  /** Why the core refuses a command other than a fill. */
  function Expected(s: State, c: Command): FailureReason {
    if !InPlace(s.status, c) then FailureReason.IllegalTransition
    else
      match c
      case Plan(_) => FailureReason.NoPlan
      case Arm(_) | Submit(_) =>
        if s.plan.Some? && s.plan.value.blockedReason.Some? then s.plan.value.blockedReason.value
        else FailureReason.NoPlan
      case Open(_) => FailureReason.MissingEntry
      case _ => FailureReason.IllegalTransition
  }

  lemma AdvanceRefusal(s: State, c: Command)
    requires (c.Plan? || c.Arm? || c.Submit? || c.Acknowledge? || c.Open?) && !ReduceExecution(s, c).ok
    ensures ReduceExecution(s, c).failure == Some(Failure(Expected(s, c), c.at, false))
  {
  }

  lemma OtherRefusal(s: State, c: Command)
    requires !(c.Plan? || c.Arm? || c.Submit? || c.Acknowledge? || c.Open? || c.Fill?) && !ReduceExecution(s, c).ok
    ensures ReduceExecution(s, c).failure == Some(Failure(Expected(s, c), c.at, false))
  {
  }

  predicate HasOrder(s: State, id: OrderId) { exists i :: 0 <= i < |s.orders| && s.orders[i].id == id }

  /** A fill of an unknown order or of nothing is invalid, any other out of place. */
  lemma FillRefusal(s: State, c: Command)
    requires c.Fill? && !ReduceExecution(s, c).ok
    ensures ReduceExecution(s, c).failure == Some(Failure(
      if !IsTerminal(s.status) && (!HasOrder(s, c.orderId) || c.quantity <= 0.0) then FailureReason.ValidationFailed
      else FailureReason.IllegalTransition, c.at, false))
  {
    var i := IndexOfOrder(s.orders, c.orderId);
    if i.Some? { assert HasOrder(s, c.orderId); }
  }

  /** What the core says when it refuses. */
  lemma CoreRefusal(s: State, c: Command)
    requires !ReduceExecution(s, c).ok && !c.Fill?
    ensures ReduceExecution(s, c).failure == Some(Failure(Expected(s, c), c.at, false))
  {
    if c.Plan? || c.Arm? || c.Submit? || c.Acknowledge? || c.Open? {
      AdvanceRefusal(s, c);
    } else {
      OtherRefusal(s, c);
    }
  }

  /** What a command in its place still needs. */
  predicate HasNeeds(s: State, c: Command) {
    match c
    case Plan(_) => s.plan.Some?
    case Arm(_) | Submit(_) => s.plan.Some? && s.plan.value.submittable
    case Open(_) =>
      var entry := IndexOfEntry(s.orders);
      entry.Some? && entry.value < |s.orders| && s.orders[entry.value].filled > 0
    case Reduce(_, _) => s.position.status.Open? || s.position.status.Reducing?
    case _ => true
  }

  lemma AdvanceAcceptsIff(s: State, c: Command)
    requires c.Plan? || c.Arm? || c.Submit? || c.Acknowledge? || c.Open?
    ensures ReduceExecution(s, c).ok <==> InPlace(s.status, c) && HasNeeds(s, c)
  {
  }

  lemma OtherAcceptsIff(s: State, c: Command)
    requires !(c.Plan? || c.Arm? || c.Submit? || c.Acknowledge? || c.Open? || c.Fill?)
    ensures ReduceExecution(s, c).ok <==> InPlace(s.status, c) && HasNeeds(s, c)
  {
  }

  /** Exactly when a command other than a fill is accepted: in its place, and with what it needs. */
  lemma CoreAcceptsIff(s: State, c: Command)
    requires !c.Fill?
    ensures ReduceExecution(s, c).ok <==> InPlace(s.status, c) && HasNeeds(s, c)
  {
    if c.Plan? || c.Arm? || c.Submit? || c.Acknowledge? || c.Open? {
      AdvanceAcceptsIff(s, c);
    } else {
      OtherAcceptsIff(s, c);
    }
  }

  // ------------------------------------------------------------------ the adapter

  /** Why a session takes no call at all. */
  predicate IsDown(s: Session, reason: FailureReason) {
    if s.status == ShutdownHealth then reason.AdapterShutdown?
    else if s.core.None? then reason.NotBound?
    else IsTerminal(s.core.value.status) && reason.Terminal?
  }

  /** Why a call on a session that is up is refused. */
  predicate Explains(s: Session, c: AdapterCommand, reason: FailureReason)
    requires IsUp(s)
  {
    match c
    case Submit(_, runtime) =>
      var plan := s.core.value.plan;
      if s.submitted then reason.DuplicateSubmit?
      else if runtime.killEngaged then reason.KillSwitch?
      else if !runtime.state.Healthy? then reason.RuntimeUnhealthy?
      else if plan.None? then reason.NoPlan?
      else if !plan.value.submittable then
        reason ==
          if plan.value.blockedReason.Some? then plan.value.blockedReason.value else FailureReason.ValidationFailed
      else reason.IllegalTransition?
    case Acknowledge(_) => if !s.submitted then reason.NotSubmitted? else reason.IllegalTransition?
    case Fill(_, id, _, quantity) =>
      if !s.submitted then reason.NotSubmitted?
      else if !Knows(s, id) then reason.UnknownOrder?
      else if quantity <= 0.0 then reason.ValidationFailed?
      else reason.IllegalTransition?
    case Cancel(_, id, _) => reason.UnknownOrder?
    case _ => false
  }

  /** What cannot be put right: the execution is over, or the runtime is unhealthy; no fill is refused in this way. */
  predicate IsFatal(c: AdapterCommand, reason: FailureReason) {
    !c.Fill? && (reason.Terminal? || (c.Submit? && reason.RuntimeUnhealthy?))
  }

  lemma DriveError(s: Session, c: Command, tag: Tag)
    requires s.core.Some? && !ReduceExecution(s.core.value, c).ok
    ensures DriveAndEmit(s, c, tag).error == ReduceExecution(s.core.value, c).failure == DriveSilent(s, c).error
  {
    StepShape(s.core.value, c);
    if c.Fill? { FillRefusal(s.core.value, c); } else { CoreRefusal(s.core.value, c); }
  }

  lemma AcknowledgeError(s: Session, at: int)
    requires !AcknowledgeOp(s, at).ok
    ensures var e := AcknowledgeOp(s, at).error;
      && e.Some? && e.value.at == at && e.value.fatal == IsFatal(AdapterCommand.Acknowledge(at), e.value.reason)
      && if IsUp(s) then Explains(s, AdapterCommand.Acknowledge(at), e.value.reason) else IsDown(s, e.value.reason)
  {
    if IsUp(s) && s.submitted {
      CoreAcceptsIff(s.core.value, Command.Acknowledge(at));
      DriveError(s, Command.Acknowledge(at), FromEvent);
    }
  }

  lemma FillError(s: Session, at: int, id: OrderId, price: real, quantity: real)
    requires !FillOp(s, at, id, price, quantity).ok
    ensures var e := FillOp(s, at, id, price, quantity).error;
      && e.Some? && e.value.at == at
      && e.value.fatal == IsFatal(AdapterCommand.Fill(at, id, price, quantity), e.value.reason)
      && if IsUp(s) then Explains(s, AdapterCommand.Fill(at, id, price, quantity), e.value.reason)
         else IsDown(s, e.value.reason)
  {
    if IsUp(s) && s.submitted {
      KnowsIff(s, id);
      if Knows(s, id) && quantity > 0.0 {
        FillRefusal(s.core.value, Command.Fill(at, id, price, quantity));
        DriveError(s, Command.Fill(at, id, price, quantity), Tagged(Some(id)));
        assert HasOrder(s.core.value, id);
      }
    }
  }

  lemma SubmitError(s: Session, at: int, runtime: RuntimeContext)
    requires !SubmitOp(s, at, runtime).ok
    ensures var e := SubmitOp(s, at, runtime).error;
      && e.Some? && e.value.at == at && e.value.fatal == IsFatal(AdapterCommand.Submit(at, runtime), e.value.reason)
      && if IsUp(s) then Explains(s, AdapterCommand.Submit(at, runtime), e.value.reason) else IsDown(s, e.value.reason)
  {
    if IsUp(s) && ValidateSubmit(s, runtime).None? {
      var core := s.core.value;
      AdvanceAcceptsIff(core, Command.Arm(at));
      DriveState(s, Command.Arm(at), FromEvent);
      if ReduceExecution(core, Command.Arm(at)).ok {
        ArmThenSubmitOk(core, at);
        DriveState(DriveSilent(s, Command.Arm(at)).session, Command.Submit(at), FromEvent);
      } else {
        CoreRefusal(core, Command.Arm(at));
        DriveError(s, Command.Arm(at), FromEvent);
      }
    }
  }

  lemma CancelError(s: Session, at: int, id: OrderId, note: Option<Note>)
    requires !CancelOp(s, at, id, note).ok
    ensures var e := CancelOp(s, at, id, note).error;
      && e.Some? && e.value.at == at && e.value.fatal == IsFatal(AdapterCommand.Cancel(at, id, note), e.value.reason)
      && if IsUp(s) then e.value.reason.UnknownOrder? && !Knows(s, id) else IsDown(s, e.value.reason)
  {
    CancelIff(s, at, id, note);
    if s.core.Some? { KnowsIff(s, id); }
  }

  lemma CancelAllError(s: Session, at: int, note: Option<Note>)
    requires !CancelAllOp(s, at, note).ok
    ensures var e := CancelAllOp(s, at, note).error;
      && e.Some? && e.value.at == at && e.value.fatal == IsFatal(AdapterCommand.CancelAll(at, note), e.value.reason)
      && !IsUp(s) && IsDown(s, e.value.reason)
  {
    CancelAllIff(s, at, note);
  }

  /** A refused call says why: the session is down, replacing is not supported, or the call does not fit. */
  lemma RefusalIsExplained(s: Session, c: AdapterCommand)
    requires !Apply(s, c).ok
    ensures var e := Apply(s, c).error;
      && e.Some? && e.value.at == c.at && e.value.fatal == IsFatal(c, e.value.reason)
      && if c.Replace? then e.value.reason.UnsupportedOperation?
         else if IsUp(s) then Explains(s, c, e.value.reason)
         else IsDown(s, e.value.reason)
  {
    match c
    case Submit(at, runtime) => SubmitError(s, at, runtime);
    case Acknowledge(at) => AcknowledgeError(s, at);
    case Fill(at, id, price, quantity) => FillError(s, at, id, price, quantity);
    case Cancel(at, id, note) => CancelError(s, at, id, note);
    case CancelAll(at, note) => CancelAllError(s, at, note);
    case Replace(_, _) =>
    case Shutdown(_, _) =>
  }
}
