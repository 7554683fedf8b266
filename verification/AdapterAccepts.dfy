/** Exactly which adapter calls are accepted, and what a refused one leaves behind. */
module AdapterAccepts {
  import opened Wrappers
  import opened ExecutionTypes
  import opened Orders
  import opened Positions
  import opened Reducer
  import opened Lifecycles
  import opened Adapter
  import opened AdapterLog

  /** The adapter is up and bound to an execution that has not ended. */
  predicate IsUp(s: Session) {
    s.status != ShutdownHealth && s.core.Some? && !IsTerminal(s.core.value.status)
  }

  predicate Knows(s: Session, id: OrderId)
    requires s.core.Some?
  {
    exists i :: 0 <= i < |s.core.value.orders| && s.core.value.orders[i].id == id
  }

  /** An entry fills after acknowledgement, a protective order while the position is live. */
  predicate Fillable(core: State, id: OrderId) {
    var i := IndexOfOrder(core.orders, id);
    i.Some? && i.value < |core.orders| &&
    if core.orders[i.value].role.Entry? then core.status.Acknowledged? || core.status.PartiallyFilled?
    else IsLive(core.position) && (core.status.Open? || core.status.Reducing?)
  }

  predicate Accepts(s: Session, c: AdapterCommand) {
    match c
    case Submit(_, runtime) =>
      && IsUp(s) && !s.submitted && !runtime.killEngaged && runtime.state.Healthy?
      && s.core.value.status.Planned? && s.core.value.plan.Some? && s.core.value.plan.value.submittable
    case Acknowledge(_) => IsUp(s) && s.submitted && s.core.value.status.Submitted?
    case Fill(_, id, _, quantity) => IsUp(s) && s.submitted && quantity > 0.0 && Fillable(s.core.value, id)
    case Cancel(_, id, _) => IsUp(s) && Knows(s, id)
    case CancelAll(_, _) => IsUp(s)
    case Replace(_, _) => false
    case Shutdown(_, _) => true
  }

  lemma KnowsIff(s: Session, id: OrderId)
    requires s.core.Some?
    ensures Knows(s, id) <==> IndexOfOrder(s.core.value.orders, id).Some?
  {
    var i := IndexOfOrder(s.core.value.orders, id);
    if i.Some? { assert s.core.value.orders[i.value].id == id; }
  }

  lemma DriveOk(s: Session, c: Command, tag: Tag)
    ensures DriveAndEmit(s, c, tag).ok <==> s.core.Some? && ReduceExecution(s.core.value, c).ok
    ensures DriveSilent(s, c).ok <==> s.core.Some? && ReduceExecution(s.core.value, c).ok
    ensures DriveSilent(s, c).ok ==> DriveSilent(s, c).session.core == Some(ReduceExecution(s.core.value, c).state)
  {
  }

  lemma CancelOk(s: State, at: int, reason: Option<Note>)
    ensures ReduceExecution(s, Command.Cancel(at, reason)).ok <==> !IsTerminal(s.status)
  {
  }

  lemma EntryFillOk(s: State, at: int, id: OrderId, price: real, quantity: real)
    requires quantity > 0.0 && IndexOfOrder(s.orders, id).Some?
        && s.orders[IndexOfOrder(s.orders, id).value].role.Entry?
    ensures ReduceFill(s, id, price, quantity, at).ok <==> s.status.Acknowledged? || s.status.PartiallyFilled?
  {
  }

  lemma ProtectiveFillOk(s: State, at: int, id: OrderId, price: real, quantity: real)
    requires quantity > 0.0 && IndexOfOrder(s.orders, id).Some?
        && !s.orders[IndexOfOrder(s.orders, id).value].role.Entry?
    ensures ReduceFill(s, id, price, quantity, at).ok <==> IsLive(s.position) && (s.status.Open? || s.status.Reducing?)
  {
  }

  lemma FillOk(s: State, at: int, id: OrderId, price: real, quantity: real)
    requires quantity > 0.0
    ensures ReduceFill(s, id, price, quantity, at).ok <==> Fillable(s, id)
  {
    var i := IndexOfOrder(s.orders, id);
    if i.Some? {
      if s.orders[i.value].role.Entry? {
        EntryFillOk(s, at, id, price, quantity);
      } else {
        ProtectiveFillOk(s, at, id, price, quantity);
      }
    }
  }

  lemma ArmThenSubmitOk(s: State, at: int)
    ensures var armed := ReduceExecution(s, Command.Arm(at));
            && (armed.ok <==> s.status.Planned? && s.plan.Some? && s.plan.value.submittable)
            && (armed.ok ==> ReduceExecution(armed.state, Command.Submit(at)).ok)
  {
  }

  lemma SubmitIff(s: Session, at: int, runtime: RuntimeContext)
    ensures SubmitOp(s, at, runtime).ok <==> Accepts(s, AdapterCommand.Submit(at, runtime))
  {
    if s.core.Some? {
      var armed := DriveSilent(s, Command.Arm(at));
      DriveOk(s, Command.Arm(at), FromEvent);
      DriveOk(armed.session, Command.Submit(at), FromEvent);
      ArmThenSubmitOk(s.core.value, at);
    }
  }

  lemma FillIff(s: Session, at: int, id: OrderId, price: real, quantity: real)
    ensures FillOp(s, at, id, price, quantity).ok <==> Accepts(s, AdapterCommand.Fill(at, id, price, quantity))
  {
    DriveOk(s, Command.Fill(at, id, price, quantity), Tagged(Some(id)));
    if IsUp(s) && quantity > 0.0 {
      FillOk(s.core.value, at, id, price, quantity);
    }
  }

  lemma AcknowledgeIff(s: Session, at: int)
    ensures AcknowledgeOp(s, at).ok <==> Accepts(s, AdapterCommand.Acknowledge(at))
  {
    DriveOk(s, Command.Acknowledge(at), FromEvent);
  }

  lemma CancelIff(s: Session, at: int, id: OrderId, note: Option<Note>)
    ensures CancelOp(s, at, id, note).ok <==> Accepts(s, AdapterCommand.Cancel(at, id, note))
  {
    var reason := Some(ReasonOr(note, CancelRequestedFor(id)));
    DriveOk(s, Command.Cancel(at, reason), Tagged(None));
    if s.core.Some? {
      KnowsIff(s, id);
      CancelOk(s.core.value, at, reason);
    }
  }

  lemma CancelAllIff(s: Session, at: int, note: Option<Note>)
    ensures CancelAllOp(s, at, note).ok <==> Accepts(s, AdapterCommand.CancelAll(at, note))
  {
    var reason := Some(ReasonOr(note, AllOrdersCancelled));
    DriveOk(s, Command.Cancel(at, reason), Tagged(None));
    if s.core.Some? { CancelOk(s.core.value, at, reason); }
  }

  /** For every session and every call: it succeeds exactly when the call is acceptable. */
  lemma AcceptedIff(s: Session, c: AdapterCommand)
    ensures Apply(s, c).ok <==> Accepts(s, c)
  {
    match c
    case Submit(at, runtime) => SubmitIff(s, at, runtime);
    case Acknowledge(at) => AcknowledgeIff(s, at);
    case Fill(at, id, price, quantity) => FillIff(s, at, id, price, quantity);
    case Cancel(at, id, note) => CancelIff(s, at, id, note);
    case CancelAll(at, note) => CancelAllIff(s, at, note);
    case _ =>
  }

  /** A submission refused for the kill switch or the runtime; unlike any other refusal it stops the execution. */
  predicate StopsExecution(s: Session, c: AdapterCommand) {
    c.Submit? && (ValidateSubmit(s, c.runtime) == Some(FailureReason.KillSwitch)
                  || ValidateSubmit(s, c.runtime) == Some(FailureReason.RuntimeUnhealthy))
  }

  /** A refused call leaves the session as it was, unless it is such a submission. */
  lemma RefusedChangesNothing(s: Session, c: AdapterCommand)
    requires !Apply(s, c).ok && !StopsExecution(s, c)
    ensures Apply(s, c).session == s && Apply(s, c).events == []
  {
    match c
    case Submit(at, _) =>
    case Acknowledge(at) => DriveReturns(s, Command.Acknowledge(at), FromEvent);
    case Fill(at, id, price, quantity) => DriveReturns(s, Command.Fill(at, id, price, quantity), Tagged(Some(id)));
    case Cancel(at, id, note) =>
      DriveReturns(s, Command.Cancel(at, Some(ReasonOr(note, CancelRequestedFor(id)))), Tagged(None));
    case CancelAll(at, note) =>
      DriveReturns(s, Command.Cancel(at, Some(ReasonOr(note, AllOrdersCancelled))), Tagged(None));
    case _ =>
  }

  lemma BlockedDrive(s: Session, c: Command)
    requires s.core.Some? && !IsTerminal(s.core.value.status) && (c.Kill? || c.RuntimeUnhealthy?)
    ensures DriveAndEmit(s, c, FromEvent).session.core.Some?
    ensures DriveAndEmit(s, c, FromEvent).session.core.value.status == if c.Kill? then Status.Cancelled
        else Status.Failed
  {
  }

  /** Such a submission ends the execution: CANCELLED by the kill switch, FAILED by the runtime. */
  lemma BlockedSubmissionStops(s: Session, c: AdapterCommand)
    requires StopsExecution(s, c)
    ensures var out := Apply(s, c);
            && !out.ok && out.session.core.Some?
            && out.session.core.value.status
               == (if ValidateSubmit(s, c.runtime) == Some(FailureReason.KillSwitch) then Status.Cancelled
                   else Status.Failed)
  {
    if ValidateSubmit(s, c.runtime) == Some(FailureReason.KillSwitch) {
      BlockedDrive(s, Command.Kill(c.at));
    } else {
      BlockedDrive(s, Command.RuntimeUnhealthy(c.at));
    }
  }

  predicate Ends(cs: seq<AdapterCommand>) { exists i :: 0 <= i < |cs| && cs[i].Shutdown? }

  lemma DriveHealth(s: Session, c: Command, tag: Tag)
    ensures DriveAndEmit(s, c, tag).session.status == s.status == DriveSilent(s, c).session.status
  {
  }

  /** No call but a shutdown changes the health of a session, and nothing revives it. */
  lemma OneCallHealth(s: Session, c: AdapterCommand)
    ensures Apply(s, c).session.status == if c.Shutdown? then ShutdownHealth else s.status
  {
    match c
    case Submit(at, _) =>
      var armed := DriveSilent(s, Command.Arm(at));
      DriveHealth(s, Command.Kill(at), FromEvent);
      DriveHealth(s, Command.RuntimeUnhealthy(at), FromEvent);
      DriveHealth(s, Command.Arm(at), FromEvent);
      DriveHealth(armed.session, Command.Submit(at), FromEvent);
    case Acknowledge(at) => DriveHealth(s, Command.Acknowledge(at), FromEvent);
    case Fill(at, id, price, quantity) =>
      var command := Command.Fill(at, id, price, quantity);
      DriveHealth(s, command, Tagged(Some(id)));
      DriveHealth(DriveAndEmit(s, command, Tagged(Some(id))).session, Command.Open(at), FromEvent);
    case Cancel(at, id, note) =>
      DriveHealth(s, Command.Cancel(at, Some(ReasonOr(note, CancelRequestedFor(id)))), Tagged(None));
    case CancelAll(at, note) =>
      DriveHealth(s, Command.Cancel(at, Some(ReasonOr(note, AllOrdersCancelled))), Tagged(None));
    case Replace(_, _) =>
    case Shutdown(_, _) =>
  }

  lemma EndsIff(cs: seq<AdapterCommand>)
    requires cs != []
    ensures Ends(cs) <==> Ends(cs[..|cs| - 1]) || cs[|cs| - 1].Shutdown?
  {
    if Ends(cs[..|cs| - 1]) {
      var i :| 0 <= i < |cs| - 1 && cs[..|cs| - 1][i].Shutdown?;
      assert cs[i].Shutdown?;
    }
  }

  lemma {:induction false} RunHealth(s: Session, cs: seq<AdapterCommand>)
    ensures Replay(s, cs).status == if Ends(cs) then ShutdownHealth else s.status
    decreases |cs|
  {
    if cs != [] {
      var before := Replay(s, cs[..|cs| - 1]);
      RunHealth(s, cs[..|cs| - 1]);
      OneCallHealth(before, cs[|cs| - 1]);
      EndsIff(cs);
    }
  }

  /** A session is ready from its creation if it is a paper one, until some call shuts it down for good. */
  lemma HealthIs(adapter: AdapterKind, core: State, mode: Option<Mode>, venue: Option<Venue>, now: int,
      cs: seq<AdapterCommand>)
    ensures Replay(CreateSession(adapter, core, mode, venue, now), cs).status ==
      if Ends(cs) then ShutdownHealth else if adapter.PaperKind? then ReadyHealth else UnavailableHealth
  {
    RunHealth(CreateSession(adapter, core, mode, venue, now), cs);
  }
}
