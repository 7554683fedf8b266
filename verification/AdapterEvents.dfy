/** What the adapter log says, in terms of where the execution goes and never of how events are mapped. */
module AdapterEvents {
  import opened Wrappers
  import opened ExecutionTypes
  import opened Orders
  import opened Positions
  import opened Reducer
  import opened Lifecycles
  import opened Conservation
  import opened Adapter
  import opened AdapterLog
  import opened AdapterAccepts
  import opened AdapterRuns
  import opened AuditTrail
  import opened Sides
  import Plans

  // ------------------------------------------------------------------ statuses and words

  /** Steps that cross no venue boundary. */
  predicate IsSilent(s: Status) { s.NotCreated? || s.Planned? || s.Ready? || s.Open? }

  /** The venue's word for an execution that reaches a status. */
  predicate Tells(kind: AdapterEventKind, s: Status) {
    match s
    case Submitted => kind.Submitted?
    case Acknowledged => kind.Acknowledged?
    case PartiallyFilled | Reducing => kind.PartialFill?
    case Filled | Closed => kind.Filled?
    case Cancelled => kind.Cancelled?
    case Failed => kind.Failed?
    case Rejected => kind.Rejected?
    case Expired => kind.Expired?
    case _ => false
  }

  predicate Told(e: Event) {
    match MapCoreEvent(e.kind)
    case None => IsSilent(e.next)
    case Some(kind) => Tells(kind, e.next)
  }

  /** Every accepted core command tells the status that it reaches, or nothing if that status is silent. */
  lemma StepTold(s: State, c: Command)
    requires ReduceExecution(s, c).ok
    ensures ReduceExecution(s, c).event.Some? && Told(ReduceExecution(s, c).event.value)
  {
    CommandTells(s, c);
    NamedIsTold(ReduceExecution(s, c).event.value);
  }

  lemma NamedIsTold(e: Event)
    requires Names(e)
    ensures Told(e)
  {
  }

  // ------------------------------------------------------------------ one call

  /** What an event of a session carries besides its kind. */
  predicate Stamped(s: Session, e: AdapterEvent, at: int, orderId: Option<OrderId>) {
    && e.seqNo == s.seqNo + 1 && e.adapter == s.adapter && e.intentId == s.intentId
    && e.mode == s.mode && e.venue == s.venue && e.orderId == orderId
    && e.provenance.Derived? && e.ts == at
  }

  /** An accepted loud command emits one event that tells where it leads. */
  lemma DriveTells(s: Session, c: Command, orderId: Option<OrderId>)
    requires s.core.Some? && ReduceExecution(s.core.value, c).ok
    requires !IsSilent(ReduceExecution(s.core.value, c).state.status)
    ensures var r := DriveAndEmit(s, c, Tagged(orderId));
            && r.ok && r.session.core == Some(ReduceExecution(s.core.value, c).state)
            && |r.events| == 1 && Stamped(s, r.events[0], c.at, orderId)
            && Tells(r.events[0].kind, ReduceExecution(s.core.value, c).state.status)
            && r.events[0].reason == ReduceExecution(s.core.value, c).event.value.reason
  {
    StepTold(s.core.value, c);
    StepShape(s.core.value, c);
  }

  lemma UntaggedTells(s: Session, c: Command)
    requires s.core.Some? && ReduceExecution(s.core.value, c).ok
    requires !IsSilent(ReduceExecution(s.core.value, c).state.status)
    requires !ReduceExecution(s.core.value, c).event.value.entity.OrderEntity?
    ensures DriveAndEmit(s, c, FromEvent) == DriveAndEmit(s, c, Tagged(None))
  {
    StepTold(s.core.value, c);
  }

  predicate IsFillFrom(before: Status, after: Status) {
    if after.PartiallyFilled? || after.Filled? then before.Acknowledged? || before.PartiallyFilled?
    else (after.Reducing? || after.Closed?) && (before.Open? || before.Reducing?)
  }

  lemma FillStatuses(s: State, at: int, id: OrderId, price: real, quantity: real)
    requires ReduceExecution(s, Command.Fill(at, id, price, quantity)).ok
    ensures IsFillFrom(s.status, ReduceExecution(s, Command.Fill(at, id, price, quantity)).state.status)
  {
  }

  /** FILLED when the fill completes the entry or the position, PARTIAL_FILL otherwise; opening is not told. */
  lemma FillEmits(s: Session, at: int, id: OrderId, price: real, quantity: real)
    requires s.core.Some? && FillOp(s, at, id, price, quantity).ok
    ensures var r := FillOp(s, at, id, price, quantity);
            && r.session.core.Some? && |r.events| == 1 && Stamped(s, r.events[0], at, Some(id))
            && var before, after := s.core.value.status, r.session.core.value.status;
               && (r.events[0].kind.Filled? <==> after.Filled? || after.Open? || after.Closed?)
               && (r.events[0].kind.PartialFill? <==> after.PartiallyFilled? || after.Reducing?)
               && IsFillFrom(before, if after.Open? then Status.Filled else after)
  {
    var fill := Command.Fill(at, id, price, quantity);
    var core := s.core.value;
    FillStatuses(core, at, id, price, quantity);
    DriveTells(s, fill, Some(id));
    var filled := DriveAndEmit(s, fill, Tagged(Some(id))).session;
    if filled.core.value.status.Filled? { OpensOrStays(filled, at); }
  }

  lemma OpensOrStays(s: Session, at: int)
    requires s.core.Some? && s.core.value.status.Filled?
    ensures var r := DriveSilent(s, Command.Open(at));
            r.session.core.Some? && if r.ok then r.session.core.value.status.Open? else r.session == s
  {
  }

  lemma CancelEmits(s: Session, at: int, note: Note)
    requires s.core.Some? && !IsTerminal(s.core.value.status)
    ensures var r := DriveAndEmit(s, Command.Cancel(at, Some(note)), Tagged(None));
            && r.ok && r.session.core.Some? && r.session.core.value.status.Cancelled?
            && |r.events| == 1 && Stamped(s, r.events[0], at, None) && r.events[0].kind.Cancelled?
            && r.events[0].reason == note
  {
    CancelOk(s.core.value, at, Some(note));
    DriveTells(s, Command.Cancel(at, Some(note)), None);
  }

  /** A submission the kill switch blocks is told as CANCELLED, one an unhealthy runtime blocks as FAILED. */
  lemma BlockedSubmitEmits(s: Session, at: int, runtime: RuntimeContext)
    requires IsUp(s) && !s.submitted && (runtime.killEngaged || !runtime.state.Healthy?)
    ensures var r := SubmitOp(s, at, runtime);
            && !r.ok && r.session.core.Some? && |r.events| == 1 && Stamped(s, r.events[0], at, None)
            && r.error.Some? && r.error.value.at == at
            && if runtime.killEngaged
               then r.session.core.value.status.Cancelled? && r.events[0].kind.Cancelled?
                    && r.error.value.reason.KillSwitch?
               else r.session.core.value.status.Failed? && r.events[0].kind.Failed?
                    && r.error.value.reason.RuntimeUnhealthy?
  {
    var c := if runtime.killEngaged then Command.Kill(at) else Command.RuntimeUnhealthy(at);
    StoppingSucceeds(s.core.value, c);
    DriveTells(s, c, None);
    UntaggedTells(s, c);
  }

  lemma SubmitEmits(s: Session, at: int, runtime: RuntimeContext)
    requires s.core.Some? && SubmitOp(s, at, runtime).ok
    ensures var r := SubmitOp(s, at, runtime);
            && r.session.core.Some? && r.session.core.value.status.Submitted? && r.session.submitted
            && |r.events| == 1 && Stamped(s, r.events[0], at, None) && r.events[0].kind.Submitted?
  {
    var armed := DriveSilent(s, Command.Arm(at)).session;
    DriveState(s, Command.Arm(at), FromEvent);
    StatusAfter(armed.core.value, Command.Submit(at));
    DriveTells(armed, Command.Submit(at), None);
    UntaggedTells(armed, Command.Submit(at));
  }

  lemma AcknowledgeEmits(s: Session, at: int)
    requires s.core.Some? && AcknowledgeOp(s, at).ok
    ensures var r := AcknowledgeOp(s, at);
            && r.session.core.Some? && r.session.core.value.status.Acknowledged?
            && |r.events| == 1 && Stamped(s, r.events[0], at, None) && r.events[0].kind.Acknowledged?
  {
    DriveState(s, Command.Acknowledge(at), FromEvent);
    StatusAfter(s.core.value, Command.Acknowledge(at));
    DriveTells(s, Command.Acknowledge(at), None);
    UntaggedTells(s, Command.Acknowledge(at));
  }

  /** Shutting down tells the cancellation of an execution that has not ended, and nothing else. */
  lemma ShutdownEmits(s: Session, at: int, note: Option<Note>)
    requires s.core.Some? && (s.core.value.lifecycle.terminal <==> IsTerminal(s.core.value.status))
    ensures var r := ShutdownOp(s, at, note);
            && r.ok && r.session.core.Some? && r.session.status == ShutdownHealth
            && if s.status == ShutdownHealth || IsTerminal(s.core.value.status)
               then r.events == [] && r.session.core == s.core
               else r.session.core.value.status.Cancelled? && |r.events| == 1 && Stamped(s, r.events[0], at, None)
                    && r.events[0].kind.Cancelled?
  {
    if !IsTerminal(s.core.value.status) { CancelEmits(s, at, ReasonOr(note, ShutdownCancel)); }
  }

  /** Where a call that is accepted, or a submission that stops the execution, leads and what it tells. */
  ghost predicate Emits(c: AdapterCommand, before: Status, r: AdapterResult) {
    r.session.core.Some? &&
    var after, es := r.session.core.value.status, r.events;
    match c
    case Submit(_, runtime) =>
      && |es| == 1
      && if r.ok then after.Submitted? && es[0].kind.Submitted?
         else if runtime.killEngaged then after.Cancelled? && es[0].kind.Cancelled?
         else after.Failed? && es[0].kind.Failed?
    case Acknowledge(_) => |es| == 1 && after.Acknowledged? && es[0].kind.Acknowledged?
    case Fill(_, id, _, _) =>
      && |es| == 1 && es[0].orderId == Some(id)
      && (es[0].kind.Filled? <==> after.Filled? || after.Open? || after.Closed?)
      && (es[0].kind.PartialFill? <==> after.PartiallyFilled? || after.Reducing?)
      && IsFillFrom(before, if after.Open? then Status.Filled else after)
    case Cancel(_, _, _) | CancelAll(_, _) => |es| == 1 && after.Cancelled? && es[0].kind.Cancelled?
    case Replace(_, _) => false
    case Shutdown(_, _) => if es == [] then after == before
                           else |es| == 1 && after.Cancelled? && es[0].kind.Cancelled? && !IsTerminal(before)
  }

  /** A submission that reaches the kill switch or an unhealthy runtime. */
  predicate IsBlockedSubmission(s: Session, c: AdapterCommand) {
    c.Submit? && IsUp(s) && !s.submitted && (c.runtime.killEngaged || !c.runtime.state.Healthy?)
  }

  lemma StopCallEmits(s: Session, c: AdapterCommand)
    requires s.core.Some? && (s.core.value.lifecycle.terminal <==> IsTerminal(s.core.value.status))
    requires Apply(s, c).ok && (c.Cancel? || c.CancelAll? || c.Shutdown?)
    ensures Emits(c, s.core.value.status, Apply(s, c))
    ensures forall e :: e in Apply(s, c).events ==> Stamped(s, e, c.at, None)
  {
    match c
    case Cancel(at, id, note) => CancelEmits(s, at, ReasonOr(note, CancelRequestedFor(id)));
    case CancelAll(at, note) => CancelEmits(s, at, ReasonOr(note, AllOrdersCancelled));
    case Shutdown(at, note) => ShutdownEmits(s, at, note);
  }

  /** Every call that is accepted, and every submission that is blocked, tells exactly where it leads. */
  lemma CallEmits(s: Session, c: AdapterCommand)
    requires s.core.Some? && (s.core.value.lifecycle.terminal <==> IsTerminal(s.core.value.status))
    requires Apply(s, c).ok || IsBlockedSubmission(s, c)
    ensures Emits(c, s.core.value.status, Apply(s, c))
    ensures forall e :: e in Apply(s, c).events ==> Stamped(s, e, c.at, if c.Fill? then Some(c.orderId) else None)
  {
    match c
    case Submit(at, runtime) =>
      if IsBlockedSubmission(s, c) { BlockedSubmitEmits(s, at, runtime); } else { SubmitEmits(s, at, runtime); }
    case Acknowledge(at) => AcknowledgeEmits(s, at);
    case Fill(at, id, price, quantity) => FillEmits(s, at, id, price, quantity);
    case Replace(_, _) =>
    case _ => StopCallEmits(s, c);
  }

  // ------------------------------------------------------------------ the whole log

  /** The statuses of a history that are told. */
  function Loud(h: seq<Status>): seq<Status> {
    if h == [] then []
    else
      var front, last := Loud(h[..|h| - 1]), h[|h| - 1];
      if IsSilent(last) then front else front + [last]
  }

  function Nexts(es: seq<Event>): (h: seq<Status>)
    ensures |h| == |es| && forall i :: 0 <= i < |es| ==> h[i] == es[i].next
  {
    seq(|es|, i requires 0 <= i < |es| => es[i].next)
  }

  lemma {:induction false} ViewsAre(es: seq<AdapterEvent>)
    ensures |Views(es)| == |es| && forall i :: 0 <= i < |es| ==> Views(es)[i] == ViewOf(es[i])
  {
    if es != [] { ViewsAre(es[..|es| - 1]); }
  }

  ghost predicate TellOneByOne(vs: seq<View>, h: seq<Status>) {
    |vs| == |h| && forall i :: 0 <= i < |vs| ==> Tells(vs[i].kind, h[i])
  }

  lemma {:induction false} ProjectTells(es: seq<Event>)
    requires forall i :: 0 <= i < |es| ==> Told(es[i])
    ensures TellOneByOne(Project(es), Loud(Nexts(es)))
  {
    if es != [] {
      ProjectTells(es[..|es| - 1]);
      assert Nexts(es)[..|es| - 1] == Nexts(es[..|es| - 1]);
      assert Told(es[|es| - 1]);
    }
  }

  /** The events of a log are one by one the statuses of the execution since it was bound, but for the silent ones. */
  ghost predicate LogTells(s: Session, bound: nat) {
    && s.core.Some? && bound < |s.core.value.lifecycle.history|
    && var told := Loud(s.core.value.lifecycle.history[bound + 1..]);
       |s.events| == |told| && forall i :: 0 <= i < |told| ==> Tells(s.events[i].kind, told[i])
  }

  lemma MatchingLogTells(s: Session, bound: nat)
    requires LogMatches(s, bound) && WellFormedRun(s.core.value) && TrailTells(s.core.value)
    ensures LogTells(s, bound)
  {
    var es, h := s.core.value.audit.events, s.core.value.lifecycle.history;
    forall i | 0 <= i < |es[bound..]| ensures Told(es[bound..][i]) {
      NamedIsTold(es[bound + i]);
    }
    ProjectTells(es[bound..]);
    ViewsAre(s.events);
    assert Nexts(es[bound..]) == h[bound + 1..];
  }

  /** On every adapter run, from a session bound to a new execution. */
  lemma RunsLogTells(intent: Intent, killEngaged: bool, runtimeHealthy: bool, now: int, cs: seq<AdapterCommand>)
    ensures LogTells(Replay(NewSession(intent, killEngaged, runtimeHealthy, now), cs),
                     if killEngaged || !runtimeHealthy then 2 else 1)
  {
    var core := Created(intent, killEngaged, runtimeHealthy, now);
    LogIsProjection(PaperKind, core, None, None, now, cs);
    var commands := CoreIsRun(intent, killEngaged, runtimeHealthy, now, cs);
    RunsAreWellFormed(intent, Some(Plans.PlanFor(intent)), commands);
    RunsTell(intent, Some(Plans.PlanFor(intent)), commands);
    MatchingLogTells(Replay(NewSession(intent, killEngaged, runtimeHealthy, now), cs), |core.audit.events|);
    CreationEvents(intent, killEngaged, runtimeHealthy, now);
  }

  lemma CreationEvents(intent: Intent, killEngaged: bool, runtimeHealthy: bool, now: int)
    ensures |Created(intent, killEngaged, runtimeHealthy, now).audit.events|
            == if killEngaged || !runtimeHealthy then 2 else 1
  {
    var planned := ReduceExecution(InitState(intent, Some(Plans.PlanFor(intent))), Command.Plan(now)).state;
    PlanningSucceeds(intent, now);
    StoppingSucceeds(planned, Command.Kill(now));
    StoppingSucceeds(planned, Command.RuntimeUnhealthy(now));
  }

  // ------------------------------------------------------------------ how many FILLED events

  function CountFilled(es: seq<AdapterEvent>): nat {
    if es == [] then 0 else CountFilled(es[..|es| - 1]) + if es[|es| - 1].kind.Filled? then 1 else 0
  }

  /** A completed entry and a close, each once. */
  function Completions(s: State): nat {
    (if s.orders != [] && s.orders[0].status.Filled? then 1 else 0) + if s.status.Closed? then 1 else 0
  }

  lemma CountFilledAppend(es: seq<AdapterEvent>, more: seq<AdapterEvent>)
    requires |more| <= 1
    ensures CountFilled(es + more) == CountFilled(es) + if more != [] && more[0].kind.Filled? then 1 else 0
  {
    if more == [] { assert es + more == es; } else { assert (es + more)[..|es|] == es; }
  }

  /** A stop leaves a completed entry completed and completes none. */
  lemma StopKeepsCompletions(s: State, c: Command)
    requires c.Cancel? || c.Kill? || c.RuntimeUnhealthy?
    ensures Completions(ReduceExecution(s, c).state) == Completions(s)
  {
  }

  lemma StopsEmit(s: Session, c: AdapterCommand)
    requires s.core.Some? && StopsExecution(s, c)
    ensures var r := Apply(s, c);
            && |r.events| == 1 && !r.events[0].kind.Filled? && r.session.core.Some?
            && Completions(r.session.core.value) == Completions(s.core.value)
  {
    var stop := if ValidateSubmit(s, c.runtime) == Some(FailureReason.KillSwitch) then Command.Kill(c.at)
                else Command.RuntimeUnhealthy(c.at);
    StoppingSucceeds(s.core.value, stop);
    StopKeepsCompletions(s.core.value, stop);
    DriveTells(s, stop, None);
    UntaggedTells(s, stop);
  }

  lemma FillCounts(before: State, after: State)
    requires before.orders != [] && EntryStatus(before.status, before.orders[0].status)
    requires after.orders != [] && EntryStatus(after.status, after.orders[0].status)
    requires IsFillFrom(before.status, if after.status.Open? then Status.Filled else after.status)
    ensures Completions(after) == Completions(before)
      + if after.status.Filled? || after.status.Open? || after.status.Closed? then 1 else 0
  {
  }

  lemma CancelCounts(s: Session, c: AdapterCommand)
    requires s.core.Some? && Apply(s, c).ok && (c.Cancel? || c.CancelAll? || c.Shutdown?)
    ensures Apply(s, c).session.core.Some?
    ensures Completions(Apply(s, c).session.core.value) == Completions(s.core.value)
  {
    CoreFollows(s, c);
    var commands := CoreCommands(s, c);
    if |commands| == 1 {
      assert commands == [commands[0]];
      RunShort(s.core.value, commands[0], commands[0]);
      StopKeepsCompletions(s.core.value, commands[0]);
    }
  }

  /** What an accepted call adds to the log is what it adds to the completions. */
  lemma AcceptedCounts(s: Session, c: AdapterCommand, planned: seq<Order>)
    requires SessionKept(s, planned) && Apply(s, c).ok
    ensures var r := Apply(s, c);
            && r.session.core.Some? && |r.events| <= 1
            && Completions(r.session.core.value)
               == Completions(s.core.value) + if r.events != [] && r.events[0].kind.Filled? then 1 else 0
  {
    CallEmits(s, c);
    AcceptedIff(s, c);
    CallKeepsSession(s, c, planned);
    match c
    case Fill(_, _, _, _) => FillCounts(s.core.value, Apply(s, c).session.core.value);
    case Cancel(_, _, _) | CancelAll(_, _) | Shutdown(_, _) => CancelCounts(s, c);
    case _ =>
  }

  lemma CountsAdd(s: Session, r: AdapterResult)
    requires ReturnsAppended(s, r) && |r.events| <= 1 && s.core.Some? && r.session.core.Some?
    requires Completions(r.session.core.value)
      == Completions(s.core.value) + if r.events != [] && r.events[0].kind.Filled? then 1 else 0
    requires CountFilled(s.events) == Completions(s.core.value)
    ensures CountFilled(r.session.events) == Completions(r.session.core.value)
  {
    assert r.session.events == s.events + r.events;
    CountFilledAppend(s.events, r.events);
  }

  lemma CallCounts(s: Session, c: AdapterCommand, planned: seq<Order>)
    requires SessionKept(s, planned) && CountFilled(s.events) == Completions(s.core.value)
    ensures Apply(s, c).session.core.Some?
    ensures CountFilled(Apply(s, c).session.events) == Completions(Apply(s, c).session.core.value)
  {
    CallsReturnWhatTheyAppend(s, c);
    if Apply(s, c).ok {
      AcceptedCounts(s, c, planned);
      CountsAdd(s, Apply(s, c));
    } else if StopsExecution(s, c) {
      StopsEmit(s, c);
      CountsAdd(s, Apply(s, c));
    } else {
      RefusedChangesNothing(s, c);
    }
  }

  /** On every adapter run the FILLED events are one for a completed entry and one for a close. */
  lemma {:induction false} FilledMeansCompleted(intent: Intent, killEngaged: bool, runtimeHealthy: bool, now: int,
      cs: seq<AdapterCommand>)
    ensures var s := Replay(NewSession(intent, killEngaged, runtimeHealthy, now), cs);
            s.core.Some? && CountFilled(s.events) == Completions(s.core.value)
    decreases |cs|
  {
    if cs == [] {
      CreatedKept(intent, killEngaged, runtimeHealthy, now);
      NothingCompleted(intent, killEngaged, runtimeHealthy, now);
    } else {
      FilledMeansCompleted(intent, killEngaged, runtimeHealthy, now, cs[..|cs| - 1]);
      RunsConserve(intent, killEngaged, runtimeHealthy, now, cs[..|cs| - 1]);
      CallCounts(Replay(NewSession(intent, killEngaged, runtimeHealthy, now), cs[..|cs| - 1]), cs[|cs| - 1],
        Plans.PlanOrders(intent));
    }
  }

  lemma NothingCompleted(intent: Intent, killEngaged: bool, runtimeHealthy: bool, now: int)
    ensures Completions(Created(intent, killEngaged, runtimeHealthy, now)) == 0
  {
    var planned := ReduceExecution(InitState(intent, Some(Plans.PlanFor(intent))), Command.Plan(now)).state;
    assert planned.orders == Plans.PlanOrders(intent) && !planned.status.Closed?;
    StopKeepsCompletions(planned, Command.Kill(now));
    StopKeepsCompletions(planned, Command.RuntimeUnhealthy(now));
  }
}
