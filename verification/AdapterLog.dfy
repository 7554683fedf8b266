/** The adapter's own event log refines the core audit. */
module AdapterLog {
  import opened Wrappers
  import opened ExecutionTypes
  import opened Reducer
  import opened Lifecycles
  import opened Adapter

  /** What an adapter event says about the transition it reports. */
  datatype View = View(kind: AdapterEventKind, reason: Note, provenance: Provenance, ts: int)

  function ViewOf(e: AdapterEvent): View { View(e.kind, e.reason, e.provenance, e.ts) }

  function Views(es: seq<AdapterEvent>): seq<View> {
    if es == [] then [] else Views(es[..|es| - 1]) + [ViewOf(es[|es| - 1])]
  }

  /** Core events through mapCoreEventType, nulls dropped. */
  function Project(es: seq<Event>): seq<View> {
    if es == [] then []
    else
      var e := es[|es| - 1];
      Project(es[..|es| - 1])
      + match MapCoreEvent(e.kind)
        case None => []
        case Some(kind) => [View(kind, e.reason, e.provenance, e.ts)]
  }

  function CountSubmitted(es: seq<AdapterEvent>): nat {
    if es == [] then 0
    else CountSubmitted(es[..|es| - 1]) + if es[|es| - 1].kind == AdapterEventKind.Submitted then 1 else 0
  }

  /** The log of a session bound when the core audit had `bound` events. */
  ghost predicate LogMatches(s: Session, bound: nat) {
    && s.core.Some?
    && bound <= |s.core.value.audit.events|
    && Views(s.events) == Project(s.core.value.audit.events[bound..])
    && s.seqNo == |s.events|
    && (forall i :: 0 <= i < |s.events| ==> s.events[i].seqNo == i + 1)
  }

  lemma ViewsAppend(es: seq<AdapterEvent>, e: AdapterEvent)
    ensures Views(es + [e]) == Views(es) + [ViewOf(e)]
    ensures CountSubmitted(es + [e]) == CountSubmitted(es) + if e.kind == AdapterEventKind.Submitted then 1 else 0
  {
    assert (es + [e])[..|es|] == es;
  }

  /** Appending one core event appends its image, if any. */
  lemma ProjectAppend(es: seq<Event>, bound: nat, e: Event)
    requires bound <= |es|
    ensures Project((es + [e])[bound..]) == Project(es[bound..]) + Project([e])
  {
    var tail := es[bound..];
    assert (es + [e])[bound..] == tail + [e];
    assert (tail + [e])[..|tail|] == tail;
    assert [e][..0] == [];
  }

  /** The event a core event turns into, numbered n. */
  function Emitted(s: Session, at: int, tag: Tag, e: Event, kind: AdapterEventKind): AdapterEvent {
    AdapterEvent(s.seqNo + 1, s.adapter, s.intentId, TagFor(tag, e), kind, s.mode, s.venue, e.reason, e.provenance, at)
  }

  lemma VisibleEventKeepsViews(events: seq<AdapterEvent>, es: seq<Event>, bound: nat, e: Event, a: AdapterEvent)
    requires bound <= |es| && Views(events) == Project(es[bound..])
    requires MapCoreEvent(e.kind) == Some(a.kind) && a.reason == e.reason && a.provenance == e.provenance
        && a.ts == e.ts
    ensures Views(events + [a]) == Project((es + [e])[bound..])
  {
    ProjectAppend(es, bound, e);
    ViewsAppend(events, a);
    assert [e][..0] == [];
    assert Project([]) == [];
  }

  lemma SilentEventKeepsViews(events: seq<AdapterEvent>, es: seq<Event>, bound: nat, e: Event)
    requires bound <= |es| && Views(events) == Project(es[bound..]) && MapCoreEvent(e.kind).None?
    ensures Views(events) == Project((es + [e])[bound..])
  {
    ProjectAppend(es, bound, e);
    assert [e][..0] == [];
    assert Project([]) == [];
  }

  /** An accepted result appends its event to the core audit. */
  ghost predicate Appends(core: State, at: int, r: Result) {
    && r.ok && r.event.Some? && r.event.value.ts == at
    && r.state.audit.events == core.audit.events + [r.event.value]
  }

  lemma TakeVisible(s: Session, at: int, tag: Tag, r: Result, bound: nat)
    requires LogMatches(s, bound) && Appends(s.core.value, at, r) && MapCoreEvent(r.event.value.kind).Some?
    ensures var out := TakeAndEmit(s, at, tag, r).session;
            && LogMatches(out, bound) && out.submitted == s.submitted
            && out.events == s.events + [Emitted(s, at, tag, r.event.value, MapCoreEvent(r.event.value.kind).value)]
  {
    var e := r.event.value;
    VisibleEventKeepsViews(s.events, s.core.value.audit.events, bound, e,
        Emitted(s, at, tag, e, MapCoreEvent(e.kind).value));
  }

  lemma TakeInvisible(s: Session, at: int, tag: Tag, r: Result, bound: nat)
    requires LogMatches(s, bound) && Appends(s.core.value, at, r) && MapCoreEvent(r.event.value.kind).None?
    ensures var out := TakeAndEmit(s, at, tag, r).session;
            LogMatches(out, bound) && out.submitted == s.submitted && out.events == s.events
  {
    SilentEventKeepsViews(s.events, s.core.value.audit.events, bound, r.event.value);
  }

  /** Taking an accepted core result keeps the log in step, whatever command produced it. */
  lemma TakeKeepsLog(s: Session, at: int, tag: Tag, r: Result, bound: nat)
    requires LogMatches(s, bound) && Appends(s.core.value, at, r)
    ensures var out := TakeAndEmit(s, at, tag, r).session;
            && LogMatches(out, bound)
            && out.submitted == s.submitted
            && CountSubmitted(out.events) == CountSubmitted(s.events) + if r.event.value.kind.Submitted? then 1 else 0
  {
    var e := r.event.value;
    if MapCoreEvent(e.kind).Some? {
      TakeVisible(s, at, tag, r, bound);
      ViewsAppend(s.events, Emitted(s, at, tag, e, MapCoreEvent(e.kind).value));
    } else {
      TakeInvisible(s, at, tag, r, bound);
    }
  }

  lemma TakeResultKeepsLog(s: Session, at: int, tag: Tag, r: Result, bound: nat, submit: bool)
    requires LogMatches(s, bound)
    requires r.ok ==> Appends(s.core.value, at, r) && (r.event.value.kind.Submitted? <==> submit)
    ensures var out := TakeAndEmit(s, at, tag, r);
            && LogMatches(out.session, bound)
            && out.ok == r.ok && out.session.submitted == s.submitted
            && s.core.value.audit.events <= out.session.core.value.audit.events
            && CountSubmitted(out.session.events) == CountSubmitted(s.events) + if out.ok && submit then 1 else 0
  {
    if r.ok {
      TakeKeepsLog(s, at, tag, r, bound);
    }
  }

  lemma EmitKeepsLog(s: Session, c: Command, tag: Tag, bound: nat)
    requires LogMatches(s, bound)
    ensures var r := DriveAndEmit(s, c, tag);
            && LogMatches(r.session, bound)
            && r.session.submitted == s.submitted
            && s.core.value.audit.events <= r.session.core.value.audit.events
            && CountSubmitted(r.session.events) == CountSubmitted(s.events) + if r.ok && c.Submit? then 1 else 0
  {
    StepShape(s.core.value, c);
    KindOfStep(s.core.value, c);
    TakeResultKeepsLog(s, c.at, tag, ReduceExecution(s.core.value, c), bound, c.Submit?);
  }

  lemma KindOfFill(s: State, id: OrderId, price: real, quantity: real, at: int)
    ensures var r := ReduceFill(s, id, price, quantity, at);
            r.ok ==> r.event.Some? && MapCoreEvent(r.event.value.kind).Some? && !r.event.value.kind.Submitted?
  {
  }

  lemma KindOfStop(s: State, c: Command)
    requires c.Kill? || c.RuntimeUnhealthy? || c.Cancel? || c.Reject? || c.Expire? || c.Fail? || c.Close? || c.Reduce?
    ensures var r := ReduceExecution(s, c);
            r.ok ==> r.event.Some? && !r.event.value.kind.Submitted? && MapCoreEvent(r.event.value.kind).Some?
  {
  }

  /** SUBMITTED is the event of SUBMIT; the silent commands have no venue event. */
  lemma KindOfStep(s: State, c: Command)
    ensures var r := ReduceExecution(s, c);
            r.ok ==> r.event.Some?
                     && (r.event.value.kind.Submitted? <==> c.Submit?)
                     && (c.Arm? || c.Open? || c.Plan? <==> MapCoreEvent(r.event.value.kind).None?)
  {
    match c
    case Fill(at, id, price, quantity) => KindOfFill(s, id, price, quantity, at);
    case Plan(_) =>
    case Arm(_) =>
    case Submit(_) =>
    case Acknowledge(_) =>
    case Open(_) =>
    case _ => KindOfStop(s, c);
  }

  lemma TakeSilentlyKeepsLog(s: Session, at: int, r: Result, bound: nat)
    requires LogMatches(s, bound) && Advanced(s.core.value, at, r) && MapCoreEvent(r.event.value.kind).None?
    ensures LogMatches(TakeSilently(s, at, r).session, bound)
  {
    SilentEventKeepsViews(s.events, s.core.value.audit.events, bound, r.event.value);
  }

  lemma SilentKeepsLog(s: Session, c: Command, bound: nat)
    requires LogMatches(s, bound)
    requires c.Arm? || c.Open?
    ensures LogMatches(DriveSilent(s, c).session, bound)
    ensures var r := DriveSilent(s, c).session;
            r.events == s.events && r.submitted == s.submitted && s.core.value.audit.events <= r.core.value.audit.events
  {
    StepShape(s.core.value, c);
    KindOfStep(s.core.value, c);
    var r := ReduceExecution(s.core.value, c);
    if r.ok {
      TakeSilentlyKeepsLog(s, c.at, r, bound);
    }
  }

  ghost predicate OneSubmit(s: Session) {
    CountSubmitted(s.events) == if s.submitted then 1 else 0
  }

  /** What every adapter call keeps. */
  ghost predicate Kept(s: Session, out: Session, bound: nat) {
    && LogMatches(out, bound) && OneSubmit(out)
    && s.core.Some? && s.core.value.audit.events <= out.core.value.audit.events
  }

  lemma SilentOrEmitKept(s: Session, c: Command, tag: Tag, bound: nat)
    requires LogMatches(s, bound) && OneSubmit(s) && !c.Submit?
    ensures Kept(s, DriveAndEmit(s, c, tag).session, bound)
  {
    EmitKeepsLog(s, c, tag, bound);
  }

  lemma ArmAndSubmitKept(s: Session, at: int, bound: nat)
    requires LogMatches(s, bound) && OneSubmit(s) && !s.submitted
    ensures var armed := DriveSilent(s, Command.Arm(at)).session;
            var out := DriveAndEmit(armed, Command.Submit(at), FromEvent);
            out.ok ==> Kept(s, out.session.(submitted := true), bound)
  {
    SilentKeepsLog(s, Command.Arm(at), bound);
    EmitKeepsLog(DriveSilent(s, Command.Arm(at)).session, Command.Submit(at), FromEvent, bound);
  }

  lemma SubmitKeepsLog(s: Session, at: int, runtime: RuntimeContext, bound: nat)
    requires LogMatches(s, bound) && OneSubmit(s)
    ensures Kept(s, SubmitOp(s, at, runtime).session, bound)
  {
    var reason := ValidateSubmit(s, runtime);
    if reason == Some(FailureReason.KillSwitch) {
      SilentOrEmitKept(s, Command.Kill(at), FromEvent, bound);
    } else if reason == Some(FailureReason.RuntimeUnhealthy) {
      SilentOrEmitKept(s, Command.RuntimeUnhealthy(at), FromEvent, bound);
    } else if reason.None? {
      ArmAndSubmitKept(s, at, bound);
    }
  }

  lemma FillKeepsLog(s: Session, at: int, id: OrderId, price: real, quantity: real, bound: nat)
    requires LogMatches(s, bound) && OneSubmit(s)
    ensures Kept(s, FillOp(s, at, id, price, quantity).session, bound)
  {
    var fill := Command.Fill(at, id, price, quantity);
    EmitKeepsLog(s, fill, Tagged(Some(id)), bound);
    SilentKeepsLog(DriveAndEmit(s, fill, Tagged(Some(id))).session, Command.Open(at), bound);
  }

  lemma CancelKeepsLog(s: Session, at: int, note: Note, bound: nat)
    requires LogMatches(s, bound) && OneSubmit(s)
    ensures Kept(s, ToResult(DriveAndEmit(s, Command.Cancel(at, Some(note)), Tagged(None))).session, bound)
  {
    SilentOrEmitKept(s, Command.Cancel(at, Some(note)), Tagged(None), bound);
  }

  lemma ShutdownKeepsLog(s: Session, at: int, note: Option<Note>, bound: nat)
    requires LogMatches(s, bound) && OneSubmit(s)
    ensures Kept(s, ShutdownOp(s, at, note).session, bound)
  {
    CancelKeepsLog(s, at, ReasonOr(note, ShutdownCancel), bound);
  }

  lemma ApplyKeepsLog(s: Session, c: AdapterCommand, bound: nat)
    requires LogMatches(s, bound) && OneSubmit(s)
    ensures Kept(s, Apply(s, c).session, bound)
  {
    match c
    case Submit(at, runtime) => SubmitKeepsLog(s, at, runtime, bound);
    case Acknowledge(at) => SilentOrEmitKept(s, Command.Acknowledge(at), FromEvent, bound);
    case Fill(at, id, price, quantity) => FillKeepsLog(s, at, id, price, quantity, bound);
    case Cancel(at, id, note) => CancelKeepsLog(s, at, ReasonOr(note, CancelRequestedFor(id)), bound);
    case CancelAll(at, note) => CancelKeepsLog(s, at, ReasonOr(note, AllOrdersCancelled), bound);
    case Replace(_, _) =>
    case Shutdown(at, note) => ShutdownKeepsLog(s, at, note, bound);
  }

  /**
   * For any core state at binding time and any calls: the adapter events are the core events
   * appended since, projected; they are numbered 1..n; at most one of them is SUBMITTED.
   */
  lemma {:induction false} LogIsProjection(adapter: AdapterKind, core: State, mode: Option<Mode>,
      venue: Option<Venue>, now: int,
                                           cs: seq<AdapterCommand>)
    ensures var s := Replay(CreateSession(adapter, core, mode, venue, now), cs);
            && LogMatches(s, |core.audit.events|)
            && core.audit.events <= s.core.value.audit.events
            && CountSubmitted(s.events) == (if s.submitted then 1 else 0)
    decreases |cs|
  {
    var s0 := CreateSession(adapter, core, mode, venue, now);
    if cs != [] {
      LogIsProjection(adapter, core, mode, venue, now, cs[..|cs| - 1]);
      ApplyKeepsLog(Replay(s0, cs[..|cs| - 1]), cs[|cs| - 1], |core.audit.events|);
    }
  }

  // ------------------------------------------------------------------ what a call returns

  /** The events of a result are exactly those its session gained. */
  ghost predicate ReturnsAppended(s: Session, r: AdapterResult) {
    s.events <= r.session.events && r.events == r.session.events[|s.events|..]
  }

  lemma TakeReturns(s: Session, at: int, tag: Tag, r: Result)
    ensures ReturnsAppended(s, TakeAndEmit(s, at, tag, r))
    ensures TakeSilently(s, at, r).session.events == s.events
    ensures !TakeAndEmit(s, at, tag, r).ok ==> TakeAndEmit(s, at, tag, r).session == s
  {
  }

  lemma DriveReturns(s: Session, c: Command, tag: Tag)
    ensures ReturnsAppended(s, DriveAndEmit(s, c, tag))
    ensures DriveSilent(s, c).session.events == s.events
    ensures !DriveAndEmit(s, c, tag).ok ==> DriveAndEmit(s, c, tag).session == s
  {
    if s.core.Some? {
      TakeReturns(s, c.at, tag, ReduceExecution(s.core.value, c));
    }
  }

  lemma SubmitReturns(s: Session, at: int, runtime: RuntimeContext)
    ensures ReturnsAppended(s, SubmitOp(s, at, runtime))
  {
    DriveReturns(s, Command.Kill(at), FromEvent);
    DriveReturns(s, Command.RuntimeUnhealthy(at), FromEvent);
    DriveReturns(s, Command.Arm(at), FromEvent);
    DriveReturns(DriveSilent(s, Command.Arm(at)).session, Command.Submit(at), FromEvent);
  }

  lemma FillReturns(s: Session, at: int, id: OrderId, price: real, quantity: real)
    ensures ReturnsAppended(s, FillOp(s, at, id, price, quantity))
  {
    var filled := DriveAndEmit(s, Command.Fill(at, id, price, quantity), Tagged(Some(id)));
    DriveReturns(s, Command.Fill(at, id, price, quantity), Tagged(Some(id)));
    DriveReturns(filled.session, Command.Open(at), FromEvent);
  }

  lemma ShutdownReturns(s: Session, at: int, note: Option<Note>)
    ensures ReturnsAppended(s, ShutdownOp(s, at, note))
  {
    DriveReturns(s, Command.Cancel(at, Some(ReasonOr(note, ShutdownCancel))), Tagged(None));
  }

  /** Whatever the session and the call, accepted or not: the events returned are the events appended. */
  lemma CallsReturnWhatTheyAppend(s: Session, c: AdapterCommand)
    ensures ReturnsAppended(s, Apply(s, c))
  {
    match c
    case Submit(at, runtime) => SubmitReturns(s, at, runtime);
    case Acknowledge(at) => DriveReturns(s, Command.Acknowledge(at), FromEvent);
    case Fill(at, id, price, quantity) => FillReturns(s, at, id, price, quantity);
    case Cancel(at, id, note) =>
      DriveReturns(s, Command.Cancel(at, Some(ReasonOr(note, CancelRequestedFor(id)))), Tagged(None));
    case CancelAll(at, note) =>
      DriveReturns(s, Command.Cancel(at, Some(ReasonOr(note, AllOrdersCancelled))), Tagged(None));
    case Replace(_, _) =>
    case Shutdown(at, note) => ShutdownReturns(s, at, note);
  }
}
