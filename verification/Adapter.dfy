/**
 * The paper adapter: packages/execution-adapter/src/adapter.ts, events.ts, factory.ts,
 * runtime.ts, validation.ts and paper.ts.
 */
module Adapter {
  import opened Wrappers
  import opened ExecutionTypes
  import opened Orders
  import opened Reducer

  datatype AdapterKind = NullKind | PaperKind | LiveKind

  datatype Health = ReadyHealth | Degraded | ShutdownHealth | UnavailableHealth

  datatype RuntimeState = Healthy | DegradedRuntime | Unhealthy | UnknownRuntime

  datatype RuntimeContext = RuntimeContext(state: RuntimeState, killEngaged: bool)

  datatype AdapterEventKind =
    | Submitted | Acknowledged | PartialFill | Filled | Cancelled | Failed | Expired | Rejected

  datatype AdapterEvent = AdapterEvent(
    seqNo: int,
    adapter: AdapterKind,
    intentId: string,
    orderId: Option<OrderId>,
    kind: AdapterEventKind,
    mode: Mode,
    venue: Venue,
    reason: Note,
    provenance: Provenance,
    ts: int)

  datatype Session = Session(
    adapter: AdapterKind,
    mode: Mode,
    venue: Venue,
    status: Health,
    intentId: string,
    core: Option<State>,
    events: seq<AdapterEvent>,
    seqNo: int,
    submitted: bool,
    updatedAt: int,
    clock: int)

  datatype AdapterCommand =
    | Submit(at: int, runtime: RuntimeContext)
    | Acknowledge(at: int)
    | Fill(at: int, orderId: OrderId, price: real, quantity: real)
    | Cancel(at: int, orderId: OrderId, reason: Option<Note>)
    | CancelAll(at: int, reason: Option<Note>)
    | Replace(at: int, orderId: OrderId)
    | Shutdown(at: int, reason: Option<Note>)

  datatype AdapterResult = AdapterResult(ok: bool, session: Session, events: seq<AdapterEvent>, error: Option<Failure>)

  // ------------------------------------------------------------------ events and sessions

  /** The venue-shaped name of a core event; internal bookkeeping has none. */
  function MapCoreEvent(k: EventKind): Option<AdapterEventKind> {
    match k
    case Submitted => Some(AdapterEventKind.Submitted)
    case Acknowledged => Some(AdapterEventKind.Acknowledged)
    case PartiallyFilled | Reduced => Some(AdapterEventKind.PartialFill)
    case Filled | Closed => Some(AdapterEventKind.Filled)
    case Cancelled | Killed => Some(AdapterEventKind.Cancelled)
    case Rejected | RejectedTransition => Some(AdapterEventKind.Rejected)
    case Expired => Some(AdapterEventKind.Expired)
    case Failed => Some(AdapterEventKind.Failed)
    case Planned | Armed | Opened => None
  }

  function CreateSession(adapter: AdapterKind, core: State, mode: Option<Mode>, venue: Option<Venue>,
      now: int): Session
  {
    Session(adapter,
            if mode.Some? then mode.value else core.intent.mode,
            if venue.Some? then venue.value else core.intent.venue,
            if adapter == PaperKind then ReadyHealth else UnavailableHealth,
            core.intent.signalId, Some(core), [], 0, false, now, now)
  }

  function Emit(s: Session, orderId: Option<OrderId>, kind: AdapterEventKind, reason: Note, provenance: Provenance,
      ts: int): Session
  {
    var event :=
        AdapterEvent(s.seqNo + 1, s.adapter, s.intentId, orderId, kind, s.mode, s.venue, reason, provenance, ts);
    s.(events := s.events + [event], seqNo := s.seqNo + 1, updatedAt := ts, clock := ts)
  }

  function CoreError(r: Result, at: int): Failure {
    if r.failure.Some? then Failure(r.failure.value.reason, at, r.failure.value.fatal)
    else Failure(FailureReason.ValidationFailed, at, false)
  }

  /** Advance the core without an adapter event. */
  function DriveSilent(s: Session, c: Command): AdapterResult {
    if s.core.None? then AdapterResult(false, s, [], Some(Failure(NotBound, c.at, false)))
    else TakeSilently(s, c.at, ReduceExecution(s.core.value, c))
  }

  function TakeSilently(s: Session, at: int, r: Result): AdapterResult {
    if !r.ok then AdapterResult(false, s, [], Some(CoreError(r, at)))
    else AdapterResult(true, s.(core := Some(r.state), updatedAt := at, clock := at), [], None)
  }

  /** Which order an event concerns: the caller's tag, or the entity of an order event. */
  datatype Tag = FromEvent | Tagged(orderId: Option<OrderId>)

  function TagFor(tag: Tag, e: Event): Option<OrderId> {
    match tag
    case Tagged(id) => id
    case FromEvent => if e.entity.OrderEntity? then Some(e.entity.id) else None
  }

  /** Advance the core and append the venue event of the transition, if it has one. */
  function DriveAndEmit(s: Session, c: Command, tag: Tag): AdapterResult {
    if s.core.None? then AdapterResult(false, s, [], Some(Failure(NotBound, c.at, false)))
    else TakeAndEmit(s, c.at, tag, ReduceExecution(s.core.value, c))
  }

  function TakeAndEmit(s: Session, at: int, tag: Tag, r: Result): AdapterResult {
    if !r.ok then AdapterResult(false, s, [], Some(CoreError(r, at)))
    else
      var next := s.(core := Some(r.state), updatedAt := at, clock := at);
      if r.event.None? || MapCoreEvent(r.event.value.kind).None? then AdapterResult(true, next, [], None)
      else
        var e := r.event.value;
        var out := Emit(next, TagFor(tag, e), MapCoreEvent(e.kind).value, e.reason, e.provenance, at);
        AdapterResult(true, out, [out.events[|next.events|]], None)
  }

  /** driveAndEmit as it is written: the session is rebound and the event pushed step by step. */
  method Drive(s: Session, c: Command, tag: Tag) returns (r: AdapterResult)
    ensures r == DriveAndEmit(s, c, tag)
  {
    if s.core.None? {
      return AdapterResult(false, s, [], Some(Failure(NotBound, c.at, false)));
    }
    var result := ReduceExecution(s.core.value, c);
    if !result.ok {
      return AdapterResult(false, s, [], Some(CoreError(result, c.at)));
    }
    var next := s.(core := Some(result.state), updatedAt := c.at, clock := c.at);
    var emitted: seq<AdapterEvent> := [];
    if result.event.Some? {
      var e := result.event.value;
      var kind := MapCoreEvent(e.kind);
      if kind.Some? {
        next := Emit(next, TagFor(tag, e), kind.value, e.reason, e.provenance, c.at);
        emitted := emitted + [next.events[|s.events|]];
      }
    }
    return AdapterResult(true, next, emitted, None);
  }

  // ------------------------------------------------------------------ validation

  function LiveReason(s: Session): Option<FailureReason> {
    if s.status == ShutdownHealth then Some(AdapterShutdown)
    else if s.core.None? then Some(NotBound)
    else if IsTerminal(s.core.value.status) then Some(Terminal)
    else None
  }

  function RuntimeBlockReason(ctx: RuntimeContext): Option<FailureReason> {
    if ctx.killEngaged then Some(FailureReason.KillSwitch)
    else if ctx.state != Healthy then Some(FailureReason.RuntimeUnhealthy)
    else None
  }

  function ValidateSubmit(s: Session, runtime: RuntimeContext): Option<FailureReason> {
    if LiveReason(s).Some? then LiveReason(s)
    else if s.submitted then Some(DuplicateSubmit)
    else if RuntimeBlockReason(runtime).Some? then RuntimeBlockReason(runtime)
    else if s.core.value.plan.None? then Some(FailureReason.NoPlan)
    else
      var plan := s.core.value.plan.value;
      if plan.submittable then None
      else if plan.blockedReason.Some? then plan.blockedReason
      else Some(FailureReason.ValidationFailed)
  }

  function ValidateAcknowledge(s: Session): Option<FailureReason> {
    if LiveReason(s).Some? then LiveReason(s)
    else if !s.submitted then Some(NotSubmitted)
    else None
  }

  function ValidateFill(s: Session, id: OrderId, quantity: real): Option<FailureReason> {
    if LiveReason(s).Some? then LiveReason(s)
    else if !s.submitted then Some(NotSubmitted)
    else if IndexOfOrder(s.core.value.orders, id).None? then Some(UnknownOrder)
    else if quantity <= 0.0 then Some(FailureReason.ValidationFailed)
    else None
  }

  function ValidateCancel(s: Session, id: OrderId): Option<FailureReason> {
    if LiveReason(s).Some? then LiveReason(s)
    else if IndexOfOrder(s.core.value.orders, id).None? then Some(UnknownOrder)
    else None
  }

  // ------------------------------------------------------------------ the seven operations

  function FailWith(s: Session, reason: FailureReason, at: int, fatal: bool): AdapterResult {
    AdapterResult(false, s, [], Some(Failure(reason, at, fatal)))
  }

  /** `toResult`: a failed drive carries its session but no events. */
  function ToResult(r: AdapterResult): AdapterResult {
    if r.ok then r.(error := None) else r.(events := [])
  }

  function SubmitOp(s: Session, at: int, runtime: RuntimeContext): AdapterResult {
    var reason := ValidateSubmit(s, runtime);
    if reason == Some(FailureReason.KillSwitch) then
      var driven := DriveAndEmit(s, Command.Kill(at), FromEvent);
      AdapterResult(false, driven.session, driven.events, Some(Failure(FailureReason.KillSwitch, at, false)))
    else if reason == Some(FailureReason.RuntimeUnhealthy) then
      var driven := DriveAndEmit(s, Command.RuntimeUnhealthy(at), FromEvent);
      AdapterResult(false, driven.session, driven.events, Some(Failure(FailureReason.RuntimeUnhealthy, at, true)))
    else if reason.Some? then FailWith(s, reason.value, at, reason.value == Terminal)
    else
      var armed := DriveSilent(s, Command.Arm(at));
      if !armed.ok then AdapterResult(false, s, [], armed.error)
      else
        var submitted := DriveAndEmit(armed.session, Command.Submit(at), FromEvent);
        if !submitted.ok then AdapterResult(false, s, [], submitted.error)
        else ToResult(submitted.(session := submitted.session.(submitted := true)))
  }

  function AcknowledgeOp(s: Session, at: int): AdapterResult {
    var reason := ValidateAcknowledge(s);
    if reason.Some? then FailWith(s, reason.value, at, reason.value == Terminal)
    else ToResult(DriveAndEmit(s, Command.Acknowledge(at), FromEvent))
  }

  /** A completed entry is opened silently in the same call. */
  function FillOp(s: Session, at: int, id: OrderId, price: real, quantity: real): AdapterResult {
    var reason := ValidateFill(s, id, quantity);
    if reason.Some? then FailWith(s, reason.value, at, false)
    else
      var filled := DriveAndEmit(s, Command.Fill(at, id, price, quantity), Tagged(Some(id)));
      if !filled.ok then AdapterResult(false, s, [], filled.error)
      else if filled.session.core.Some? && filled.session.core.value.status == Status.Filled then
        var opening := DriveSilent(filled.session, Command.Open(at));
        AdapterResult(true, if opening.ok then opening.session else filled.session, filled.events, None)
      else AdapterResult(true, filled.session, filled.events, None)
  }

  function CancelOp(s: Session, at: int, id: OrderId, note: Option<Note>): AdapterResult {
    var reason := ValidateCancel(s, id);
    if reason.Some? then FailWith(s, reason.value, at, reason.value == Terminal)
    else ToResult(DriveAndEmit(s, Command.Cancel(at, Some(ReasonOr(note, CancelRequestedFor(id)))), Tagged(None)))
  }

  function CancelAllOp(s: Session, at: int, note: Option<Note>): AdapterResult {
    var reason := LiveReason(s);
    if reason.Some? then FailWith(s, reason.value, at, reason.value == Terminal)
    else ToResult(DriveAndEmit(s, Command.Cancel(at, Some(ReasonOr(note, AllOrdersCancelled))), Tagged(None)))
  }

  function ShutdownOp(s: Session, at: int, note: Option<Note>): AdapterResult {
    if s.status == ShutdownHealth then AdapterResult(true, s, [], None)
    else
      var cancelled :=
        if s.core.Some? && !s.core.value.lifecycle.terminal then
          DriveAndEmit(s, Command.Cancel(at, Some(ReasonOr(note, ShutdownCancel))), Tagged(None))
        else AdapterResult(false, s, [], None);
      var next := if cancelled.ok then cancelled.session else s;
      AdapterResult(true, next.(status := ShutdownHealth, updatedAt := at, clock := at),
                    if cancelled.ok then cancelled.events else [], None)
  }

  /** fill as it is written. */
  method FillOrder(s: Session, at: int, id: OrderId, price: real, quantity: real) returns (r: AdapterResult)
    ensures r == FillOp(s, at, id, price, quantity)
  {
    var reason := ValidateFill(s, id, quantity);
    if reason.Some? {
      return FailWith(s, reason.value, at, false);
    }
    var filled := Drive(s, Command.Fill(at, id, price, quantity), Tagged(Some(id)));
    if !filled.ok {
      return AdapterResult(false, s, [], filled.error);
    }
    var next := filled.session;
    if next.core.Some? && next.core.value.status == Status.Filled {
      var opening := DriveSilent(next, Command.Open(at));
      if opening.ok {
        next := opening.session;
      }
    }
    return ToResult(AdapterResult(true, next, filled.events, None));
  }

  /** shutdown as it is written. */
  method ShutDown(s: Session, at: int, note: Option<Note>) returns (r: AdapterResult)
    ensures r == ShutdownOp(s, at, note)
  {
    if s.status == ShutdownHealth {
      return ToResult(AdapterResult(true, s, [], None));
    }
    var next, events := s, [];
    if next.core.Some? && !next.core.value.lifecycle.terminal {
      var cancelled := Drive(next, Command.Cancel(at, Some(ReasonOr(note, ShutdownCancel))), Tagged(None));
      if cancelled.ok {
        next, events := cancelled.session, cancelled.events;
      }
    }
    next := next.(status := ShutdownHealth, updatedAt := at, clock := at);
    return ToResult(AdapterResult(true, next, events, None));
  }

  function Apply(s: Session, c: AdapterCommand): AdapterResult {
    match c
    case Submit(at, runtime) => SubmitOp(s, at, runtime)
    case Acknowledge(at) => AcknowledgeOp(s, at)
    case Fill(at, id, price, quantity) => FillOp(s, at, id, price, quantity)
    case Cancel(at, id, note) => CancelOp(s, at, id, note)
    case CancelAll(at, note) => CancelAllOp(s, at, note)
    case Replace(at, _) => FailWith(s, UnsupportedOperation, at, false)
    case Shutdown(at, note) => ShutdownOp(s, at, note)
  }

  /** The session after a list of adapter calls. */
  function Replay(s: Session, cs: seq<AdapterCommand>): Session {
    if cs == [] then s else Apply(Replay(s, cs[..|cs| - 1]), cs[|cs| - 1]).session
  }
}
