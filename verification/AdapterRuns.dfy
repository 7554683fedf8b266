/** What every run of the paper adapter keeps: the core commands behind a call, and position conservation. */
module AdapterRuns {
  import opened Wrappers
  import opened Decimal
  import opened ExecutionTypes
  import opened Orders
  import opened Positions
  import opened Reducer
  import opened Lifecycles
  import opened Conservation
  import opened Adapter
  import Plans

  // ------------------------------------------------------------------ the core commands behind a call

  /** The core commands an adapter call runs; a refused one leaves the core as it was. */
  function CoreCommands(s: Session, c: AdapterCommand): seq<Command>
    requires s.core.Some?
  {
    var core := s.core.value;
    match c
    case Submit(at, runtime) =>
      var reason := ValidateSubmit(s, runtime);
      if reason == Some(FailureReason.KillSwitch) then [Command.Kill(at)]
      else if reason == Some(FailureReason.RuntimeUnhealthy) then [Command.RuntimeUnhealthy(at)]
      else if reason.None? && ReduceExecution(core, Command.Arm(at)).ok
              && ReduceExecution(ReduceExecution(core, Command.Arm(at)).state, Command.Submit(at)).ok
      then [Command.Arm(at), Command.Submit(at)]
      else []
    case Acknowledge(at) =>
      if ValidateAcknowledge(s).Some? then [] else [Command.Acknowledge(at)]
    case Fill(at, id, price, quantity) =>
      if ValidateFill(s, id, quantity).Some? then []
      else
        var r := ReduceExecution(core, Command.Fill(at, id, price, quantity));
        if r.ok && r.state.status == Status.Filled then [Command.Fill(at, id, price, quantity), Command.Open(at)]
        else [Command.Fill(at, id, price, quantity)]
    case Cancel(at, id, note) =>
      if ValidateCancel(s, id).Some? then [] else [Command.Cancel(at, Some(ReasonOr(note, CancelRequestedFor(id))))]
    case CancelAll(at, note) =>
      if LiveReason(s).Some? then [] else [Command.Cancel(at, Some(ReasonOr(note, AllOrdersCancelled)))]
    case Replace(_, _) => []
    case Shutdown(at, note) =>
      if s.status == ShutdownHealth || core.lifecycle.terminal then []
          else [Command.Cancel(at, Some(ReasonOr(note, ShutdownCancel)))]
  }

  lemma RunShort(s: State, a: Command, b: Command)
    ensures Run(s, []) == s
    ensures Run(s, [a]) == ReduceExecution(s, a).state
    ensures Run(s, [a, b]) == ReduceExecution(ReduceExecution(s, a).state, b).state
  {
    assert [a][..0] == [];
    assert [a, b][..1] == [a];
  }

  lemma TakeState(s: Session, at: int, tag: Tag, r: Result)
    requires s.core.Some? && (!r.ok ==> r.state == s.core.value)
    ensures TakeAndEmit(s, at, tag, r).session.core == Some(r.state) == TakeSilently(s, at, r).session.core
    ensures TakeAndEmit(s, at, tag, r).ok == TakeSilently(s, at, r).ok == r.ok
    ensures TakeAndEmit(s, at, tag, r).session.submitted == s.submitted
  {
  }

  lemma RefusalKeepsState(s: State, c: Command)
    ensures !ReduceExecution(s, c).ok ==> ReduceExecution(s, c).state == s
  {
    StepShape(s, c);
  }

  lemma DriveState(s: Session, c: Command, tag: Tag)
    requires s.core.Some?
    ensures DriveAndEmit(s, c, tag).session.core == Some(ReduceExecution(s.core.value, c).state)
    ensures DriveSilent(s, c).session.core == Some(ReduceExecution(s.core.value, c).state)
    ensures DriveAndEmit(s, c, tag).ok == DriveSilent(s, c).ok == ReduceExecution(s.core.value, c).ok
    ensures DriveAndEmit(s, c, tag).session.submitted == s.submitted
  {
    RefusalKeepsState(s.core.value, c);
    TakeState(s, c.at, tag, ReduceExecution(s.core.value, c));
  }

  lemma ArmSubmitFollows(s: Session, at: int)
    requires s.core.Some?
    ensures var armed := DriveSilent(s, Command.Arm(at));
            var submitted := DriveAndEmit(armed.session, Command.Submit(at), FromEvent);
            && armed.ok == ReduceExecution(s.core.value, Command.Arm(at)).ok
            && (armed.ok ==>
                  && submitted.ok ==
                     ReduceExecution(ReduceExecution(s.core.value, Command.Arm(at)).state, Command.Submit(at)).ok
                  && submitted.session.core == Some(Run(s.core.value, [Command.Arm(at), Command.Submit(at)])))
  {
    RunShort(s.core.value, Command.Arm(at), Command.Submit(at));
    DriveState(s, Command.Arm(at), FromEvent);
    DriveState(DriveSilent(s, Command.Arm(at)).session, Command.Submit(at), FromEvent);
  }

  lemma SubmitFollows(s: Session, at: int, runtime: RuntimeContext)
    requires s.core.Some?
    ensures SubmitOp(s, at, runtime).session.core ==
        Some(Run(s.core.value, CoreCommands(s, AdapterCommand.Submit(at, runtime))))
    ensures SubmitOp(s, at, runtime).session.submitted
            == (s.submitted || |CoreCommands(s, AdapterCommand.Submit(at, runtime))| == 2)
  {
    var reason := ValidateSubmit(s, runtime);
    if reason.None? {
      ArmSubmitFollows(s, at);
    } else {
      var c := if reason.value.KillSwitch? then Command.Kill(at) else Command.RuntimeUnhealthy(at);
      RunShort(s.core.value, c, c);
      DriveState(s, c, FromEvent);
    }
  }

  lemma FillFollows(s: Session, at: int, id: OrderId, price: real, quantity: real)
    requires s.core.Some?
    ensures FillOp(s, at, id, price, quantity).session.core
            == Some(Run(s.core.value, CoreCommands(s, AdapterCommand.Fill(at, id, price, quantity))))
    ensures FillOp(s, at, id, price, quantity).session.submitted == s.submitted
  {
    var fill := Command.Fill(at, id, price, quantity);
    RunShort(s.core.value, fill, Command.Open(at));
    DriveState(s, fill, Tagged(Some(id)));
    DriveState(DriveAndEmit(s, fill, Tagged(Some(id))).session, Command.Open(at), FromEvent);
  }

  lemma DriveFollows(s: Session, c: Command, tag: Tag)
    requires s.core.Some?
    ensures ToResult(DriveAndEmit(s, c, tag)).session.core == Some(Run(s.core.value, [c]))
    ensures ToResult(DriveAndEmit(s, c, tag)).session.submitted == s.submitted
    ensures Run(s.core.value, []) == s.core.value
  {
    RunShort(s.core.value, c, c);
    DriveState(s, c, tag);
  }

  lemma ShutdownFollows(s: Session, at: int, note: Option<Note>)
    requires s.core.Some?
    ensures ShutdownOp(s, at, note).session.core ==
        Some(Run(s.core.value, CoreCommands(s, AdapterCommand.Shutdown(at, note))))
    ensures ShutdownOp(s, at, note).session.submitted == s.submitted
  {
    DriveFollows(s, Command.Cancel(at, Some(ReasonOr(note, ShutdownCancel))), Tagged(None));
  }

  /** The core of a session moves exactly by the core commands of each call. */
  lemma CoreFollows(s: Session, c: AdapterCommand)
    requires s.core.Some?
    ensures Apply(s, c).session.core == Some(Run(s.core.value, CoreCommands(s, c)))
    ensures Apply(s, c).session.submitted == (s.submitted || (c.Submit? && |CoreCommands(s, c)| == 2))
  {
    match c
    case Submit(at, runtime) => SubmitFollows(s, at, runtime);
    case Acknowledge(at) => DriveFollows(s, Command.Acknowledge(at), FromEvent);
    case Fill(at, id, price, quantity) => FillFollows(s, at, id, price, quantity);
    case Cancel(at, id, note) => DriveFollows(s, Command.Cancel(at, Some(ReasonOr(note, CancelRequestedFor(id)))),
        Tagged(None));
    case CancelAll(at, note) => DriveFollows(s, Command.Cancel(at, Some(ReasonOr(note, AllOrdersCancelled))),
        Tagged(None));
    case Replace(_, _) => assert Run(s.core.value, []) == s.core.value;
    case Shutdown(at, note) => ShutdownFollows(s, at, note);
  }

  // ------------------------------------------------------------------ position against protective fills

  /** The position as the entry order and the protective fill records determine it, status by status. */
  predicate Balanced(status: Status, entry: Order, closing: int, p: Position, intent: Intent) {
    match status
    case Open | Reducing | Closed =>
      && entry.quantity == Some(entry.filled)
      && p.entryQuantity == entry.filled > 0
      && p.avgEntryPrice == entry.avgFillPrice
      && p.direction == intent.direction
      && p.closedQuantity == Min(p.entryQuantity, closing)
      && Signed(p)
      && (status.Open? ==> p.status.Open? && closing == 0)
      && (status.Reducing? ==> p.status.Reducing? && 0 <= closing < p.entryQuantity)
      && (status.Closed? ==> p.status.Closed? && closing >= p.entryQuantity)
    case Cancelled =>
      || p == EmptyPosition(intent)
      || (p.status.Closed? && p.quantity == 0 && p.closedQuantity == p.entryQuantity > 0
          && p.direction == intent.direction)
    case Filled =>
      p == EmptyPosition(intent) && closing == 0 && entry.quantity == Some(entry.filled)
    case _ =>
      p == EmptyPosition(intent) && closing == 0
  }

  ghost predicate PositionBalanced(s: State) {
    |s.orders| > 0 && Balanced(s.status, s.orders[0], ProtectiveFilled(s.fills), s.position, s.intent)
  }

  /** Exposure only shrinks: the closed part grows, the opened quantity and the side are kept. */
  predicate Monotone(p: Position, q: Position) {
    && p.closedQuantity <= q.closedQuantity
    && (p.entryQuantity == q.entryQuantity || p.entryQuantity == 0)
    && p.direction == q.direction
  }

  /** The core commands the adapter issues, and when. */
  predicate Issued(s: State, c: Command) {
    match c
    case Arm(_) | Submit(_) | Acknowledge(_) | Fill(_, _, _, _) | Cancel(_, _) | Kill(_) => true
    case Open(_) => s.status.Filled?
    case RuntimeUnhealthy(_) => s.status.Planned?
    case _ => false
  }

  /** A completed entry holds its whole size; a fill that does not complete it leaves nothing else to say. */
  lemma FilledEntryIsWhole(o: Order, price: real, quantity: real, at: int)
    requires o.status.Acknowledged? || o.status.PartiallyFilled?
    ensures var f := ApplyFillToOrder(o, price, quantity, at);
            f.status.Filled? ==> f.quantity == Some(f.filled)
  {
    if o.quantity.Some? {
      RoundOfInteger(o.quantity.value);
    }
  }

  /** Before the position opens, entry fills only move the entry. */
  lemma AcceptedEntryFill(s: State, price: real, quantity: real, at: int)
    requires PositionBalanced(s) && s.orders[0].role == Role.Entry && s.orders[0].id.role == Role.Entry
    requires s.status.Acknowledged? || s.status.PartiallyFilled?
    requires EntryStatus(s.status, s.orders[0].status) && IndexOfOrder(s.orders, s.orders[0].id) == Some(0)
    ensures PositionBalanced(ReduceFill(s, s.orders[0].id, price, quantity, at).state)
  {
    var o := s.orders[0];
    var f :=
        MakeFill(o, CountFills(s.fills, o.id), price, quantity, ApplyFillToOrder(o, price, quantity, at).filled, at);
    SumsAppend(s.fills, f, o.id);
    FilledEntryIsWhole(o, price, quantity, at);
  }

  /** In every other status an entry fill is refused. */
  lemma RefusedEntryFill(s: State, price: real, quantity: real, at: int)
    requires s.orders != [] && s.orders[0].role == Role.Entry && IndexOfOrder(s.orders, s.orders[0].id) == Some(0)
    requires !s.status.Acknowledged? && !s.status.PartiallyFilled?
    ensures ReduceFill(s, s.orders[0].id, price, quantity, at).state == s
  {
  }

  lemma EntryFillLeavesPosition(s: State, price: real, quantity: real, at: int)
    requires s.orders != [] && s.orders[0].role == Role.Entry && IndexOfOrder(s.orders, s.orders[0].id) == Some(0)
    ensures ReduceFill(s, s.orders[0].id, price, quantity, at).state.position == s.position
  {
  }

  /** An entry fill leaves the position alone; completing the entry fixes its size. */
  lemma EntryFillKeepsPosition(s: State, price: real, quantity: real, at: int)
    requires PositionBalanced(s) && s.orders[0].role == Role.Entry && s.orders[0].id.role == Role.Entry
    requires EntryStatus(s.status, s.orders[0].status)
    ensures PositionBalanced(ReduceFill(s, s.orders[0].id, price, quantity, at).state)
    ensures ReduceFill(s, s.orders[0].id, price, quantity, at).state.position == s.position
  {
    assert IndexOfOrder(s.orders, s.orders[0].id) == Some(0);
    EntryFillLeavesPosition(s, price, quantity, at);
    if s.status.Acknowledged? || s.status.PartiallyFilled? {
      AcceptedEntryFill(s, price, quantity, at);
    } else {
      RefusedEntryFill(s, price, quantity, at);
    }
  }

  /** A protective fill closes exactly what it records, clamped to what is left. */
  lemma ReduceKeepsBalance(status: Status, entry: Order, closing: int, p: Position, intent: Intent, quantity: real,
      at: int)
    requires Balanced(status, entry, closing, p, intent) && IsLive(p) && quantity > 0.0
    ensures var q := ReducePosition(p, quantity, at);
            && Balanced(if q.status.Closed? then Status.Closed else Status.Reducing,
                        entry, closing + Round(quantity), q, intent)
            && Monotone(p, q)
  {
    RoundMonotone(0.0, quantity);
  }

  /** What an accepted protective fill does to the state. */
  lemma AcceptedProtectiveFill(s: State, i: nat, price: real, quantity: real, at: int)
    requires 0 < i < |s.orders| && s.orders[i].role != Role.Entry && s.orders[0].id != s.orders[i].id
    requires IndexOfOrder(s.orders, s.orders[i].id) == Some(i)
    requires ReduceFill(s, s.orders[i].id, price, quantity, at).ok
    ensures var r := ReduceFill(s, s.orders[i].id, price, quantity, at).state;
            var p := ReducePosition(s.position, quantity, at);
            && quantity > 0.0 && IsLive(s.position)
            && r.position == p && r.status == (if p.status.Closed? then Status.Closed else Status.Reducing)
            && r.intent == s.intent && r.orders != [] && r.orders[0] == s.orders[0]
            && r.fills == s.fills + [MakeFill(s.orders[i], CountFills(s.fills, s.orders[i].id), price, quantity,
                                              ApplyFillToOrder(s.orders[i], price, quantity, at).filled, at)]
  {
  }

  lemma RefusedProtectiveFill(s: State, i: nat, price: real, quantity: real, at: int)
    requires i < |s.orders| && !ReduceFill(s, s.orders[i].id, price, quantity, at).ok
    ensures ReduceFill(s, s.orders[i].id, price, quantity, at).state == s
  {
  }

  lemma ProtectiveFillKeepsPosition(s: State, i: nat, price: real, quantity: real, at: int)
    requires PositionBalanced(s) && 0 < i < |s.orders|
    requires s.orders[i].role != Role.Entry && s.orders[i].id.role != Role.Entry && s.orders[0].id != s.orders[i].id
    requires IndexOfOrder(s.orders, s.orders[i].id) == Some(i)
    ensures PositionBalanced(ReduceFill(s, s.orders[i].id, price, quantity, at).state)
    ensures Monotone(s.position, ReduceFill(s, s.orders[i].id, price, quantity, at).state.position)
  {
    var r := ReduceFill(s, s.orders[i].id, price, quantity, at);
    if r.ok {
      AcceptedProtectiveFill(s, i, price, quantity, at);
      var f := r.state.fills[|s.fills|];
      SumsAppend(s.fills, f, s.orders[i].id);
      ReduceKeepsBalance(s.status, s.orders[0], ProtectiveFilled(s.fills), s.position, s.intent, quantity, at);
    } else {
      RefusedProtectiveFill(s, i, price, quantity, at);
    }
  }

  lemma OpenKeepsPosition(s: State, at: int)
    requires PositionBalanced(s) && s.orders[0].role == Role.Entry && s.status.Filled?
    ensures PositionBalanced(ReduceExecution(s, Command.Open(at)).state)
    ensures Monotone(s.position, ReduceExecution(s, Command.Open(at)).state.position)
    ensures ReduceExecution(s, Command.Open(at)).ok <==> s.orders[0].filled > 0
  {
    assert IndexOfEntry(s.orders) == Some(0);
  }

  /** A cancel or kill closes whatever is open. */
  lemma CloseKeepsBalance(status: Status, entry: Order, closing: int, s: State, at: int)
    requires Balanced(status, entry, closing, s.position, s.intent) && !IsTerminal(status)
    ensures Balanced(Status.Cancelled, entry, closing, ClosedIfLive(s, at), s.intent)
    ensures Monotone(s.position, ClosedIfLive(s, at))
  {
  }

  lemma StopKeepsPosition(s: State, c: Command)
    requires PositionBalanced(s) && (c.Cancel? || c.Kill?)
    ensures PositionBalanced(ReduceExecution(s, c).state)
    ensures Monotone(s.position, ReduceExecution(s, c).state.position)
  {
    if !IsTerminal(s.status) {
      CloseKeepsBalance(s.status, s.orders[0], ProtectiveFilled(s.fills), s, c.at);
    }
  }

  lemma AdvanceKeepsPosition(s: State, c: Command)
    requires PositionBalanced(s)
    requires c.Arm? || c.Submit? || c.Acknowledge? || (c.RuntimeUnhealthy? && s.status.Planned?)
    ensures PositionBalanced(ReduceExecution(s, c).state)
    ensures s.position == ReduceExecution(s, c).state.position
  {
  }

  /** Everything the adapter keeps about its core. */
  ghost predicate CoreKept(s: State, planned: seq<Order>) {
    && Lockstep(s, planned)
    && WellFormedRun(s)
    && OrdersBalanced(s)
    && PositionBalanced(s)
  }

  lemma FillKeepsPosition(s: State, id: OrderId, price: real, quantity: real, at: int, planned: seq<Order>)
    requires Lockstep(s, planned) && PositionBalanced(s)
    ensures PositionBalanced(ReduceFill(s, id, price, quantity, at).state)
    ensures Monotone(s.position, ReduceFill(s, id, price, quantity, at).state.position)
  {
    var i := IndexOfOrder(s.orders, id);
    if i.Some? {
      if i.value == 0 {
        EntryFillKeepsPosition(s, price, quantity, at);
      } else {
        ProtectiveFillKeepsPosition(s, i.value, price, quantity, at);
      }
    }
  }

  lemma IssuedKeepsBalance(s: State, c: Command)
    requires OrdersBalanced(s) && EntryFirst(s.orders)
    ensures OrdersBalanced(ReduceExecution(s, c).state)
  {
    match c
    case Fill(at, id, price, quantity) => FillKeepsBalance(s, id, price, quantity, at);
    case _ => MoveKeepsBalance(s, c);
  }

  lemma IssuedKeepsPosition(s: State, c: Command, planned: seq<Order>)
    requires Lockstep(s, planned) && PositionBalanced(s) && Issued(s, c)
    ensures PositionBalanced(ReduceExecution(s, c).state)
    ensures Monotone(s.position, ReduceExecution(s, c).state.position)
  {
    match c
    case Fill(at, id, price, quantity) =>
      if !IsTerminal(s.status) { FillKeepsPosition(s, id, price, quantity, at, planned); }
    case Open(at) => OpenKeepsPosition(s, at);
    case Cancel(_, _) | Kill(_) => StopKeepsPosition(s, c);
    case _ => AdvanceKeepsPosition(s, c);
  }

  lemma KeptOrders(s: State, planned: seq<Order>)
    requires Lockstep(s, planned)
    ensures EntryFirst(s.orders)
  {
    forall i | 0 <= i < |planned| ensures SameOrderTerms(s.orders[i], planned[i]) {
    }
  }

  lemma StepKeepsCore(s: State, c: Command, planned: seq<Order>)
    requires CoreKept(s, planned) && Issued(s, c)
    ensures CoreKept(ReduceExecution(s, c).state, planned)
    ensures Monotone(s.position, ReduceExecution(s, c).state.position)
  {
    LockstepStep(s, c, planned);
    StepKeepsRun(s, c);
    KeptOrders(s, planned);
    IssuedKeepsBalance(s, c);
    IssuedKeepsPosition(s, c, planned);
  }

  // ------------------------------------------------------------------ whole sessions

  /** Everything a session keeps between calls. */
  ghost predicate SessionKept(s: Session, planned: seq<Order>) {
    && s.core.Some?
    && var core := s.core.value;
       && CoreKept(core, planned)
       && Resting(core, s.submitted)
  }

  /** What one call may run on the core: at most two commands, in these shapes. */
  ghost predicate CallShape(core: State, submitted: bool, cs: seq<Command>) {
    || cs == []
    || (|cs| == 1 && Issued(core, cs[0])
        && (cs[0].Acknowledge? || cs[0].Fill? || cs[0].Cancel? || cs[0].Kill? || cs[0].RuntimeUnhealthy?)
        && (cs[0].Acknowledge? || cs[0].Fill? ==> submitted)
        && (cs[0].Fill? ==> !ReduceExecution(core, cs[0]).ok || !ReduceExecution(core, cs[0]).state.status.Filled?))
    || (|cs| == 2 && cs[0].Arm? && cs[1].Submit?
        && ReduceExecution(core, cs[0]).ok && ReduceExecution(ReduceExecution(core, cs[0]).state, cs[1]).ok)
    || (|cs| == 2 && cs[0].Fill? && cs[1].Open? && submitted
        && ReduceExecution(core, cs[0]).ok && ReduceExecution(core, cs[0]).state.status.Filled?)
  }

  lemma CallIssues(s: Session, c: AdapterCommand)
    requires s.core.Some?
    requires !s.submitted && !IsTerminal(s.core.value.status) ==> s.core.value.status.Planned?
    ensures CallShape(s.core.value, s.submitted, CoreCommands(s, c))
    ensures |CoreCommands(s, c)| == 2 && CoreCommands(s, c)[0].Arm? <==> |CoreCommands(s, c)| == 2 && c.Submit?
  {
  }

  lemma StatusAfter(s: State, c: Command)
    requires ReduceExecution(s, c).ok
    ensures var status := ReduceExecution(s, c).state.status;
            && (c.Acknowledge? ==> status.Acknowledged?)
            && (c.Cancel? || c.Kill? ==> status.Cancelled?)
            && (c.RuntimeUnhealthy? ==> status.Failed?)
            && (c.Submit? ==> status.Submitted?)
            && (c.Open? ==> status.Open?)
            && (c.Fill? ==> status.PartiallyFilled? || status.Filled? || status.Reducing? || status.Closed?)
  {
    match c
    case Fill(_, _, _, _) =>
    case _ =>
  }

  /** Where a call may leave the core. */
  ghost predicate Resting(core: State, submitted: bool) {
    && (!submitted ==> core.status.Planned? || core.status.Cancelled? || core.status.Failed?)
    && !core.status.Ready?
    && (core.status.Filled? ==> core.orders != [] && core.orders[0].filled <= 0)
  }

  lemma OneCommandRests(core: State, submitted: bool, c: Command, planned: seq<Order>)
    requires CoreKept(core, planned) && Resting(core, submitted) && CallShape(core, submitted, [c])
    ensures var s := ReduceExecution(core, c).state;
            CoreKept(s, planned) && Monotone(core.position, s.position) && Resting(s, submitted)
  {
    assert [c][0] == c;
    StepKeepsCore(core, c, planned);
    StepShape(core, c);
    if ReduceExecution(core, c).ok {
      StatusAfter(core, c);
    }
  }

  lemma TwoCommandsRest(core: State, submitted: bool, a: Command, b: Command, planned: seq<Order>)
    requires CoreKept(core, planned) && CallShape(core, submitted, [a, b])
    ensures var s := ReduceExecution(ReduceExecution(core, a).state, b).state;
            CoreKept(s, planned) && Monotone(core.position, s.position) && Resting(s, submitted || a.Arm?)
  {
    assert [a, b][0] == a && [a, b][1] == b;
    var mid := ReduceExecution(core, a).state;
    StepKeepsCore(core, a, planned);
    StepKeepsCore(mid, b, planned);
    StepShape(mid, b);
    if b.Open? {
      OpenKeepsPosition(mid, b.at);
    }
    if ReduceExecution(mid, b).ok {
      StatusAfter(mid, b);
    }
  }

  lemma ShapeRests(core: State, submitted: bool, cs: seq<Command>, planned: seq<Order>)
    requires CoreKept(core, planned) && Resting(core, submitted) && CallShape(core, submitted, cs)
    ensures CoreKept(Run(core, cs), planned) && Monotone(core.position, Run(core, cs).position)
    ensures Resting(Run(core, cs), submitted || (|cs| == 2 && cs[0].Arm?))
  {
    if |cs| == 1 {
      assert cs == [cs[0]];
      RunShort(core, cs[0], cs[0]);
      OneCommandRests(core, submitted, cs[0], planned);
    } else if |cs| == 2 {
      assert cs == [cs[0], cs[1]];
      RunShort(core, cs[0], cs[1]);
      TwoCommandsRest(core, submitted, cs[0], cs[1], planned);
    }
  }

  lemma CallKeepsSession(s: Session, c: AdapterCommand, planned: seq<Order>)
    requires SessionKept(s, planned)
    ensures SessionKept(Apply(s, c).session, planned)
    ensures Monotone(s.core.value.position, Apply(s, c).session.core.value.position)
  {
    CoreFollows(s, c);
    CallIssues(s, c);
    ShapeRests(s.core.value, s.submitted, CoreCommands(s, c), planned);
  }

  /** A paper session bound to a freshly created execution. */
  function NewSession(intent: Intent, killEngaged: bool, runtimeHealthy: bool, now: int): Session {
    CreateSession(PaperKind, Created(intent, killEngaged, runtimeHealthy, now), None, None, now)
  }

  lemma NothingYetKept(intent: Intent)
    ensures CoreKept(InitState(intent, Some(Plans.PlanFor(intent))), Plans.PlanOrders(intent))
  {
  }

  lemma PlannedKept(s: State, now: int, planned: seq<Order>)
    requires CoreKept(s, planned) && s.status.NotCreated? && s.plan.Some?
    ensures var r := ReduceExecution(s, Command.Plan(now)).state; CoreKept(r, planned) && r.status.Planned?
  {
    LockstepStep(s, Command.Plan(now), planned);
    StepKeepsRun(s, Command.Plan(now));
    MoveKeepsBalance(s, Command.Plan(now));
  }

  lemma CreatedKept(intent: Intent, killEngaged: bool, runtimeHealthy: bool, now: int)
    ensures var core := Created(intent, killEngaged, runtimeHealthy, now);
            && CoreKept(core, Plans.PlanOrders(intent))
            && (core.status.Planned? || core.status.Cancelled? || core.status.Failed?)
  {
    var planned := Plans.PlanOrders(intent);
    NothingYetKept(intent);
    PlannedKept(InitState(intent, Some(Plans.PlanFor(intent))), now, planned);
    var s := ReduceExecution(InitState(intent, Some(Plans.PlanFor(intent))), Command.Plan(now)).state;
    StepKeepsCore(s, Command.Kill(now), planned);
    StepKeepsCore(s, Command.RuntimeUnhealthy(now), planned);
    StoppingSucceeds(s, Command.Kill(now));
    StoppingSucceeds(s, Command.RuntimeUnhealthy(now));
  }

  lemma NewSessionKept(intent: Intent, killEngaged: bool, runtimeHealthy: bool, now: int)
    ensures SessionKept(NewSession(intent, killEngaged, runtimeHealthy, now), Plans.PlanOrders(intent))
  {
    CreatedKept(intent, killEngaged, runtimeHealthy, now);
  }

  /**
   * Conservation on every adapter run, over-fills and off-grid fills included: every order holds
   * min(quantity, its fill records), the position is min(entry, protective fill records) closed
   * with the matching signed remainder, the audit is a legal run, and a session never rests in
   * READY, nor in FILLED unless the entry has nothing to open.
   */
  lemma {:induction false} RunsConserve(intent: Intent, killEngaged: bool, runtimeHealthy: bool, now: int,
      cs: seq<AdapterCommand>)
    ensures SessionKept(Replay(NewSession(intent, killEngaged, runtimeHealthy, now), cs), Plans.PlanOrders(intent))
    decreases |cs|
  {
    var s0 := NewSession(intent, killEngaged, runtimeHealthy, now);
    if cs == [] {
      NewSessionKept(intent, killEngaged, runtimeHealthy, now);
    } else {
      RunsConserve(intent, killEngaged, runtimeHealthy, now, cs[..|cs| - 1]);
      CallKeepsSession(Replay(s0, cs[..|cs| - 1]), cs[|cs| - 1], Plans.PlanOrders(intent));
    }
  }

  /** Between any two points of a run the closed quantity does not shrink and the side never flips. */
  lemma {:induction false} ExposureOnlyShrinks(s: Session, cs: seq<AdapterCommand>, planned: seq<Order>)
    requires SessionKept(s, planned)
    ensures SessionKept(Replay(s, cs), planned)
    ensures Monotone(s.core.value.position, Replay(s, cs).core.value.position)
    decreases |cs|
  {
    if cs != [] {
      ExposureOnlyShrinks(s, cs[..|cs| - 1], planned);
      CallKeepsSession(Replay(s, cs[..|cs| - 1]), cs[|cs| - 1], planned);
    }
  }

  /** The core at the end of a run. */
  function FinalCore(intent: Intent, killEngaged: bool, runtimeHealthy: bool, now: int,
      cs: seq<AdapterCommand>): State
  {
    match Replay(NewSession(intent, killEngaged, runtimeHealthy, now), cs).core
    case Some(core) => core
    case None => Created(intent, killEngaged, runtimeHealthy, now)
  }

  lemma FinalCoreKept(intent: Intent, killEngaged: bool, runtimeHealthy: bool, now: int, cs: seq<AdapterCommand>)
    ensures CoreKept(FinalCore(intent, killEngaged, runtimeHealthy, now, cs), Plans.PlanOrders(intent))
    ensures Resting(FinalCore(intent, killEngaged, runtimeHealthy, now, cs), true)
  {
    RunsConserve(intent, killEngaged, runtimeHealthy, now, cs);
  }

  /** An entry without a size never completes, so no position is ever opened. */
  lemma UnsizedNeverOpens(intent: Intent, killEngaged: bool, runtimeHealthy: bool, now: int, cs: seq<AdapterCommand>)
    requires intent.positionSize.None?
    ensures var status := FinalCore(intent, killEngaged, runtimeHealthy, now, cs).status;
            !status.Filled? && !status.Open? && !status.Reducing? && !status.Closed?
  {
    FinalCoreKept(intent, killEngaged, runtimeHealthy, now, cs);
  }

  /** A sized execution is never left in FILLED between calls, and a position opens with the whole size. */
  lemma SizedNeverRestsInFilled(intent: Intent, killEngaged: bool, runtimeHealthy: bool, now: int,
      cs: seq<AdapterCommand>)
    requires intent.positionSize.Some? && intent.positionSize.value > 0
    ensures var core := FinalCore(intent, killEngaged, runtimeHealthy, now, cs);
            && !core.status.Filled?
            && (core.status.Open? || core.status.Reducing? || core.status.Closed?
               ==> core.position.entryQuantity == intent.positionSize.value)
  {
    FinalCoreKept(intent, killEngaged, runtimeHealthy, now, cs);
  }
}
