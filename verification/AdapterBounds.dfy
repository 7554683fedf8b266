/** How long an adapter run can be, and what the bound needs. */
module AdapterBounds {
  import opened Wrappers
  import opened Decimal
  import opened ExecutionTypes
  import opened Orders
  import opened Positions
  import opened Reducer
  import opened Lifecycles
  import opened Conservation
  import opened Adapter
  import opened AdapterRuns
  import Plans

  // ------------------------------------------------------------------ progress of one fill

  /** A fill that counts: at least a full unit, else at least half a unit. */
  predicate Counted(quantity: real, full: bool) {
    quantity >= if full then 1.0 else 0.5
  }

  lemma CountedRounds(quantity: real, full: bool)
    requires Counted(quantity, full)
    ensures Round(quantity) >= 1
  {
    assert (quantity + 0.5).Floor >= 1;
  }

  /** A counted fill completes the entry or adds at least one unit to it. */
  lemma EntryProgress(o: Order, price: real, quantity: real, at: int, full: bool)
    requires o.quantity.Some? && 0 <= o.filled <= o.quantity.value && o.quantity.value > 0
    requires o.status.Acknowledged? || o.status.PartiallyFilled?
    requires Counted(quantity, full)
    ensures var f := ApplyFillToOrder(o, price, quantity, at);
            && o.filled <= f.filled <= o.quantity.value
            && (f.status.Filled? ==> f.filled == o.quantity.value)
            && (!f.status.Filled? ==> f.filled > o.filled)
  {
    CountedRounds(quantity, full);
    ClampedRound(o.quantity.value, o.filled, quantity);
    RoundOfInteger(o.quantity.value);
  }

  /** A full unit that brings the entry to its size completes it. */
  lemma FullUnitCompletes(o: Order, price: real, quantity: real, at: int)
    requires o.quantity.Some? && 0 <= o.filled <= o.quantity.value && quantity >= 1.0
    requires o.status.Acknowledged? || o.status.PartiallyFilled?
    ensures o.filled + 1 >= o.quantity.value ==> ApplyFillToOrder(o, price, quantity, at).status.Filled?
  {
  }

  // ------------------------------------------------------------------ the measure

  /** The most accepted transitions a core in this position of its life can have behind it. */
  function Budget(status: Status, filled: int, closed: int, q: int, full: bool): int {
    var opened_ := if full then q + 5 else q + 6;
    match status
    case NotCreated => 0
    case Planned => 1
    case Ready => 2
    case Submitted => 3
    case Acknowledged => 4
    case PartiallyFilled => 4 + filled
    case Filled => opened_ - 1
    case Open => opened_
    case Reducing => opened_ + closed
    case _ => opened_ + q
  }

  ghost predicate WithinBudget(s: State, q: int, full: bool) {
    && s.orders != []
    && s.orders[0].quantity == Some(q)
    && 0 <= s.orders[0].filled <= q
    && s.seqNo <= Budget(s.status, s.orders[0].filled, s.position.closedQuantity, q, full)
    && (full && s.status.PartiallyFilled? && s.orders[0].filled == q ==> s.seqNo <= 3 + q)
  }

  /** The budget of an execution whose entry order moved from o to f by one accepted fill. */
  lemma EntryBudget(status: Status, o: Order, f: Order, seqNo: int, q: int, full: bool)
    requires status.Acknowledged? || status.PartiallyFilled?
    requires q > 0 && 0 <= o.filled <= f.filled <= q && seqNo <= Budget(status, o.filled, 0, q, full)
    requires full && status.PartiallyFilled? && o.filled == q ==> seqNo <= 3 + q
    requires if f.status.Filled? then f.filled == q else f.filled > o.filled && (full ==> o.filled + 1 < q)
    ensures var next := if f.status.Filled? then Status.Filled else Status.PartiallyFilled;
            && seqNo + 1 <= Budget(next, f.filled, 0, q, full)
            && (full && next.PartiallyFilled? && f.filled == q ==> seqNo + 1 <= 3 + q)
  {
  }

  lemma EntryFillWithinBudget(s: State, price: real, quantity: real, at: int, q: int, full: bool)
    requires WithinBudget(s, q, full) && q > 0 && Counted(quantity, full)
    requires s.orders[0].role == Role.Entry && EntryStatus(s.status, s.orders[0].status)
    ensures WithinBudget(ReduceFill(s, s.orders[0].id, price, quantity, at).state, q, full)
  {
    var o := s.orders[0];
    assert IndexOfOrder(s.orders, o.id) == Some(0);
    if ReduceFill(s, o.id, price, quantity, at).ok {
      assert s.status.Acknowledged? || s.status.PartiallyFilled?;
      EntryProgress(o, price, quantity, at, full);
      if full { FullUnitCompletes(o, price, quantity, at); }
      EntryBudget(s.status, o, ApplyFillToOrder(o, price, quantity, at), s.seqNo, q, full);
    }
  }

  lemma ProtectiveFillWithinBudget(s: State, i: nat, price: real, quantity: real, at: int, q: int, full: bool)
    requires PositionBalanced(s) && WithinBudget(s, q, full) && q > 0 && Counted(quantity, full)
    requires 0 < i < |s.orders| && s.orders[i].role != Role.Entry && s.orders[0].id != s.orders[i].id
    requires IndexOfOrder(s.orders, s.orders[i].id) == Some(i)
    ensures WithinBudget(ReduceFill(s, s.orders[i].id, price, quantity, at).state, q, full)
  {
    CountedRounds(quantity, full);
  }

  /** Cancelling or opening costs one transition, and there is always room for it. */
  lemma RoomToMove(s: State, q: int, full: bool)
    requires PositionBalanced(s) && WithinBudget(s, q, full) && q > 0 && !IsTerminal(s.status)
    ensures s.seqNo + 1 <= Budget(Status.Cancelled, s.orders[0].filled, 0, q, full)
    ensures s.status.Filled? ==> s.seqNo + 1 <= Budget(Status.Open, s.orders[0].filled, 0, q, full)
  {
  }

  lemma StopWithinBudget(s: State, c: Command, q: int, full: bool)
    requires PositionBalanced(s) && WithinBudget(s, q, full) && q > 0
    requires c.Cancel? || c.Kill? || (c.RuntimeUnhealthy? && s.status.Planned?)
    ensures WithinBudget(ReduceExecution(s, c).state, q, full)
  {
    if !IsTerminal(s.status) {
      RoomToMove(s, q, full);
    }
  }

  lemma AdvanceWithinBudget(s: State, c: Command, q: int, full: bool)
    requires WithinBudget(s, q, full) && (c.Arm? || c.Submit? || c.Acknowledge?)
    ensures WithinBudget(ReduceExecution(s, c).state, q, full)
  {
  }

  lemma OpenWithinBudget(s: State, c: Command, q: int, full: bool)
    requires WithinBudget(s, q, full) && c.Open? && s.status.Filled?
    ensures WithinBudget(ReduceExecution(s, c).state, q, full)
  {
  }

  lemma StepWithinBudget(s: State, c: Command, q: int, full: bool, planned: seq<Order>)
    requires CoreKept(s, planned) && WithinBudget(s, q, full) && q > 0 && Issued(s, c)
    requires c.Fill? ==> Counted(c.quantity, full)
    ensures WithinBudget(ReduceExecution(s, c).state, q, full)
  {
    StepShape(s, c);
    match c
    case Fill(at, id, price, quantity) =>
      var i := IndexOfOrder(s.orders, id);
      if ReduceExecution(s, c).ok {
        if i.value == 0 {
          EntryFillWithinBudget(s, price, quantity, at, q, full);
        } else {
          ProtectiveFillWithinBudget(s, i.value, price, quantity, at, q, full);
        }
      }
    case Open(_) => OpenWithinBudget(s, c, q, full);
    case Arm(_) | Submit(_) | Acknowledge(_) => AdvanceWithinBudget(s, c, q, full);
    case _ => StopWithinBudget(s, c, q, full);
  }

  // ------------------------------------------------------------------ whole runs

  predicate FillsCounted(cs: seq<AdapterCommand>, full: bool) {
    forall i :: 0 <= i < |cs| && cs[i].Fill? ==> Counted(cs[i].quantity, full)
  }

  lemma FillsComeFromTheCall(s: Session, c: AdapterCommand)
    requires s.core.Some?
    ensures var cs := CoreCommands(s, c);
            && |cs| <= 2
            && forall i :: 0 <= i < |cs| && cs[i].Fill? ==> c.Fill? && cs[i].quantity == c.quantity
  {
  }

  lemma CommandsWithinBudget(core: State, submitted: bool, cs: seq<Command>, q: int, full: bool, planned: seq<Order>)
    requires CoreKept(core, planned) && WithinBudget(core, q, full) && q > 0 && CallShape(core, submitted, cs)
    requires forall i :: 0 <= i < |cs| && cs[i].Fill? ==> Counted(cs[i].quantity, full)
    ensures WithinBudget(Run(core, cs), q, full)
  {
    if |cs| == 1 {
      assert cs == [cs[0]];
      RunShort(core, cs[0], cs[0]);
      StepWithinBudget(core, cs[0], q, full, planned);
    } else if |cs| == 2 {
      assert cs == [cs[0], cs[1]];
      RunShort(core, cs[0], cs[1]);
      StepKeepsCore(core, cs[0], planned);
      StepWithinBudget(core, cs[0], q, full, planned);
      StepWithinBudget(ReduceExecution(core, cs[0]).state, cs[1], q, full, planned);
    }
  }

  lemma CallWithinBudget(s: Session, c: AdapterCommand, q: int, full: bool, planned: seq<Order>)
    requires SessionKept(s, planned) && WithinBudget(s.core.value, q, full) && q > 0
    requires c.Fill? ==> Counted(c.quantity, full)
    ensures SessionKept(Apply(s, c).session, planned)
    ensures WithinBudget(Apply(s, c).session.core.value, q, full)
  {
    CallKeepsSession(s, c, planned);
    CoreFollows(s, c);
    CallIssues(s, c);
    FillsComeFromTheCall(s, c);
    CommandsWithinBudget(s.core.value, s.submitted, CoreCommands(s, c), q, full, planned);
  }

  lemma PlannedWithinBudget(intent: Intent, now: int, q: int, full: bool)
    requires intent.positionSize == Some(q) && q > 0
    ensures var planned := ReduceExecution(InitState(intent, Some(Plans.PlanFor(intent))), Command.Plan(now)).state;
            planned.status.Planned? && WithinBudget(planned, q, full)
  {
  }

  lemma PlannedStopWithinBudget(s: State, c: Command, q: int, full: bool)
    requires WithinBudget(s, q, full) && q > 0 && s.status.Planned? && (c.Kill? || c.RuntimeUnhealthy?)
    ensures WithinBudget(ReduceExecution(s, c).state, q, full)
  {
  }

  lemma NewSessionWithinBudget(intent: Intent, killEngaged: bool, runtimeHealthy: bool, now: int, q: int, full: bool)
    requires intent.positionSize == Some(q) && q > 0
    ensures WithinBudget(Created(intent, killEngaged, runtimeHealthy, now), q, full)
  {
    var planned := ReduceExecution(InitState(intent, Some(Plans.PlanFor(intent))), Command.Plan(now)).state;
    PlannedWithinBudget(intent, now, q, full);
    PlannedStopWithinBudget(planned, Command.Kill(now), q, full);
    PlannedStopWithinBudget(planned, Command.RuntimeUnhealthy(now), q, full);
  }

  lemma {:induction false} RunsWithinBudget(intent: Intent, killEngaged: bool, runtimeHealthy: bool, now: int,
      cs: seq<AdapterCommand>,
                                            q: int, full: bool)
    requires intent.positionSize == Some(q) && q > 0 && FillsCounted(cs, full)
    ensures var s := Replay(NewSession(intent, killEngaged, runtimeHealthy, now), cs);
            SessionKept(s, Plans.PlanOrders(intent)) && WithinBudget(s.core.value, q, full)
    decreases |cs|
  {
    var s0 := NewSession(intent, killEngaged, runtimeHealthy, now);
    if cs == [] {
      NewSessionKept(intent, killEngaged, runtimeHealthy, now);
      NewSessionWithinBudget(intent, killEngaged, runtimeHealthy, now, q, full);
    } else {
      RunsWithinBudget(intent, killEngaged, runtimeHealthy, now, cs[..|cs| - 1], q, full);
      CallWithinBudget(Replay(s0, cs[..|cs| - 1]), cs[|cs| - 1], q, full, Plans.PlanOrders(intent));
    }
  }

  /**
   * On an entry of q units a run accepts at most 2q + 5 transitions when every fill is at least one
   * unit, and at most 2q + 6 when every fill is at least half a unit.
   */
  lemma RunsAreBounded(intent: Intent, killEngaged: bool, runtimeHealthy: bool, now: int, cs: seq<AdapterCommand>,
      q: int, full: bool)
    requires intent.positionSize == Some(q) && q > 0 && FillsCounted(cs, full)
    ensures var core := FinalCore(intent, killEngaged, runtimeHealthy, now, cs);
            |core.audit.events| <= 2 * q + if full then 5 else 6
  {
    RunsWithinBudget(intent, killEngaged, runtimeHealthy, now, cs, q, full);
    BudgetIsTotal(Replay(NewSession(intent, killEngaged, runtimeHealthy, now), cs), q, full, Plans.PlanOrders(intent));
  }

  lemma BudgetIsTotal(s: Session, q: int, full: bool, planned: seq<Order>)
    requires SessionKept(s, planned) && WithinBudget(s.core.value, q, full) && q > 0
    ensures |s.core.value.audit.events| <= 2 * q + if full then 5 else 6
  {
  }

  // ------------------------------------------------------------------ fills below one unit

  function Entry(intent: Intent): OrderId { OrderId(intent.signalId, Role.Entry, 0) }

  function StopId(intent: Intent): OrderId { OrderId(intent.signalId, Role.Stop, 1) }

  function Bit(id: OrderId, now: int, x: real): AdapterCommand {
    AdapterCommand.Fill(now, id, 1.0, x)
  }

  function Going(now: int): seq<AdapterCommand> {
    [AdapterCommand.Submit(now, RuntimeContext(Healthy, false)), AdapterCommand.Acknowledge(now)]
  }

  /** A live core whose entry holds n units. */
  ghost predicate Waiting(core: State, intent: Intent, q: int, n: int) {
    && (core.status.Acknowledged? || core.status.PartiallyFilled?)
    && core.orders != []
    && core.orders[0].id == Entry(intent) && core.orders[0].role == Role.Entry
    && core.orders[0].quantity == Some(q) && core.orders[0].filled == n
    && EntryStatus(core.status, core.orders[0].status)
  }

  predicate Live(s: Session) {
    s.status == ReadyHealth && s.submitted && s.core.Some? && !IsTerminal(s.core.value.status)
  }

  /** A fill below one unit is rounded to all of a unit or to nothing, and completes nothing. */
  lemma BitFill(core: State, intent: Intent, q: int, n: int, now: int, x: real)
    requires Waiting(core, intent, q, n) && 0 <= n < q && 0.0 < x < 1.0
    ensures var r := ReduceFill(core, Entry(intent), 1.0, x, now);
            && r.ok && r.state.status.PartiallyFilled? && r.state.seqNo == core.seqNo + 1
            && Waiting(r.state, intent, q, n + if x < 0.5 then 0 else 1)
  {
    assert IndexOfOrder(core.orders, Entry(intent)) == Some(0);
    RoundShift(n, x);
    assert Round(x) == if x < 0.5 then 0 else 1;
  }

  lemma FillKeepsHealth(s: Session, id: OrderId, now: int, x: real)
    ensures Apply(s, Bit(id, now, x)).session.status == s.status
    ensures Apply(s, Bit(id, now, x)).session.submitted == s.submitted
  {
  }

  lemma FillCommands(s: Session, id: OrderId, now: int, x: real)
    requires Live(s) && x > 0.0 && IndexOfOrder(s.core.value.orders, id).Some?
    ensures var fill, r := Command.Fill(now, id, 1.0, x), ReduceFill(s.core.value, id, 1.0, x, now);
            && ReduceExecution(s.core.value, fill) == r
            && CoreCommands(s, Bit(id, now, x)) == if r.ok && r.state.status.Filled? then [fill, Command.Open(now)]
               else [fill]
  {
  }

  /** A live session takes a fill its core accepts, and opens a completed entry. */
  lemma FillCall(s: Session, id: OrderId, now: int, x: real)
    requires Live(s) && x > 0.0 && IndexOfOrder(s.core.value.orders, id).Some?
    requires ReduceFill(s.core.value, id, 1.0, x, now).ok
    ensures var out, r := Apply(s, Bit(id, now, x)).session, ReduceFill(s.core.value, id, 1.0, x, now);
            && out.status == ReadyHealth && out.submitted
            && out.core ==
               Some(if r.state.status.Filled? then ReduceExecution(r.state, Command.Open(now)).state else r.state)
  {
    FillKeepsHealth(s, id, now, x);
    FillCommands(s, id, now, x);
    CoreFollows(s, Bit(id, now, x));
    RunShort(s.core.value, Command.Fill(now, id, 1.0, x), Command.Open(now));
  }

  lemma BitStep(s: Session, intent: Intent, q: int, n: int, now: int, x: real)
    requires Live(s) && Waiting(s.core.value, intent, q, n) && 0 <= n < q && 0.0 < x < 1.0
    ensures var out := Apply(s, Bit(Entry(intent), now, x)).session;
            && Live(out) && Waiting(out.core.value, intent, q, n + if x < 0.5 then 0 else 1)
            && out.core.value.status.PartiallyFilled? && out.core.value.seqNo == s.core.value.seqNo + 1
  {
    BitFill(s.core.value, intent, q, n, now, x);
    assert IndexOfOrder(s.core.value.orders, Entry(intent)) == Some(0);
    FillCall(s, Entry(intent), now, x);
  }

  lemma SubmitGoesOut(s: Session, now: int)
    requires s.status == ReadyHealth && !s.submitted && s.core.Some?
    requires s.core.value.status.Planned? && s.core.value.plan.Some? && s.core.value.plan.value.submittable
    requires s.core.value.orders != []
    ensures var out := Apply(s, AdapterCommand.Submit(now, RuntimeContext(Healthy, false))).session;
            && Live(out)
            && out.core.value.status.Submitted? && out.core.value.seqNo == s.core.value.seqNo + 2
            && out.core.value.orders != [] && out.core.value.orders[0].filled == s.core.value.orders[0].filled
  {
    var armed := ReduceExecution(s.core.value, Command.Arm(now));
    assert armed.ok && armed.state.status.Ready? && armed.state.plan == s.core.value.plan;
    var submitted := ReduceExecution(armed.state, Command.Submit(now));
    assert submitted.ok && submitted.state.status.Submitted?;
  }

  lemma NewSessionIsPlanned(intent: Intent, now: int)
    requires Plans.CheckSubmittable(intent).None?
    ensures var s := NewSession(intent, false, true, now);
            && s.status == ReadyHealth && !s.submitted && s.core.Some?
            && s.core.value.status.Planned? && s.core.value.seqNo == 1
            && s.core.value.plan.Some? && s.core.value.plan.value.submittable
            && s.core.value.orders != [] && s.core.value.orders[0].filled == 0
  {
  }

  lemma AcknowledgeGoesLive(s: Session, now: int)
    requires Live(s) && s.core.value.status.Submitted? && s.core.value.orders != []
    ensures var out := Apply(s, AdapterCommand.Acknowledge(now)).session;
            && Live(out)
            && out.core.value.status.Acknowledged? && out.core.value.seqNo == s.core.value.seqNo + 1
            && out.core.value.orders != [] && out.core.value.orders[0].filled == s.core.value.orders[0].filled
  {
  }

  lemma ReplayTwo(s: Session, a: AdapterCommand, b: AdapterCommand)
    ensures Replay(s, [a, b]) == Apply(Apply(s, a).session, b).session
  {
    assert [a, b][..1] == [a] && [a][..0] == [];
    assert Replay(s, [a]) == Apply(Replay(s, []), a).session;
  }

  /** Submit then acknowledge brings a submittable execution live. */
  lemma GoLive(intent: Intent, now: int)
    requires Plans.CheckSubmittable(intent).None?
    ensures var s := Replay(NewSession(intent, false, true, now), Going(now));
            && Live(s) && s.core.value.status.Acknowledged? && s.core.value.seqNo == 4
            && s.core.value.orders != [] && s.core.value.orders[0].filled == 0
  {
    var cs := Going(now);
    var s0 := NewSession(intent, false, true, now);
    NewSessionIsPlanned(intent, now);
    SubmitGoesOut(s0, now);
    AcknowledgeGoesLive(Apply(s0, cs[0]).session, now);
    ReplayTwo(s0, cs[0], cs[1]);
  }

  lemma AcknowledgedIsWaiting(core: State, intent: Intent, q: int)
    requires Lockstep(core, Plans.PlanOrders(intent)) && core.status.Acknowledged? && core.orders[0].filled == 0
    requires intent.positionSize == Some(q)
    ensures Waiting(core, intent, q, 0)
  {
    var planned := Plans.PlanOrders(intent);
    assert planned[0].id == Entry(intent);
    assert SameOrderTerms(core.orders[0], planned[0]);
  }

  /** A live session, holding n entry units, with k transitions behind it. */
  ghost predicate WaitingAt(s: Session, intent: Intent, q: int, n: int, k: int) {
    Live(s) && Waiting(s.core.value, intent, q, n) && s.core.value.seqNo == k
  }

  /** Calls with the same fill: below half a unit they gain nothing, from half a unit on they gain one each. */
  lemma {:induction false} BitsGoOn(s: Session, cs: seq<AdapterCommand>, intent: Intent, now: int, x: real, q: int,
      k: int)
    requires q > 0 && 0.0 < x < 1.0 && WaitingAt(s, intent, q, 0, k)
    requires forall i :: 0 <= i < |cs| ==> cs[i] == Bit(Entry(intent), now, x)
    requires x < 0.5 || |cs| <= q
    ensures WaitingAt(Replay(s, cs), intent, q, if x < 0.5 then 0 else |cs|, k + |cs|)
    ensures cs != [] ==> Replay(s, cs).core.value.status.PartiallyFilled?
    decreases |cs|
  {
    if cs != [] {
      BitsGoOn(s, cs[..|cs| - 1], intent, now, x, q, k);
      BitStep(Replay(s, cs[..|cs| - 1]), intent, q, if x < 0.5 then 0 else |cs| - 1, now, x);
    }
  }

  lemma {:induction false} ReplayConcat(s: Session, a: seq<AdapterCommand>, b: seq<AdapterCommand>)
    ensures Replay(s, a + b) == Replay(Replay(s, a), b)
    decreases |b|
  {
    if b == [] {
      assert a + b == a;
    } else {
      assert (a + b)[..|a + b| - 1] == a + b[..|b| - 1];
      ReplayConcat(s, a, b[..|b| - 1]);
    }
  }

  function Bits(id: OrderId, now: int, x: real, n: nat): seq<AdapterCommand> { seq(n, _ => Bit(id, now, x)) }

  lemma GoWaiting(intent: Intent, now: int, q: int)
    requires Plans.CheckSubmittable(intent).None? && intent.positionSize == Some(q)
    ensures WaitingAt(Replay(NewSession(intent, false, true, now), Going(now)), intent, q, 0, 4)
  {
    GoLive(intent, now);
    FinalCoreKept(intent, false, true, now, Going(now));
    AcknowledgedIsWaiting(FinalCore(intent, false, true, now, Going(now)), intent, q);
  }

  /** Submit, acknowledge, then n small fills of the entry. */
  lemma EntryBits(intent: Intent, now: int, x: real, q: int, n: nat)
    requires Plans.CheckSubmittable(intent).None? && intent.positionSize == Some(q) && q > 0
    requires 0.0 < x < 1.0 && (x < 0.5 || n <= q)
    ensures var s := Replay(NewSession(intent, false, true, now), Going(now) + Bits(Entry(intent), now, x, n));
            && WaitingAt(s, intent, q, if x < 0.5 then 0 else n, 4 + n)
            && (n > 0 ==> s.core.value.status.PartiallyFilled?)
  {
    var s0 := NewSession(intent, false, true, now);
    GoWaiting(intent, now, q);
    ReplayConcat(s0, Going(now), Bits(Entry(intent), now, x, n));
    BitsGoOn(Replay(s0, Going(now)), Bits(Entry(intent), now, x, n), intent, now, x, q, 4);
  }

  /** Fills of any one size below half a unit are accepted forever: no bound holds. */
  lemma DustFillsNeverEnd(intent: Intent, now: int, x: real, q: int, n: nat)
    requires Plans.CheckSubmittable(intent).None? && intent.positionSize == Some(q) && q > 0 && 0.0 < x < 0.5
    ensures |FinalCore(intent, false, true, now, Going(now) + Bits(Entry(intent), now, x, n)).audit.events| == 4 + n
  {
    EntryBits(intent, now, x, q, n);
    FinalCoreKept(intent, false, true, now, Going(now) + Bits(Entry(intent), now, x, n));
  }

  // ------------------------------------------------------------------ 2q + 6 is reached

  /** An open position of q units with k of them closed, and its stop order. */
  ghost predicate Holding(core: State, intent: Intent, q: int, k: int) {
    && ((core.status.Open? && k == 0) || core.status.Reducing?)
    && IsLive(core.position) && core.position.entryQuantity == q && core.position.closedQuantity == k
    && |core.orders| >= 2
    && core.orders[0].id == Entry(intent)
    && core.orders[1].id == StopId(intent) && core.orders[1].role == Role.Stop
  }

  /** A fill of an entry that holds its whole size without being complete completes it. */
  lemma LastBit(core: State, intent: Intent, q: int, now: int, x: real)
    requires Waiting(core, intent, q, q) && core.status.PartiallyFilled? && q > 0 && x > 0.0
    ensures var r := ReduceFill(core, Entry(intent), 1.0, x, now);
            && r.ok && r.state.status.Filled? && r.state.seqNo == core.seqNo + 1
            && ReduceExecution(r.state, Command.Open(now)).ok
            && ReduceExecution(r.state, Command.Open(now)).state.status.Open?
            && ReduceExecution(r.state, Command.Open(now)).state.seqNo == core.seqNo + 2
  {
    assert IndexOfOrder(core.orders, Entry(intent)) == Some(0);
    var f := ApplyFillToOrder(core.orders[0], 1.0, x, now);
    RoundOfInteger(q);
    assert f.status.Filled? && f.filled == q && f.role == Role.Entry;
    var r := ReduceFill(core, Entry(intent), 1.0, x, now);
    assert r.state.orders[0] == f;
    assert IndexOfEntry(r.state.orders) == Some(0);
  }

  lemma OpenIsHolding(core: State, intent: Intent, q: int)
    requires CoreKept(core, Plans.PlanOrders(intent)) && core.status.Open? && intent.positionSize == Some(q)
    ensures Holding(core, intent, q, 0)
  {
    var planned := Plans.PlanOrders(intent);
    assert planned[0].id == Entry(intent) && planned[1].id == StopId(intent);
    assert SameOrderTerms(core.orders[0], planned[0]) && SameOrderTerms(core.orders[1], planned[1]);
  }

  lemma StopBit(core: State, intent: Intent, q: int, k: int, now: int, x: real)
    requires Holding(core, intent, q, k) && 0 <= k < q && 0.5 <= x < 1.0
    ensures var r := ReduceFill(core, StopId(intent), 1.0, x, now);
            && r.ok && r.state.seqNo == core.seqNo + 1
            && (if k + 1 < q then r.state.status.Reducing? && Holding(r.state, intent, q, k + 1)
               else r.state.status.Closed?)
  {
    assert IndexOfOrder(core.orders, StopId(intent), 1) == Some(1);
    assert IndexOfOrder(core.orders, StopId(intent)) == Some(1);
    assert Round(x) == 1;
  }

  lemma {:induction false} StopBitsClose(s: Session, cs: seq<AdapterCommand>, intent: Intent, now: int, x: real,
      q: int, k: int)
    requires Live(s) && Holding(s.core.value, intent, q, 0) && s.core.value.seqNo == k && 0.5 <= x < 1.0 && |cs| <= q
    requires forall i :: 0 <= i < |cs| ==> cs[i] == Bit(StopId(intent), now, x)
    ensures var out := Replay(s, cs);
            && out.core.Some? && out.core.value.seqNo == k + |cs|
            && (|cs| < q ==> Live(out) && Holding(out.core.value, intent, q, |cs|))
    decreases |cs|
  {
    if cs != [] {
      var init := cs[..|cs| - 1];
      StopBitsClose(s, init, intent, now, x, q, k);
      var before := Replay(s, init);
      StopBit(before.core.value, intent, q, |init|, now, x);
      assert IndexOfOrder(before.core.value.orders, StopId(intent), 1) == Some(1);
      FillCall(before, StopId(intent), now, x);
    }
  }

  /** q + 1 entry fills and q stop fills of half a unit or more, but less than one. */
  function HalfRun(intent: Intent, now: int, x: real, q: nat): seq<AdapterCommand> {
    Going(now) + Bits(Entry(intent), now, x, q) + [Bit(Entry(intent), now, x)] + Bits(StopId(intent), now, x, q)
  }

  lemma LastBitOpens(s: Session, intent: Intent, q: int, now: int, x: real)
    requires Live(s) && Waiting(s.core.value, intent, q, q) && s.core.value.status.PartiallyFilled? && q > 0 && x > 0.0
    ensures var out := Apply(s, Bit(Entry(intent), now, x)).session;
            Live(out) && out.core.value.status.Open? && out.core.value.seqNo == s.core.value.seqNo + 2
  {
    LastBit(s.core.value, intent, q, now, x);
    assert IndexOfOrder(s.core.value.orders, Entry(intent)) == Some(0);
    FillCall(s, Entry(intent), now, x);
  }

  lemma HalfRunOpens(intent: Intent, now: int, x: real, q: int)
    requires Plans.CheckSubmittable(intent).None? && intent.positionSize == Some(q) && q > 0 && 0.5 <= x < 1.0
    ensures var cs := Going(now) + Bits(Entry(intent), now, x, q) + [Bit(Entry(intent), now, x)];
            var s := Replay(NewSession(intent, false, true, now), cs);
            Live(s) && Holding(s.core.value, intent, q, 0) && s.core.value.seqNo == q + 6
  {
    var front, last := Going(now) + Bits(Entry(intent), now, x, q), Bit(Entry(intent), now, x);
    EntryBits(intent, now, x, q, q);
    LastBitOpens(Replay(NewSession(intent, false, true, now), front), intent, q, now, x);
    assert (front + [last])[..|front|] == front;
    FinalCoreKept(intent, false, true, now, front + [last]);
    OpenIsHolding(FinalCore(intent, false, true, now, front + [last]), intent, q);
  }

  /** Below one unit the bound of 2q + 6 is reached, for every size. */
  lemma HalfFillsReachTheBound(intent: Intent, now: int, x: real, q: int)
    requires Plans.CheckSubmittable(intent).None? && intent.positionSize == Some(q) && q > 0 && 0.5 <= x < 1.0
    ensures |FinalCore(intent, false, true, now, HalfRun(intent, now, x, q)).audit.events| == 2 * q + 6
  {
    var s0, stops := NewSession(intent, false, true, now), Bits(StopId(intent), now, x, q);
    var front := Going(now) + Bits(Entry(intent), now, x, q) + [Bit(Entry(intent), now, x)];
    HalfRunOpens(intent, now, x, q);
    ReplayConcat(s0, front, stops);
    StopBitsClose(Replay(s0, front), stops, intent, now, x, q, q + 6);
    FinalCoreKept(intent, false, true, now, front + stops);
  }

  // ------------------------------------------------------------------ exactly when there is a bound

  predicate FillsAtLeast(cs: seq<AdapterCommand>, m: real) {
    forall i :: 0 <= i < |cs| && cs[i].Fill? ==> cs[i].quantity >= m
  }

  ghost predicate RunWithin(intent: Intent, killEngaged: bool, runtimeHealthy: bool, now: int,
      cs: seq<AdapterCommand>, n: int)
  {
    |FinalCore(intent, killEngaged, runtimeHealthy, now, cs).audit.events| <= n
  }

  /** No run over an entry of q units whose fills are at least m accepts more than n transitions. */
  ghost predicate KeepsBound(q: int, m: real, n: int) {
    forall intent: Intent, killEngaged, runtimeHealthy, now, cs :: intent.positionSize == Some(q) && FillsAtLeast(cs, m)
      ==> RunWithin(intent, killEngaged, runtimeHealthy, now, cs, n)
  }

  lemma LargeFillsCount(cs: seq<AdapterCommand>, m: real, full: bool)
    requires Counted(m, full) && FillsAtLeast(cs, m)
    ensures FillsCounted(cs, full)
  {
  }

  lemma LargeFillsStayWithin(intent: Intent, killEngaged: bool, runtimeHealthy: bool, now: int, cs: seq<AdapterCommand>,
                             q: int, m: real, n: int)
    requires q > 0 && intent.positionSize == Some(q) && FillsAtLeast(cs, m)
    requires (m >= 1.0 && n == 2 * q + 5) || (m >= 0.5 && n == 2 * q + 6)
    ensures RunWithin(intent, killEngaged, runtimeHealthy, now, cs, n)
  {
    LargeFillsCount(cs, m, n == 2 * q + 5);
    RunsAreBounded(intent, killEngaged, runtimeHealthy, now, cs, q, n == 2 * q + 5);
  }

  lemma LargeFillsKeepBound(q: int, m: real, n: int)
    requires q > 0
    requires (m >= 1.0 && n == 2 * q + 5) || (m >= 0.5 && n == 2 * q + 6)
    ensures KeepsBound(q, m, n)
  {
    forall intent: Intent, killEngaged, runtimeHealthy, now, cs | intent.positionSize == Some(q) && FillsAtLeast(cs, m)
      ensures RunWithin(intent, killEngaged, runtimeHealthy, now, cs, n)
    {
      LargeFillsStayWithin(intent, killEngaged, runtimeHealthy, now, cs, q, m, n);
    }
  }

  /** An intent of q units that passes the submit gate. */
  function Sized(q: int): Intent {
    Intent("s", Direction.Long, Some(1.0), Some(1.0), [1.0], Some(q), Action.Buy, true, true, Some(1.0), Mode.Paper,
        Venue.Simulated, 0)
  }

  lemma OneRunBreaksBound(q: int, m: real, cs: seq<AdapterCommand>, n: int)
    requires FillsAtLeast(cs, m) && |FinalCore(Sized(q), false, true, 0, cs).audit.events| > n
    ensures !KeepsBound(q, m, n)
  {
    assert !RunWithin(Sized(q), false, true, 0, cs, n);
  }

  lemma EntryBitsFills(intent: Intent, now: int, x: real, n: nat)
    ensures FillsAtLeast(Going(now) + Bits(Entry(intent), now, x, n), x)
  {
  }

  lemma FillsOfAtLeast(cs: seq<AdapterCommand>, x: real, m: real)
    requires FillsAtLeast(cs, x) && x >= m
    ensures FillsAtLeast(cs, m)
  {
  }

  lemma HalfRunFills(intent: Intent, now: int, x: real, q: nat)
    ensures FillsAtLeast(HalfRun(intent, now, x, q), x)
  {
    var front := Going(now) + Bits(Entry(intent), now, x, q);
    EntryBitsFills(intent, now, x, q);
    assert FillsAtLeast(front + [Bit(Entry(intent), now, x)], x);
  }

  lemma SmallFillsBreakBound(q: int, m: real, n: int)
    requires q > 0 && m < 0.5
    ensures !KeepsBound(q, m, n)
  {
    var x, k := if m > 0.0 then m else 0.25, if n > 0 then n else 0;
    DustFillsNeverEnd(Sized(q), 0, x, q, k);
    EntryBitsFills(Sized(q), 0, x, k);
    FillsOfAtLeast(Going(0) + Bits(Entry(Sized(q)), 0, x, k), x, m);
    OneRunBreaksBound(q, m, Going(0) + Bits(Entry(Sized(q)), 0, x, k), n);
  }

  lemma HalfFillsBreakBound(q: int, m: real)
    requires q > 0 && 0.5 <= m < 1.0
    ensures !KeepsBound(q, m, 2 * q + 5)
  {
    HalfFillsReachTheBound(Sized(q), 0, m, q);
    HalfRunFills(Sized(q), 0, m, q);
    OneRunBreaksBound(q, m, HalfRun(Sized(q), 0, m, q), 2 * q + 5);
  }

  /**
   * Which smallest fill size m bounds the runs over an entry of q units: 2q + 5 holds exactly from
   * one unit on, 2q + 6 exactly from half a unit on, and below that there is no bound at all.
   */
  lemma RunBoundIff(q: int, m: real)
    requires q > 0
    ensures KeepsBound(q, m, 2 * q + 5) <==> m >= 1.0
    ensures KeepsBound(q, m, 2 * q + 6) <==> m >= 0.5
    ensures (exists n :: KeepsBound(q, m, n)) <==> m >= 0.5
  {
    if m >= 0.5 {
      LargeFillsKeepBound(q, m, 2 * q + 6);
      if m >= 1.0 {
        LargeFillsKeepBound(q, m, 2 * q + 5);
      } else {
        HalfFillsBreakBound(q, m);
      }
    } else {
      forall n ensures !KeepsBound(q, m, n) { SmallFillsBreakBound(q, m, n); }
    }
  }

  // ------------------------------------------------------------------ nothing to open

  lemma FillOfNothing(core: State, intent: Intent, q: int, now: int, price: real, quantity: real)
    requires Waiting(core, intent, q, 0) && core.status.Acknowledged? && q <= 0 && quantity > 0.0
    ensures var r := ReduceFill(core, Entry(intent), price, quantity, now);
            && r.ok && r.state.status.Filled?
            && !ReduceExecution(r.state, Command.Open(now)).ok
  {
    assert IndexOfOrder(core.orders, Entry(intent)) == Some(0);
    var f := ApplyFillToOrder(core.orders[0], price, quantity, now);
    RoundOfInteger(q);
    assert f.status.Filled? && f.filled == q && f.role == Role.Entry;
    var r := ReduceFill(core, Entry(intent), price, quantity, now);
    assert r.state.orders[0] == f;
    assert IndexOfEntry(r.state.orders) == Some(0);
  }

  /** With a size of zero or less the first entry fill leaves the session in FILLED. */
  lemma NothingToOpenStaysFilled(s: Session, intent: Intent, q: int, now: int, price: real, quantity: real)
    requires Live(s) && Waiting(s.core.value, intent, q, 0) && s.core.value.status.Acknowledged?
    requires q <= 0 && quantity > 0.0
    ensures var out := Apply(s, AdapterCommand.Fill(now, Entry(intent), price, quantity)).session;
            out.core.Some? && out.core.value.status.Filled?
  {
    assert IndexOfOrder(s.core.value.orders, Entry(intent)) == Some(0);
    FillOfNothing(s.core.value, intent, q, now, price, quantity);
  }

  /** So SizedNeverRestsInFilled needs its positive size: for every other size a run rests in FILLED. */
  lemma SizeOfNothingStrands(intent: Intent, now: int, price: real, quantity: real, q: int)
    requires Plans.CheckSubmittable(intent).None? && intent.positionSize == Some(q) && q <= 0 && quantity > 0.0
    ensures FinalCore(intent, false, true, now,
        Going(now) + [AdapterCommand.Fill(now, Entry(intent), price, quantity)]).status.Filled?
  {
    var s0, fill := NewSession(intent, false, true, now), AdapterCommand.Fill(now, Entry(intent), price, quantity);
    GoLive(intent, now);
    FinalCoreKept(intent, false, true, now, Going(now));
    AcknowledgedIsWaiting(FinalCore(intent, false, true, now, Going(now)), intent, q);
    NothingToOpenStaysFilled(Replay(s0, Going(now)), intent, q, now, price, quantity);
    assert (Going(now) + [fill])[..2] == Going(now);
  }

  ghost predicate EndsInFilled(intent: Intent, killEngaged: bool, runtimeHealthy: bool, now: int,
      cs: seq<AdapterCommand>)
  {
    FinalCore(intent, killEngaged, runtimeHealthy, now, cs).status.Filled?
  }

  /** No run of a session for the intent is ever left in FILLED. */
  ghost predicate NeverStrands(intent: Intent) {
    forall killEngaged, runtimeHealthy, now, cs :: !EndsInFilled(intent, killEngaged, runtimeHealthy, now, cs)
  }

  lemma StrandsNowhere(intent: Intent, killEngaged: bool, runtimeHealthy: bool, now: int, cs: seq<AdapterCommand>)
    requires intent.positionSize.Some? ==> intent.positionSize.value > 0
    ensures !EndsInFilled(intent, killEngaged, runtimeHealthy, now, cs)
  {
    if intent.positionSize.Some? {
      SizedNeverRestsInFilled(intent, killEngaged, runtimeHealthy, now, cs);
    } else {
      UnsizedNeverOpens(intent, killEngaged, runtimeHealthy, now, cs);
    }
  }

  lemma StrandsSomewhere(intent: Intent)
    requires Plans.CheckSubmittable(intent).None? && intent.positionSize.Some? && intent.positionSize.value <= 0
    ensures !NeverStrands(intent)
  {
    var cs := Going(0) + [AdapterCommand.Fill(0, Entry(intent), 1.0, 1.0)];
    SizeOfNothingStrands(intent, 0, 1.0, 1.0, intent.positionSize.value);
    assert EndsInFilled(intent, false, true, 0, cs);
  }

  /** A submittable intent never strands exactly when its size is positive or absent. */
  lemma NeverStrandsIff(intent: Intent)
    requires Plans.CheckSubmittable(intent).None?
    ensures NeverStrands(intent) <==> (intent.positionSize.Some? ==> intent.positionSize.value > 0)
  {
    if intent.positionSize.Some? && intent.positionSize.value <= 0 {
      StrandsSomewhere(intent);
    } else {
      forall killEngaged, runtimeHealthy, now, cs
        ensures !EndsInFilled(intent, killEngaged, runtimeHealthy, now, cs)
      {
        StrandsNowhere(intent, killEngaged, runtimeHealthy, now, cs);
      }
    }
  }
}
