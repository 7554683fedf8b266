/** What the ends of an execution leave behind: a live position, and orders still working. */
module Endings {
  import opened Wrappers
  import opened Decimal
  import opened ExecutionTypes
  import opened Orders
  import opened Positions
  import opened Reducer
  import opened Lifecycles
  import opened Conservation
  import opened Adapter
  import opened AdapterRuns
  import TargetsClose
  import Gate
  import Plans

  // ------------------------------------------------------------------ positions

  predicate HoldsPosition(s: Status) { s.Open? || s.Reducing? }

  /** The status before the last transition. */
  function Before(s: State): Status {
    var h := s.lifecycle.history;
    if |h| < 2 then Status.NotCreated else h[|h| - 2]
  }

  /** Exactly when the position is live. */
  ghost predicate LiveMatches(s: State) {
    IsLive(s.position) <==> HoldsPosition(s.status) || (s.status.Failed? && HoldsPosition(Before(s)))
  }

  lemma CommitBefore(s: State, r: Result, at: int)
    requires Advanced(s, at, r) && WellFormedRun(s)
    ensures Before(r.state) == s.status
  {
    assert r.state.lifecycle.history == s.lifecycle.history + [r.state.status];
  }

  /** An accepted fill either moves the entry before there is a position, or reduces a live one. */
  lemma FillMovesOrReduces(s: State, id: OrderId, price: real, quantity: real, at: int)
    requires ReduceFill(s, id, price, quantity, at).ok
    ensures var t, p := ReduceFill(s, id, price, quantity, at).state, ReducePosition(s.position, quantity, at);
            || ((t.status.PartiallyFilled? || t.status.Filled?) && t.position == s.position && !HoldsPosition(s.status))
            || (IsLive(s.position) && t.position == p
                && t.status == if p.status.Closed? then Status.Closed else Status.Reducing)
  {
  }

  lemma FillMatches(s: State, id: OrderId, price: real, quantity: real, at: int)
    requires LiveMatches(s) && !IsTerminal(s.status) && ReduceFill(s, id, price, quantity, at).ok
    requires Before(ReduceFill(s, id, price, quantity, at).state) == s.status
    ensures LiveMatches(ReduceFill(s, id, price, quantity, at).state)
  {
    FillMovesOrReduces(s, id, price, quantity, at);
  }

  lemma StepMatches(s: State, c: Command)
    requires LiveMatches(s) && WellFormedRun(s)
    ensures LiveMatches(ReduceExecution(s, c).state)
  {
    var r := ReduceExecution(s, c);
    StepShape(s, c);
    if r.ok {
      CommitBefore(s, r, c.at);
      match c
      case Fill(at, id, price, quantity) => FillMatches(s, id, price, quantity, at);
      case _ => MoveMatches(s, c);
    }
  }

  lemma MoveMatches(s: State, c: Command)
    requires LiveMatches(s) && !c.Fill? && ReduceExecution(s, c).ok && Before(ReduceExecution(s, c).state) == s.status
    ensures LiveMatches(ReduceExecution(s, c).state)
  {
  }

  function Planned(intent: Intent): State { InitState(intent, Some(Plans.PlanFor(intent))) }

  lemma {:induction false} RunsMatch(intent: Intent, cs: seq<Command>)
    ensures LiveMatches(Run(Planned(intent), cs)) && WellFormedRun(Run(Planned(intent), cs))
    decreases |cs|
  {
    RunsAreWellFormed(intent, Some(Plans.PlanFor(intent)), cs);
    if cs != [] {
      RunsMatch(intent, cs[..|cs| - 1]);
      StepMatches(Run(Planned(intent), cs[..|cs| - 1]), cs[|cs| - 1]);
    }
  }

  /** An ended execution still holds a live position exactly when it FAILED out of OPEN or REDUCING. */
  lemma EndedLiveIff(intent: Intent, cs: seq<Command>)
    requires IsTerminal(Run(Planned(intent), cs).status)
    ensures var s := Run(Planned(intent), cs);
            IsLive(s.position) <==> s.status.Failed? && HoldsPosition(Before(s))
  {
    RunsMatch(intent, cs);
  }

  // ------------------------------------------------------------------ orders after a close

  predicate Works(o: Order) { !IsTerminalOrder(o.status) }

  ghost predicate NoneWorks(os: seq<Order>) { forall i :: 0 <= i < |os| ==> !Works(os[i]) }

  /** All protective orders are FILLED, but for the i-th. */
  ghost predicate OthersFilled(os: seq<Order>, i: nat) {
    forall j :: 1 <= j < |os| && j != i ==> os[j].status.Filled?
  }

  /** What a command that closes the execution must find for no order to work afterwards. */
  ghost predicate LeavesNone(s: State, c: Command) {
    match c
    case Fill(at, id, price, quantity) =>
      var i := IndexOfOrder(s.orders, id);
      i.Some? && OthersFilled(s.orders, i.value)
      && ApplyFillToOrder(s.orders[i.value], price, quantity, at).status.Filled?
    case Reduce(_, _) => OthersFilled(s.orders, 0)
    case _ => true
  }

  lemma ReduceLeaves(s: State, c: Command, planned: seq<Order>)
    requires Lockstep(s, planned) && c.Reduce? && ReduceExecution(s, c).ok
    ensures ReduceExecution(s, c).state.orders == s.orders
    ensures NoneWorks(s.orders) <==> OthersFilled(s.orders, 0)
  {
  }

  lemma CloseLeaves(s: State, c: Command, planned: seq<Order>)
    requires Lockstep(s, planned) && c.Close? && ReduceExecution(s, c).ok
    ensures NoneWorks(ReduceExecution(s, c).state.orders)
  {
    forall i | 0 <= i < |s.orders| ensures !Works(TransitionOrder(s.orders[i], OrderStatus.Cancelled, c.at)) {
      assert i > 0 ==> ProtectiveStatus(s.status, s.orders[i].status);
    }
  }

  /** An accepted fill that closes replaces one protective order of an open execution. */
  lemma ClosingFill(s: State, id: OrderId, price: real, quantity: real, at: int, planned: seq<Order>) returns (i: nat)
    requires Lockstep(s, planned) && ReduceFill(s, id, price, quantity, at).ok && !IsTerminal(s.status)
    requires ReduceFill(s, id, price, quantity, at).state.status.Closed?
    ensures IndexOfOrder(s.orders, id) == Some(i) && 0 < i < |s.orders| && HoldsPosition(s.status) && quantity > 0.0
    ensures var os := ReduceFill(s, id, price, quantity, at).state.orders;
            && |os| == |s.orders| && os[i] == ApplyFillToOrder(s.orders[i], price, quantity, at)
            && forall j :: 0 <= j < |os| && j != i ==> os[j] == s.orders[j]
  {
    i := IndexOfOrder(s.orders, id).value;
    assert SameOrderTerms(s.orders[i], planned[i]);
    FillTouchesOne(s.orders, i, price, quantity, at, planned);
  }

  lemma FillLeaves(s: State, id: OrderId, price: real, quantity: real, at: int, planned: seq<Order>)
    requires Lockstep(s, planned) && ReduceFill(s, id, price, quantity, at).ok && !IsTerminal(s.status)
    requires ReduceFill(s, id, price, quantity, at).state.status.Closed?
    ensures NoneWorks(ReduceFill(s, id, price, quantity, at).state.orders)
            <==> LeavesNone(s, Command.Fill(at, id, price, quantity))
  {
    var i := ClosingFill(s, id, price, quantity, at, planned);
    var os := ReduceFill(s, id, price, quantity, at).state.orders;
    FillShapesOrder(s.orders[i], price, quantity, at);
    FilledOrWorking(s, os, i);
  }

  lemma FilledOrWorking(s: State, os: seq<Order>, i: nat)
    requires StatusesMatch(s.status, s.orders) && HoldsPosition(s.status) && 0 < i < |s.orders| == |os|
    requires forall j :: 0 <= j < |os| && j != i ==> os[j] == s.orders[j]
    requires os[i].status.Acknowledged? || os[i].status.PartiallyFilled? || os[i].status.Filled?
    ensures NoneWorks(os) <==> OthersFilled(s.orders, i) && os[i].status.Filled?
  {
  }

  /**
   * A command that closes an execution leaves no order working exactly when it is CLOSE, or REDUCE with every
   * protective order FILLED, or a fill that completes its order when every other one is FILLED.
   */
  lemma ClosingIff(s: State, c: Command, planned: seq<Order>)
    requires Lockstep(s, planned) && ReduceExecution(s, c).ok && ReduceExecution(s, c).state.status.Closed?
    ensures NoneWorks(ReduceExecution(s, c).state.orders) <==> LeavesNone(s, c)
  {
    match c
    case Fill(at, id, price, quantity) => FillLeaves(s, id, price, quantity, at, planned);
    case Reduce(_, _) => ReduceLeaves(s, c, planned);
    case Close(_) => CloseLeaves(s, c, planned);
    case _ =>
  }

  /** On every run of the reducer. */
  lemma ClosingRunIff(intent: Intent, cs: seq<Command>, c: Command)
    requires var s := Run(Planned(intent), cs);
             ReduceExecution(s, c).ok && ReduceExecution(s, c).state.status.Closed?
    ensures var s := Run(Planned(intent), cs);
            NoneWorks(ReduceExecution(s, c).state.orders) <==> LeavesNone(s, c)
  {
    RunsAreLockstep(intent, cs);
    ClosingIff(Run(Planned(intent), cs), c, Plans.PlanOrders(intent));
  }

  // ------------------------------------------------------------------ a FILLED order holds its size

  ghost predicate FilledHold(os: seq<Order>) {
    forall i :: 0 <= i < |os| ==> HoldsSize(os[i])
  }

  predicate HoldsSize(o: Order) { o.status.Filled? ==> o.quantity == Some(o.filled) }

  lemma FillHoldsSize(o: Order, price: real, quantity: real, at: int)
    requires HoldsSize(o) && quantity > 0.0
    ensures HoldsSize(ApplyFillToOrder(o, price, quantity, at))
  {
    if o.quantity.Some? { RoundOfInteger(o.quantity.value); }
  }

  lemma FillKeepsSizes(s: State, id: OrderId, price: real, quantity: real, at: int)
    requires FilledHold(s.orders)
    ensures FilledHold(ReduceFill(s, id, price, quantity, at).state.orders)
  {
    var i := IndexOfOrder(s.orders, id);
    if i.Some? && quantity > 0.0 { FillHoldsSize(s.orders[i.value], price, quantity, at); }
  }

  lemma MoveKeepsSizes(s: State, c: Command)
    requires FilledHold(s.orders) && !c.Fill?
    ensures FilledHold(ReduceExecution(s, c).state.orders)
  {
    var os := ReduceExecution(s, c).state.orders;
    assert |os| == |s.orders|;
    forall i | 0 <= i < |os| ensures HoldsSize(os[i]) {
      assert HoldsSize(s.orders[i]);
    }
  }

  lemma StepKeepsSizes(s: State, c: Command)
    requires FilledHold(s.orders)
    ensures FilledHold(ReduceExecution(s, c).state.orders)
  {
    match c
    case Fill(at, id, price, quantity) =>
      if !IsTerminal(s.status) { FillKeepsSizes(s, id, price, quantity, at); }
    case _ => MoveKeepsSizes(s, c);
  }

  // ------------------------------------------------------------------ the adapter's closes

  lemma PartAtMostWhole(q: int, n: nat, i: nat)
    requires q > 0 && i < n
    ensures Plans.Part(q, n, i) <= q
  {
    var per := Plans.PerPart(q, n);
    ShareOfWhole(q, n);
    RoundMonotone(0.0, q as real / n as real);
    RoundMonotone(q as real / n as real, q as real);
    RoundOfInteger(q);
    assert 0 <= per <= q;
    assert per * (n - 1) >= 0;
  }

  lemma ShareOfWhole(q: int, n: nat)
    requires q > 0 && n > 0
    ensures 0.0 <= q as real / n as real <= q as real
  {
    ProductOfNonNegatives(q as real, n as real - 1.0);
    DivideCompare(q as real, n as real, q as real);
    DivideCompare(q as real, n as real, 0.0);
  }

  /** The size of the i-th protective order. */
  function SizeOf(q: int, n: nat, i: nat): int
    requires 1 <= i < n + 2
  {
    if i == 1 then q else Plans.Part(q, n, i - 2)
  }

  /** A FILLED order's records reach its size. */
  lemma RecordsReachSize(o: Order, recorded: int, n: nat, size: int)
    requires OrderBalanced(o, recorded, n) && HoldsSize(o) && o.status.Filled? && o.quantity == Some(size)
    ensures recorded >= size
  {
  }

  /** With every target but one FILLED, the targets' records reach what is left of the size without it. */
  lemma {:induction false} TargetRecords(s: State, q: int, n: nat, from: nat, skip: nat)
    requires |s.orders| == n + 2 && n > 0 && from <= n && HoldRecords(s.orders, s.fills) && FilledHold(s.orders)
    requires forall i :: 0 <= i < n ==> s.orders[i + 2].quantity == Some(Plans.Part(q, n, i))
    requires OthersFilled(s.orders, skip)
    ensures TargetsClose.RecordedFrom(s.fills, s.orders, from + 2)
            >= TargetsClose.PartsFrom(q, n, from)
               - if from + 2 <= skip < n + 2 then Plans.Part(q, n, skip - 2) else 0
    decreases n - from
  {
    if from == n {
      Plans.PartsSumToTotal(q, n);
    } else {
      var o := s.orders[from + 2];
      TargetRecords(s, q, n, from + 1, skip);
      assert TargetsClose.PartsFrom(q, n, from) == Plans.Part(q, n, from) + TargetsClose.PartsFrom(q, n, from + 1);
      if from + 2 != skip {
        RecordsReachSize(o, FilledFor(s.fills, o.id), CountFills(s.fills, o.id), Plans.Part(q, n, from));
      }
    }
  }

  /** If all protective orders but one are FILLED, their records reach the whole size. */
  lemma OthersReach(s: State, q: int, n: nat, skip: nat)
    requires EntryFirst(s.orders) && OrdersBalanced(s) && FilledHold(s.orders)
    requires q > 0 && n > 0 && |s.orders| == n + 2 && s.orders[1].quantity == Some(q)
    requires forall i :: 0 <= i < n ==> s.orders[i + 2].quantity == Some(Plans.Part(q, n, i))
    requires 0 < skip < n + 2 && OthersFilled(s.orders, skip)
    ensures ProtectiveFilled(s.fills) >= q
  {
    var o := s.orders[1];
    TargetsClose.ProtectiveIsSum(s.fills, s.orders);
    TargetRecords(s, q, n, 0, skip);
    assert OrderBalanced(o, FilledFor(s.fills, o.id), CountFills(s.fills, o.id));
    if skip > 1 {
      PartAtMostWhole(q, n, skip - 2);
      RecordsReachSize(o, FilledFor(s.fills, o.id), CountFills(s.fills, o.id), q);
    }
  }

  lemma OthersReachSize(s: State, intent: Intent, q: int, skip: nat)
    requires CoreKept(s, Plans.PlanOrders(intent)) && FilledHold(s.orders)
    requires intent.positionSize == Some(q) && q > 0 && |intent.targets| > 0
    requires 0 < skip < |s.orders| && OthersFilled(s.orders, skip)
    ensures ProtectiveFilled(s.fills) >= q
  {
    PlannedSizes(s, intent, q);
    TargetsClose.PlannedIds(s, intent);
    OthersReach(s, q, |intent.targets|, skip);
  }

  lemma PlannedSizes(s: State, intent: Intent, q: int)
    requires Lockstep(s, Plans.PlanOrders(intent)) && intent.positionSize == Some(q)
    ensures |s.orders| == |intent.targets| + 2 && s.orders[1].quantity == Some(q)
    ensures forall i :: 0 <= i < |intent.targets| ==>
              s.orders[i + 2].quantity == Some(Plans.Part(q, |intent.targets|, i))
  {
    var planned := Plans.PlanOrders(intent);
    assert SameOrderTerms(s.orders[1], planned[1]);
    forall i | 0 <= i < |intent.targets|
      ensures s.orders[i + 2].quantity == Some(Plans.Part(q, |intent.targets|, i))
    {
      assert SameOrderTerms(s.orders[i + 2], planned[i + 2]);
    }
  }

  ghost predicate SomeWorks(os: seq<Order>) { exists i :: 1 <= i < |os| && Works(os[i]) }

  /** What the core of a session keeps besides. */
  ghost predicate EndKept(s: State, intent: Intent) {
    && CoreKept(s, Plans.PlanOrders(intent))
    && FilledHold(s.orders)
    && Gate.ArmedWithReason(s, Plans.PlanFor(intent))
    && (s.status.Closed? ==> SomeWorks(s.orders))
  }

  /** While the position is open, at least two protective orders are unfilled. */
  lemma AnotherIsUnfilled(s: State, intent: Intent, i: nat)
    requires EndKept(s, intent) && HoldsPosition(s.status) && 0 < i < |s.orders|
    ensures !OthersFilled(s.orders, i)
  {
    OpenIsSized(s, intent);
    if OthersFilled(s.orders, i) {
      OthersReachSize(s, intent, intent.positionSize.value, i);
    }
  }

  lemma AnotherWorks(s: State, intent: Intent, i: nat) returns (j: nat)
    requires EndKept(s, intent) && HoldsPosition(s.status) && 0 < i < |s.orders|
    ensures 1 <= j < |s.orders| && j != i && Works(s.orders[j])
  {
    AnotherIsUnfilled(s, intent, i);
    j :| 1 <= j < |s.orders| && j != i && !s.orders[j].status.Filled?;
    assert ProtectiveStatus(s.status, s.orders[j].status);
  }

  /** So a protective fill that closes the position leaves another protective order unfilled. */
  lemma ClosingFillLeaves(s: State, id: OrderId, price: real, quantity: real, at: int, intent: Intent)
    requires EndKept(s, intent) && !IsTerminal(s.status) && ReduceFill(s, id, price, quantity, at).ok
    requires ReduceFill(s, id, price, quantity, at).state.status.Closed?
    ensures SomeWorks(ReduceFill(s, id, price, quantity, at).state.orders)
  {
    var i := ClosingFill(s, id, price, quantity, at, Plans.PlanOrders(intent));
    var j := AnotherWorks(s, intent, i);
    assert Works(ReduceFill(s, id, price, quantity, at).state.orders[j]);
  }

  lemma OpenIsSized(s: State, intent: Intent)
    requires EndKept(s, intent) && HoldsPosition(s.status)
    ensures intent.positionSize.Some? && intent.positionSize.value > 0 && |intent.targets| > 0
    ensures ProtectiveFilled(s.fills) < intent.positionSize.value
  {
    assert SameOrderTerms(s.orders[0], Plans.PlanOrders(intent)[0]);
  }

  lemma StepKeepsEnd(s: State, c: Command, intent: Intent)
    requires EndKept(s, intent) && Issued(s, c)
    ensures EndKept(ReduceExecution(s, c).state, intent)
  {
    StepKeepsCore(s, c, Plans.PlanOrders(intent));
    StepKeepsSizes(s, c);
    Gate.StepKeepsReason(s, c, Plans.PlanFor(intent));
    StepShape(s, c);
    if ReduceExecution(s, c).ok && ReduceExecution(s, c).state.status.Closed? {
      OnlyFillsClose(s, c);
      ClosingFillLeaves(s, c.orderId, c.price, c.quantity, c.at, intent);
    }
  }

  lemma OnlyFillsClose(s: State, c: Command)
    requires Issued(s, c) && ReduceExecution(s, c).ok && ReduceExecution(s, c).state.status.Closed?
    ensures c.Fill? && !IsTerminal(s.status)
    ensures ReduceExecution(s, c) == ReduceFill(s, c.orderId, c.price, c.quantity, c.at)
  {
  }

  lemma CommandsKeepEnd(core: State, submitted: bool, cs: seq<Command>, intent: Intent)
    requires EndKept(core, intent) && CallShape(core, submitted, cs)
    ensures EndKept(Run(core, cs), intent)
  {
    if |cs| == 1 {
      assert cs == [cs[0]];
      RunShort(core, cs[0], cs[0]);
      StepKeepsEnd(core, cs[0], intent);
    } else if |cs| == 2 {
      assert cs == [cs[0], cs[1]];
      RunShort(core, cs[0], cs[1]);
      StepKeepsEnd(core, cs[0], intent);
      StepKeepsEnd(ReduceExecution(core, cs[0]).state, cs[1], intent);
    }
  }

  lemma CallKeepsEnd(s: Session, c: AdapterCommand, intent: Intent)
    requires SessionKept(s, Plans.PlanOrders(intent)) && EndKept(s.core.value, intent)
    ensures SessionKept(Apply(s, c).session, Plans.PlanOrders(intent))
    ensures EndKept(Apply(s, c).session.core.value, intent)
  {
    CallKeepsSession(s, c, Plans.PlanOrders(intent));
    CoreFollows(s, c);
    CallIssues(s, c);
    CommandsKeepEnd(s.core.value, s.submitted, CoreCommands(s, c), intent);
  }

  lemma NewEndKept(intent: Intent, killEngaged: bool, runtimeHealthy: bool, now: int)
    ensures EndKept(Created(intent, killEngaged, runtimeHealthy, now), intent)
  {
    var plan, s0 := Plans.PlanFor(intent), Planned(intent);
    var s1 := ReduceExecution(s0, Command.Plan(now)).state;
    CreatedKept(intent, killEngaged, runtimeHealthy, now);
    StepKeepsSizes(s0, Command.Plan(now));
    StepKeepsSizes(s1, Command.Kill(now));
    StepKeepsSizes(s1, Command.RuntimeUnhealthy(now));
    Gate.StepKeepsReason(s0, Command.Plan(now), plan);
    Gate.StepKeepsReason(s1, Command.Kill(now), plan);
    Gate.StepKeepsReason(s1, Command.RuntimeUnhealthy(now), plan);
  }

  lemma {:induction false} RunsKeepEnd(intent: Intent, killEngaged: bool, runtimeHealthy: bool, now: int,
      cs: seq<AdapterCommand>)
    ensures var s := Replay(NewSession(intent, killEngaged, runtimeHealthy, now), cs);
            SessionKept(s, Plans.PlanOrders(intent)) && EndKept(s.core.value, intent)
    decreases |cs|
  {
    if cs == [] {
      NewSessionKept(intent, killEngaged, runtimeHealthy, now);
      NewEndKept(intent, killEngaged, runtimeHealthy, now);
    } else {
      RunsKeepEnd(intent, killEngaged, runtimeHealthy, now, cs[..|cs| - 1]);
      CallKeepsEnd(Replay(NewSession(intent, killEngaged, runtimeHealthy, now), cs[..|cs| - 1]), cs[|cs| - 1], intent);
    }
  }

  /** On every adapter run, a CLOSED execution leaves a protective order working at the venue. */
  lemma ClosedLeavesOrders(intent: Intent, killEngaged: bool, runtimeHealthy: bool, now: int, cs: seq<AdapterCommand>)
    requires FinalCore(intent, killEngaged, runtimeHealthy, now, cs).status.Closed?
    ensures var os := FinalCore(intent, killEngaged, runtimeHealthy, now, cs).orders;
            exists i :: 1 <= i < |os| && (os[i].status.Acknowledged? || os[i].status.PartiallyFilled?)
  {
    RunsKeepEnd(intent, killEngaged, runtimeHealthy, now, cs);
    var s := FinalCore(intent, killEngaged, runtimeHealthy, now, cs);
    var i :| 1 <= i < |s.orders| && Works(s.orders[i]);
    assert ProtectiveStatus(s.status, s.orders[i].status);
  }
}
