/** What every run of the reducer keeps: the audit trail, the lifecycle and the orders' statuses. */
module Lifecycles {
  import opened Wrappers
  import opened ExecutionTypes
  import opened Orders
  import opened Positions
  import opened Reducer
  import Plans

  // ------------------------------------------------------------------ one step

  /** The result of an accepted command: one linked event along a legal edge. */
  ghost predicate Advanced(s: State, at: int, r: Result) {
    && r.ok
    && CanTransition(s.status, r.state.status)
    && r.event.Some?
    && var e := r.event.value;
       && e.seqNo == s.seqNo + 1 == r.state.seqNo
       && e.previous == s.status && e.next == r.state.status
       && e.provenance == Provenance.Derived && e.ts == at == r.state.clock == r.state.updatedAt
       && r.state.audit == Audit(s.audit.events + [e], |s.audit.events| + 1)
       && r.state.lifecycle == Lifecycle(e.next, s.lifecycle.history + [e.next], IsTerminal(e.next))
       && r.state.intent == s.intent && r.state.plan == s.plan
       && s.fills <= r.state.fills
  }

  /** The result of a refused command: nothing changes. */
  ghost predicate Refused(s: State, r: Result) {
    !r.ok && r.state == s && r.event.None? && r.failure.Some? && !r.failure.value.fatal
  }

  lemma FillRecordsMore(s: State, i: nat, price: real, quantity: real, at: int)
    requires i < |s.orders|
    ensures s.fills <= FillPatch(s, i, price, quantity, at).fills
  {
  }

  lemma FillShape(s: State, id: OrderId, price: real, quantity: real, at: int)
    ensures var r := ReduceFill(s, id, price, quantity, at); Advanced(s, at, r) || Refused(s, r)
  {
    var i := IndexOfOrder(s.orders, id);
    if i.Some? { FillRecordsMore(s, i.value, price, quantity, at); }
  }

  /** An accepted command appends one linked event along a legal edge; a refused one changes nothing. */
  lemma StepShape(s: State, c: Command)
    ensures var r := ReduceExecution(s, c); Advanced(s, c.at, r) || Refused(s, r)
  {
    match c
    case Fill(at, id, price, quantity) => FillShape(s, id, price, quantity, at);
    case _ =>
  }

  // ------------------------------------------------------------------ the audit is the run

  ghost predicate WellFormedRun(s: State) {
    var es, h := s.audit.events, s.lifecycle.history;
    && s.seqNo == s.audit.count == |es|
    && |h| == |es| + 1
    && h[0] == Status.NotCreated
    && h[|es|] == s.lifecycle.current == s.status
    && s.lifecycle.terminal == IsTerminal(s.status)
    && (forall i :: 0 <= i < |es| ==> es[i].seqNo == i + 1 && es[i].previous == h[i] && es[i].next == h[i + 1])
    && (forall i {:trigger h[i]} :: 0 <= i < |es| ==> CanTransition(h[i], h[i + 1]))
  }

  lemma AdvanceKeepsRun(s: State, at: int, r: Result)
    requires WellFormedRun(s) && Advanced(s, at, r)
    ensures WellFormedRun(r.state)
  {
    assert r.state.lifecycle.history[|s.audit.events|] == s.status;
  }

  lemma StepKeepsRun(s: State, c: Command)
    requires WellFormedRun(s)
    ensures WellFormedRun(ReduceExecution(s, c).state)
  {
    var r := ReduceExecution(s, c);
    StepShape(s, c);
    if r.ok { AdvanceKeepsRun(s, c.at, r); }
  }

  /** Every reachable state is a path of EXEC_TRANSITIONS from NOT_CREATED, recorded event by event. */
  lemma {:induction false} RunsAreWellFormed(intent: Intent, plan: Option<Plan>, cs: seq<Command>)
    ensures WellFormedRun(Run(InitState(intent, plan), cs))
    decreases |cs|
  {
    if cs != [] {
      RunsAreWellFormed(intent, plan, cs[..|cs| - 1]);
      StepKeepsRun(Run(InitState(intent, plan), cs[..|cs| - 1]), cs[|cs| - 1]);
    }
  }

  lemma {:induction false} RunConcat(s: State, a: seq<Command>, b: seq<Command>)
    ensures Run(s, a + b) == Run(Run(s, a), b)
    decreases |b|
  {
    if b == [] {
      assert a + b == a;
    } else {
      assert (a + b)[..|a + b| - 1] == a + b[..|b| - 1];
      RunConcat(s, a, b[..|b| - 1]);
    }
  }

  /** A terminal status absorbs every later command; exactly the terminal ones do. */
  lemma {:induction false} TerminalAbsorbs(s: State, cs: seq<Command>)
    requires IsTerminal(s.status)
    ensures Run(s, cs) == s
    decreases |cs|
  {
    if cs != [] {
      TerminalAbsorbs(s, cs[..|cs| - 1]);
    }
  }

  lemma NonTerminalCanStop(s: State, at: int)
    ensures ReduceExecution(s, Command.Kill(at)).ok <==> !IsTerminal(s.status)
    ensures ReduceExecution(s, Command.RuntimeUnhealthy(at)).ok <==> !IsTerminal(s.status)
  {
  }

  /** The terminal statuses are exactly those in which nothing can happen any more. */
  lemma AbsorbsIff(s: State)
    ensures IsTerminal(s.status) <==> forall cs :: Run(s, cs) == s
  {
    if IsTerminal(s.status) {
      forall cs ensures Run(s, cs) == s { TerminalAbsorbs(s, cs); }
    } else {
      var kill := Command.Kill(0);
      NonTerminalCanStop(s, 0);
      StepShape(s, kill);
      assert Run(s, []) == s;
      RunAppend(s, [], kill);
      assert [] + [kill] == [kill];
      assert Run(s, [kill]).seqNo == s.seqNo + 1;
    }
  }

  // ------------------------------------------------------------------ going live

  lemma RunAppend(s: State, cs: seq<Command>, c: Command)
    ensures Run(s, cs + [c]) == ReduceExecution(Run(s, cs), c).state
  {
    assert (cs + [c])[..|cs|] == cs;
  }

  function GoingOut(): seq<Command> { [Command.Plan(0), Command.Arm(0), Command.Submit(0), Command.Acknowledge(0)] }

  lemma RunThree(s: State, a: Command, b: Command, c: Command)
    ensures Run(s, [a, b, c]) == ReduceExecution(ReduceExecution(ReduceExecution(s, a).state, b).state, c).state
  {
    RunAppend(s, [], a);
    RunAppend(s, [a], b);
    RunAppend(s, [a, b], c);
    assert [] + [a] == [a] && [a] + [b] == [a, b] && [a, b] + [c] == [a, b, c];
  }

  lemma GoesOutFrom(s: State)
    requires s.status.NotCreated? && s.plan.Some? && s.plan.value.submittable
    ensures var s1 := ReduceExecution(s, Command.Plan(0)).state;
            var s3 := ReduceExecution(ReduceExecution(s1, Command.Arm(0)).state, Command.Submit(0)).state;
            s3.status.Submitted? && ReduceExecution(s3, Command.Acknowledge(0)).state.status.Acknowledged?
  {
    var s1 := ReduceExecution(s, Command.Plan(0)).state;
    assert s1.status.Planned? && s1.plan == s.plan;
    var s2 := ReduceExecution(s1, Command.Arm(0)).state;
    assert s2.status.Ready? && s2.plan == s.plan;
  }

  /** A submittable execution that is planned, armed, submitted and acknowledged is live. */
  lemma GoesOut(intent: Intent)
    requires Plans.CheckSubmittable(intent).None?
    ensures Run(InitState(intent, Some(Plans.PlanFor(intent))), GoingOut()).status.Acknowledged?
  {
    var s := InitState(intent, Some(Plans.PlanFor(intent)));
    GoesOutFrom(s);
    RunThree(s, Command.Plan(0), Command.Arm(0), Command.Submit(0));
    RunAppend(s, [Command.Plan(0), Command.Arm(0), Command.Submit(0)], Command.Acknowledge(0));
    assert [Command.Plan(0), Command.Arm(0), Command.Submit(0)] + [Command.Acknowledge(0)] == GoingOut();
  }

  // ------------------------------------------------------------------ reduceSequence

  /** Reducing a concatenation is reducing in two halves, up to the first refusal. */
  lemma {:induction false} SequenceSplits(cur: Result, a: seq<Command>, b: seq<Command>)
    requires cur.ok
    ensures SequenceFrom(cur, a + b) ==
            var first := SequenceFrom(cur, a);
            if first.ok then SequenceFrom(first, b) else first
    decreases |a|
  {
    if a == [] {
      assert a + b == b;
    } else {
      assert (a + b)[1..] == a[1..] + b;
      var r := ReduceExecution(cur.state, a[0]);
      if r.ok {
        SequenceSplits(r, a[1..], b);
      }
    }
  }

  /** The second half only depends on the state the first half ended in. */
  lemma HalvesCompose(s: State, a: seq<Command>, b: seq<Command>)
    requires SequenceFrom(Start(s), a).ok
    ensures var whole, second := SequenceFrom(Start(s), a + b), SequenceFrom(Start(SequenceFrom(Start(s), a).state), b);
            && whole.ok == second.ok && whole.state == second.state
            && (b != [] ==> whole == second)
  {
    SequenceSplits(Start(s), a, b);
  }

  /** The commands before the n-th lead to `end`, where the n-th is refused. */
  ghost predicate StopsAt(s: State, cs: seq<Command>, n: nat, end: State) {
    n < |cs| && end == Run(s, cs[..n]) && !ReduceExecution(end, cs[n]).ok
  }

  /** An accepted sequence is a run; a refused one stops in the state before the refusal. */
  lemma {:induction false} SequenceIsRun(cur: Result, cs: seq<Command>)
    requires cur.ok
    ensures var r := SequenceFrom(cur, cs);
            && (r.ok ==> r.state == Run(cur.state, cs))
            && (!r.ok ==> exists n :: 0 <= n < |cs| && StopsAt(cur.state, cs, n, r.state))
    decreases |cs|
  {
    if cs != [] {
      var step := ReduceExecution(cur.state, cs[0]);
      assert [cs[0]] + cs[1..] == cs;
      assert Run(cur.state, [cs[0]]) == step.state by {
        assert [cs[0]][..0] == [];
        assert Run(cur.state, []) == cur.state;
      }
      if step.ok {
        SequenceIsRun(step, cs[1..]);
        RunConcat(cur.state, [cs[0]], cs[1..]);
        var r := SequenceFrom(step, cs[1..]);
        if !r.ok {
          var n :| 0 <= n < |cs[1..]| && StopsAt(step.state, cs[1..], n, r.state);
          RunConcat(cur.state, [cs[0]], cs[1..][..n]);
          assert cs[..n + 1] == [cs[0]] + cs[1..][..n];
          assert StopsAt(cur.state, cs, n + 1, r.state);
        }
      } else {
        StepShape(cur.state, cs[0]);
        assert cs[..0] == [];
        assert StopsAt(cur.state, cs, 0, step.state);
      }
    }
  }

  // ------------------------------------------------------------------ orders in lockstep

  /** What a transition never touches in an order. */
  predicate SameOrderTerms(a: Order, b: Order) {
    a.id == b.id && a.side == b.side && a.role == b.role && a.kind == b.kind && a.price == b.price
        && a.quantity == b.quantity
  }

  /** The working orders are the planned ones, in the planned order, with the planned terms. */
  ghost predicate KeepsTerms(os: seq<Order>, planned: seq<Order>) {
    |os| == |planned| && forall i :: 0 <= i < |planned| ==> SameOrderTerms(os[i], planned[i])
  }

  /** One ENTRY order, first; ids tell the orders apart. */
  ghost predicate EntryFirst(os: seq<Order>) {
    && |os| > 0
    && os[0].role == Role.Entry
    && (forall i :: 1 <= i < |os| ==> os[i].role != Role.Entry)
    && (forall i :: 0 <= i < |os| ==> os[i].id.index == i && os[i].id.role == os[i].role)
  }

  /** The statuses the entry order may have while the execution has status s. */
  predicate EntryStatus(s: Status, o: OrderStatus) {
    match s
    case NotCreated | Planned => o.Planned?
    case Ready => o.Ready?
    case Submitted => o.Submitted?
    case Acknowledged => o.Acknowledged?
    case PartiallyFilled => o.PartiallyFilled?
    case Filled | Open | Reducing | Closed => o.Filled?
    case Cancelled => o.Filled? || o.Cancelled?
    case Failed => o.Filled? || o.Failed?
    case Rejected => o.Rejected?
    case Expired => o.Expired?
  }

  /** The statuses a protective order may have while the execution has status s. */
  predicate ProtectiveStatus(s: Status, o: OrderStatus) {
    match s
    case PartiallyFilled | Filled => o.Acknowledged?
    case Open | Reducing => o.Acknowledged? || o.PartiallyFilled? || o.Filled?
    case Closed => o.Acknowledged? || o.PartiallyFilled? || o.Filled? || o.Cancelled?
    case _ => EntryStatus(s, o)
  }

  ghost predicate StatusesMatch(s: Status, os: seq<Order>) {
    && |os| > 0
    && EntryStatus(s, os[0].status)
    && forall i :: 1 <= i < |os| ==> ProtectiveStatus(s, os[i].status)
  }

  ghost predicate Lockstep(s: State, planned: seq<Order>) {
    && EntryFirst(planned)
    && KeepsTerms(s.orders, planned)
    && StatusesMatch(s.status, s.orders)
  }

  /** The order status a whole-book move to execution status `to` asks for. */
  predicate Corresponds(to: Status, o: OrderStatus) {
    match to
    case Ready => o.Ready?
    case Submitted => o.Submitted?
    case Acknowledged => o.Acknowledged?
    case Cancelled | Closed => o.Cancelled?
    case Rejected => o.Rejected?
    case Expired => o.Expired?
    case Failed => o.Failed?
    case _ => false
  }

  /** One order's part in a whole-book move. */
  lemma MoveOne(from: Status, to: Status, o: Order, ot: OrderStatus, at: int)
    requires CanTransition(from, to) && Corresponds(to, ot)
    ensures SameOrderTerms(TransitionOrder(o, ot, at), o)
    ensures EntryStatus(from, o.status) ==> EntryStatus(to, TransitionOrder(o, ot, at).status)
    ensures ProtectiveStatus(from, o.status) ==> ProtectiveStatus(to, TransitionOrder(o, ot, at).status)
  {
  }

  lemma MoveAll(s: State, to: Status, ot: OrderStatus, at: int, planned: seq<Order>)
    requires Lockstep(s, planned) && CanTransition(s.status, to) && Corresponds(to, ot)
    ensures KeepsTerms(TransitionAll(s.orders, ot, at), planned)
    ensures StatusesMatch(to, TransitionAll(s.orders, ot, at))
  {
    forall i | 0 <= i < |planned|
      ensures SameOrderTerms(TransitionOrder(s.orders[i], ot, at), planned[i])
      ensures i == 0 ==> EntryStatus(to, TransitionOrder(s.orders[i], ot, at).status)
      ensures i > 0 ==> ProtectiveStatus(to, TransitionOrder(s.orders[i], ot, at).status)
    {
      MoveOne(s.status, to, s.orders[i], ot, at);
    }
  }

  lemma StopKeepsLockstep(s: State, c: Command, planned: seq<Order>)
    requires Lockstep(s, planned) && ReduceExecution(s, c).ok
    requires c.Cancel? || c.Kill? || c.Reject? || c.Expire? || c.Fail? || c.RuntimeUnhealthy?
    ensures Lockstep(ReduceExecution(s, c).state, planned)
  {
    match c
    case Cancel(at, _) => MoveAll(s, Status.Cancelled, OrderStatus.Cancelled, at, planned);
    case Kill(at) => MoveAll(s, Status.Cancelled, OrderStatus.Cancelled, at, planned);
    case Reject(at, _) => MoveAll(s, Status.Rejected, OrderStatus.Rejected, at, planned);
    case Expire(at) => MoveAll(s, Status.Expired, OrderStatus.Expired, at, planned);
    case Fail(at, _) => MoveAll(s, Status.Failed, OrderStatus.Failed, at, planned);
    case RuntimeUnhealthy(at) => MoveAll(s, Status.Failed, OrderStatus.Failed, at, planned);
  }

  lemma AdvanceKeepsLockstep(s: State, c: Command, planned: seq<Order>)
    requires Lockstep(s, planned) && ReduceExecution(s, c).ok && (c.Arm? || c.Submit? || c.Acknowledge? || c.Close?)
    ensures Lockstep(ReduceExecution(s, c).state, planned)
  {
    match c
    case Arm(at) => MoveAll(s, Status.Ready, OrderStatus.Ready, at, planned);
    case Submit(at) => MoveAll(s, Status.Submitted, OrderStatus.Submitted, at, planned);
    case Acknowledge(at) => MoveAll(s, Status.Acknowledged, OrderStatus.Acknowledged, at, planned);
    case Close(at) => MoveAll(s, Status.Closed, OrderStatus.Cancelled, at, planned);
  }

  /** PLAN, OPEN and REDUCE leave every order as it is. */
  lemma OthersKeepLockstep(s: State, c: Command, planned: seq<Order>)
    requires Lockstep(s, planned) && ReduceExecution(s, c).ok && (c.Plan? || c.Open? || c.Reduce?)
    ensures Lockstep(ReduceExecution(s, c).state, planned)
  {
  }

  lemma MoveKeepsLockstep(s: State, c: Command, planned: seq<Order>)
    requires Lockstep(s, planned) && !c.Fill? && ReduceExecution(s, c).ok
    ensures Lockstep(ReduceExecution(s, c).state, planned)
  {
    match c
    case Arm(_) | Submit(_) | Acknowledge(_) | Close(_) => AdvanceKeepsLockstep(s, c, planned);
    case Plan(_) | Open(_) | Reduce(_, _) => OthersKeepLockstep(s, c, planned);
    case _ => StopKeepsLockstep(s, c, planned);
  }

  /** A fill touches one order's status, filled quantity and average only. */
  lemma FillShapesOrder(o: Order, price: real, quantity: real, at: int)
    ensures var f := ApplyFillToOrder(o, price, quantity, at);
            && SameOrderTerms(o, f)
            && (o.status.Acknowledged? || o.status.PartiallyFilled? ==> f.status.PartiallyFilled? || f.status.Filled?)
            && (o.status.Filled? ==> f.status.Filled?)
  {
  }

  /** One order replaced by itself after a fill. */
  lemma FillTouchesOne(os: seq<Order>, i: nat, price: real, quantity: real, at: int, planned: seq<Order>)
    requires EntryFirst(planned) && KeepsTerms(os, planned) && i < |os|
    ensures var f := ApplyFillToOrder(os[i], price, quantity, at);
            var rs := ReplaceOrder(os, os[i].id, f);
            && KeepsTerms(rs, planned) && |rs| == |os| && rs[i] == f
            && forall j :: 0 <= j < |os| && j != i ==> rs[j] == os[j]
  {
    FillShapesOrder(os[i], price, quantity, at);
    forall j | 0 <= j < |os| && j != i ensures os[j].id != os[i].id {
      assert SameOrderTerms(os[j], planned[j]) && SameOrderTerms(os[i], planned[i]);
    }
  }

  lemma EntryFillKeepsLockstep(s: State, price: real, quantity: real, at: int, planned: seq<Order>)
    requires Lockstep(s, planned)
    ensures Lockstep(ReduceFill(s, s.orders[0].id, price, quantity, at).state, planned)
  {
    assert SameOrderTerms(s.orders[0], planned[0]);
    assert IndexOfOrder(s.orders, s.orders[0].id) == Some(0);
    FillTouchesOne(s.orders, 0, price, quantity, at, planned);
    FillShapesOrder(s.orders[0], price, quantity, at);
  }

  lemma ProtectiveFillKeepsLockstep(s: State, i: nat, price: real, quantity: real, at: int, planned: seq<Order>)
    requires Lockstep(s, planned) && 0 < i < |s.orders| && IndexOfOrder(s.orders, s.orders[i].id) == Some(i)
    ensures Lockstep(ReduceFill(s, s.orders[i].id, price, quantity, at).state, planned)
  {
    assert SameOrderTerms(s.orders[i], planned[i]);
    FillTouchesOne(s.orders, i, price, quantity, at, planned);
    FillShapesOrder(s.orders[i], price, quantity, at);
  }

  lemma FillKeepsLockstep(s: State, id: OrderId, price: real, quantity: real, at: int, planned: seq<Order>)
    requires Lockstep(s, planned)
    ensures Lockstep(ReduceFill(s, id, price, quantity, at).state, planned)
  {
    var i := IndexOfOrder(s.orders, id);
    if i.Some? {
      if i.value == 0 {
        EntryFillKeepsLockstep(s, price, quantity, at, planned);
      } else {
        ProtectiveFillKeepsLockstep(s, i.value, price, quantity, at, planned);
      }
    }
  }

  lemma LockstepStep(s: State, c: Command, planned: seq<Order>)
    requires Lockstep(s, planned)
    ensures Lockstep(ReduceExecution(s, c).state, planned)
  {
    StepShape(s, c);
    if ReduceExecution(s, c).ok {
      match c
      case Fill(at, id, price, quantity) => FillKeepsLockstep(s, id, price, quantity, at, planned);
      case _ => MoveKeepsLockstep(s, c, planned);
    }
  }

  /** On every run of a planned execution the orders move in lockstep with it. */
  lemma {:induction false} RunsAreLockstep(intent: Intent, cs: seq<Command>)
    ensures Lockstep(Run(InitState(intent, Some(Plans.PlanFor(intent))), cs), Plans.PlanOrders(intent))
    decreases |cs|
  {
    var s0 := InitState(intent, Some(Plans.PlanFor(intent)));
    if cs != [] {
      RunsAreLockstep(intent, cs[..|cs| - 1]);
      LockstepStep(Run(s0, cs[..|cs| - 1]), cs[|cs| - 1], Plans.PlanOrders(intent));
    }
  }

  /** How far an order has come. */
  function Stage(s: OrderStatus): nat {
    match s
    case NotCreated => 0
    case Planned => 1
    case Ready => 2
    case Submitted => 3
    case Acknowledged => 4
    case PartiallyFilled => 5
    case Filled => 6
    case _ => 7
  }

  /**
   * An order moves one stage on, is filled at once or again in part, or ends early: FAILED at any time,
   * CANCELLED once it is planned, REJECTED before its first fill, EXPIRED in between.
   */
  lemma OrderEdgesIff(from: OrderStatus, to: OrderStatus)
    ensures CanTransitionOrder(from, to) <==>
      && !IsTerminalOrder(from)
      && (|| (Stage(to) == Stage(from) + 1 && Stage(to) <= 6)
          || (Stage(from) >= 4 && to.Filled?)
          || (from.PartiallyFilled? && to.PartiallyFilled?)
          || to.Failed?
          || (to.Cancelled? && Stage(from) >= 1)
          || (to.Rejected? && Stage(from) <= 4)
          || (to.Expired? && 1 <= Stage(from) <= 4))
  {
  }

  /**
   * After a stop no order is left working, although a partially filled order may become
   * neither REJECTED nor EXPIRED; a close by a fill or by REDUCE does leave orders resting.
   */
  lemma StoppedExecutionsHaveNoWorkingOrders(intent: Intent, cs: seq<Command>)
    ensures var s := Run(InitState(intent, Some(Plans.PlanFor(intent))), cs);
            s.status.Cancelled? || s.status.Rejected? || s.status.Expired? || s.status.Failed?
            ==> forall i :: 0 <= i < |s.orders| ==> IsTerminalOrder(s.orders[i].status)
    ensures !CanTransitionOrder(OrderStatus.PartiallyFilled, OrderStatus.Rejected)
    ensures !CanTransitionOrder(OrderStatus.PartiallyFilled, OrderStatus.Expired)
  {
    RunsAreLockstep(intent, cs);
  }
}
