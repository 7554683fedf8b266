/** The reducer without the adapter: the one command by which it loses closed quantity. */
module RawRuns {
  import opened Wrappers
  import opened Decimal
  import opened ExecutionTypes
  import opened Orders
  import opened Positions
  import opened Reducer
  import opened Lifecycles
  import opened AdapterRuns
  import Plans

  /** What every raw run keeps of the position: a part of it is closed, and its size is what the entry filled. */
  ghost predicate Sized(s: State) {
    var p := s.position;
    && s.orders != []
    && p.direction == s.intent.direction
    && 0 <= p.closedQuantity <= p.entryQuantity
    && (p.entryQuantity > 0 ==>
          && p.entryQuantity == s.orders[0].filled
          && (s.status.Open? || s.status.Reducing? || IsTerminal(s.status)))
  }

  /** OPEN from REDUCING with something closed. */
  predicate Reopens(s: State, c: Command) {
    c.Open? && s.status.Reducing? && s.position.closedQuantity > 0
  }

  lemma EntryFillShrinks(s: State, price: real, quantity: real, at: int)
    requires Sized(s) && s.orders[0].role == Role.Entry
    ensures var r := ReduceFill(s, s.orders[0].id, price, quantity, at);
            Sized(r.state) && Monotone(s.position, r.state.position)
  {
    assert IndexOfOrder(s.orders, s.orders[0].id) == Some(0);
  }

  lemma ProtectiveFillShrinks(s: State, i: nat, price: real, quantity: real, at: int)
    requires Sized(s) && 0 < i < |s.orders| && s.orders[i].role != Role.Entry && s.orders[0].id != s.orders[i].id
    requires IndexOfOrder(s.orders, s.orders[i].id) == Some(i)
    ensures var r := ReduceFill(s, s.orders[i].id, price, quantity, at);
            Sized(r.state) && Monotone(s.position, r.state.position)
  {
  }

  lemma FillShrinks(s: State, id: OrderId, price: real, quantity: real, at: int, planned: seq<Order>)
    requires Sized(s) && Lockstep(s, planned)
    ensures var r := ReduceFill(s, id, price, quantity, at); Sized(r.state) && Monotone(s.position, r.state.position)
  {
    var i := IndexOfOrder(s.orders, id);
    if i.Some? {
      if i.value == 0 {
        EntryFillShrinks(s, price, quantity, at);
      } else {
        ProtectiveFillShrinks(s, i.value, price, quantity, at);
      }
    }
  }

  lemma OpenShrinks(s: State, at: int)
    requires Sized(s) && s.orders[0].role == Role.Entry
    ensures Sized(ReduceExecution(s, Command.Open(at)).state)
    ensures Monotone(s.position, ReduceExecution(s, Command.Open(at)).state.position) <==> !Reopens(s, Command.Open(at))
  {
    assert IndexOfEntry(s.orders) == Some(0);
  }

  lemma ReduceShrinks(s: State, c: Command)
    requires Sized(s) && (c.Reduce? || c.Close? || c.Cancel? || c.Kill?)
    ensures Sized(ReduceExecution(s, c).state) && Monotone(s.position, ReduceExecution(s, c).state.position)
  {
  }

  lemma OtherShrinks(s: State, c: Command)
    requires Sized(s) && !c.Fill? && !c.Open? && !c.Reduce? && !c.Close? && !c.Cancel? && !c.Kill?
    ensures Sized(ReduceExecution(s, c).state) && Monotone(s.position, ReduceExecution(s, c).state.position)
  {
  }

  /**
   * A command takes back closed quantity, resizes a position or flips its side exactly when it opens again
   * from REDUCING. The adapter opens from FILLED only, which is why its runs conserve.
   */
  lemma MonotoneIff(s: State, c: Command, planned: seq<Order>)
    requires Sized(s) && Lockstep(s, planned)
    ensures Sized(ReduceExecution(s, c).state)
    ensures Monotone(s.position, ReduceExecution(s, c).state.position) <==> !Reopens(s, c)
  {
    match c
    case Fill(at, id, price, quantity) =>
      if !IsTerminal(s.status) { FillShrinks(s, id, price, quantity, at, planned); }
    case Open(at) => OpenShrinks(s, at);
    case Reduce(_, _) | Close(_) | Cancel(_, _) | Kill(_) => ReduceShrinks(s, c);
    case _ => OtherShrinks(s, c);
  }

  function Planned(intent: Intent): State { InitState(intent, Some(Plans.PlanFor(intent))) }

  lemma {:induction false} RawRunsAreSized(intent: Intent, cs: seq<Command>)
    ensures Sized(Run(Planned(intent), cs)) && Lockstep(Run(Planned(intent), cs), Plans.PlanOrders(intent))
    decreases |cs|
  {
    RunsAreLockstep(intent, cs);
    if cs != [] {
      RawRunsAreSized(intent, cs[..|cs| - 1]);
      MonotoneIff(Run(Planned(intent), cs[..|cs| - 1]), cs[|cs| - 1], Plans.PlanOrders(intent));
    }
  }

  ghost predicate ReopensAt(intent: Intent, cs: seq<Command>, k: nat) {
    k < |cs| && Reopens(Run(Planned(intent), cs[..k]), cs[k])
  }

  ghost predicate MonotoneAt(intent: Intent, cs: seq<Command>, k: nat) {
    k < |cs| ==> Monotone(Run(Planned(intent), cs[..k]).position, Run(Planned(intent), cs[..k + 1]).position)
  }

  /** On every run of the reducer exposure only shrinks at a step exactly if that step does not open again. */
  lemma RawStepIff(intent: Intent, cs: seq<Command>, k: nat)
    ensures MonotoneAt(intent, cs, k) <==> !ReopensAt(intent, cs, k)
  {
    if k < |cs| {
      RawRunsAreSized(intent, cs[..k]);
      assert cs[..k + 1][..k] == cs[..k];
      MonotoneIff(Run(Planned(intent), cs[..k]), cs[k], Plans.PlanOrders(intent));
    }
  }

  /** So between two points of a run without such a step the closed quantity does not shrink. */
  lemma {:induction false} RawExposureShrinks(intent: Intent, cs: seq<Command>, j: nat, k: nat)
    requires j <= k <= |cs| && forall i: nat :: j <= i < k ==> !ReopensAt(intent, cs, i)
    ensures Monotone(Run(Planned(intent), cs[..j]).position, Run(Planned(intent), cs[..k]).position)
    decreases k
  {
    if j < k {
      RawExposureShrinks(intent, cs, j, k - 1);
      RawStepIff(intent, cs, k - 1);
      MonotoneTrans(Run(Planned(intent), cs[..j]).position, Run(Planned(intent), cs[..k - 1]).position,
                    Run(Planned(intent), cs[..k]).position);
    }
  }

  lemma MonotoneTrans(p: Position, q: Position, r: Position)
    requires Monotone(p, q) && Monotone(q, r)
    ensures Monotone(p, r)
  {
  }

  /** An intent of two units that passes the submit gate. */
  function TwoUnits(): Intent {
    Intent("s", Direction.Long, Some(1.0), Some(1.0), [1.0], Some(2), Action.Buy, true, true, Some(1.0),
           Mode.Paper, Venue.Simulated, 0)
  }

  function Prelude(): seq<Command> { GoingOut() + [Command.Fill(0, OrderId("s", Role.Entry, 0), 1.0, 2.0)] }

  lemma EntryFillCompletes(s: State)
    requires Lockstep(s, Plans.PlanOrders(TwoUnits())) && Sized(s) && s.status.Acknowledged? && s.orders[0].filled == 0
    ensures var r := ReduceExecution(s, Command.Fill(0, OrderId("s", Role.Entry, 0), 1.0, 2.0));
            r.state.status.Filled? && r.state.orders[0].filled == 2
  {
    assert SameOrderTerms(s.orders[0], Plans.PlanOrders(TwoUnits())[0]);
    assert IndexOfOrder(s.orders, s.orders[0].id) == Some(0);
    RoundOfInteger(2);
  }

  /** Opening two units, closing one and opening again. */
  lemma OpenReduceReopen(s: State)
    requires Sized(s) && s.status.Filled? && s.orders[0].role == Role.Entry && s.orders[0].filled == 2
    requires s.position.entryQuantity == 0
    ensures var s1 := ReduceExecution(s, Command.Open(0)).state;
            Reopens(ReduceExecution(s1, Command.Reduce(0, 1.0)).state, Command.Open(0))
  {
    assert IndexOfEntry(s.orders) == Some(0);
    var s1 := ReduceExecution(s, Command.Open(0)).state;
    assert s1.status.Open? && s1.position.entryQuantity == 2;
    RoundOfInteger(1);
  }

  /** A run of the reducer in which it happens. */
  lemma SomeRunReopens()
    ensures ReopensAt(TwoUnits(), Prelude() + [Command.Open(0), Command.Reduce(0, 1.0), Command.Open(0)], 7)
  {
    var s0 := Planned(TwoUnits());
    GoesOut(TwoUnits());
    RawRunsAreSized(TwoUnits(), GoingOut());
    NothingFilledYet(TwoUnits(), GoingOut());
    EntryFillCompletes(Run(s0, GoingOut()));
    RunAppend(s0, GoingOut(), Command.Fill(0, OrderId("s", Role.Entry, 0), 1.0, 2.0));
    RawRunsAreSized(TwoUnits(), Prelude());
    var s := Run(s0, Prelude());
    OpenReduceReopen(s);
    RunAppend(s0, Prelude(), Command.Open(0));
    RunAppend(s0, Prelude() + [Command.Open(0)], Command.Reduce(0, 1.0));
    var cs := Prelude() + [Command.Open(0), Command.Reduce(0, 1.0), Command.Open(0)];
    assert cs[..7] == Prelude() + [Command.Open(0)] + [Command.Reduce(0, 1.0)];
  }

  lemma {:induction false} NothingFilledYet(intent: Intent, cs: seq<Command>)
    requires forall i :: 0 <= i < |cs| ==> !cs[i].Fill?
    ensures Run(Planned(intent), cs).orders != [] && Run(Planned(intent), cs).orders[0].filled == 0
    decreases |cs|
  {
    if cs != [] {
      NothingFilledYet(intent, cs[..|cs| - 1]);
      FilledByFillsOnly(Run(Planned(intent), cs[..|cs| - 1]), cs[|cs| - 1]);
    }
  }

  lemma FilledByFillsOnly(s: State, c: Command)
    requires s.orders != [] && !c.Fill?
    ensures var os := ReduceExecution(s, c).state.orders; os != [] && os[0].filled == s.orders[0].filled
  {
  }
}
