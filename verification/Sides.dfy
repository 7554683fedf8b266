/** On which side of the market an execution is: its orders, its fill records and its signed position. */
module Sides {
  import opened Wrappers
  import opened Decimal
  import opened ExecutionTypes
  import opened Orders
  import opened Positions
  import opened Reducer
  import opened Lifecycles
  import opened Conservation
  import opened Adapter
  import opened AdapterRuns
  import Plans

  // ------------------------------------------------------------------ orders

  /** The entry buys for LONG and sells otherwise, protective orders trade the other side, levels are as served. */
  ghost predicate ServedTerms(os: seq<Order>, intent: Intent) {
    && |os| == 2 + |intent.targets|
    && (os[0].side.Buy? <==> intent.direction.Long?)
    && os[0].role.Entry? && os[0].kind.Limit? && os[0].price == intent.entry
    && os[1].role.Stop? && os[1].kind.StopTrigger? && os[1].price == intent.stop
    && (forall i :: 1 <= i < |os| ==> os[i].side != os[0].side)
    && forall i :: 2 <= i < |os| ==> TargetTerms(os[i], intent, i - 2)
  }

  predicate TargetTerms(o: Order, intent: Intent, i: nat)
    requires i < |intent.targets|
  {
    o.role.Target? && o.kind.Limit? && o.price == Some(intent.targets[i])
  }

  lemma TermsStay(os: seq<Order>, planned: seq<Order>, intent: Intent)
    requires ServedTerms(planned, intent) && KeepsTerms(os, planned)
    ensures ServedTerms(os, intent)
  {
    assert SameOrderTerms(os[0], planned[0]) && SameOrderTerms(os[1], planned[1]);
    forall i | 1 <= i < |os| ensures os[i].side != os[0].side {
      assert SameOrderTerms(os[i], planned[i]);
    }
    forall i | 2 <= i < |os| ensures TargetTerms(os[i], intent, i - 2) {
      assert TargetTerms(planned[i], intent, i - 2) && SameOrderTerms(os[i], planned[i]);
    }
  }

  lemma PlannedTerms(intent: Intent)
    ensures ServedTerms(Plans.PlanOrders(intent), intent)
  {
  }

  /** On every reducer run every order has the side and the level its role calls for. */
  lemma RunsKeepTerms(intent: Intent, cs: seq<Command>)
    ensures ServedTerms(Run(InitState(intent, Some(Plans.PlanFor(intent))), cs).orders, intent)
  {
    RunsAreLockstep(intent, cs);
    PlannedTerms(intent);
    TermsStay(Run(InitState(intent, Some(Plans.PlanFor(intent))), cs).orders, Plans.PlanOrders(intent), intent);
  }

  // ------------------------------------------------------------------ positions

  /** The position carries what the intent served, and its quantity is what is left, signed by the direction. */
  predicate ServedPosition(p: Position, intent: Intent) {
    && p.direction == intent.direction && p.stop == intent.stop && p.targets == intent.targets
    && 0 <= p.closedQuantity <= p.entryQuantity && Signed(p)
    && !p.status.Opening? && (p.status.NoPosition? ==> p.openedAt.None?)
    && (p.openedAt.None? ==> p.status.NoPosition? || p.status.Closed?)
    && (p.status.Open? ==> p.closedQuantity == 0 < p.entryQuantity)
    && (p.status.Reducing? ==> p.closedQuantity < p.entryQuantity)
    && (p.status.Closed? ==> p.closedQuantity == p.entryQuantity)
    && (p.openedAt.None? ==> p.entryQuantity == 0)
    && (p.closedAt.Some? <==> p.status.Closed?)
  }

  /** A position opens with what its entry filled; with nothing it would stay opening. */
  lemma OpensAsFilled(intent: Intent, filled: int, avg: Option<int>, at: int)
    ensures var p := OpenPosition(intent, filled, avg, at);
      && p.entryQuantity == (if filled > 0 then filled else 0) && p.closedQuantity == 0 && Signed(p)
      && (p.status.Open? <==> filled > 0) && (p.status.Opening? <==> filled <= 0)
      && p.avgEntryPrice == avg && p.openedAt == Some(at) && p.closedAt == None
      && p.direction == intent.direction && p.stop == intent.stop && p.targets == intent.targets
  {
  }

  lemma ReduceIsServed(p: Position, quantity: real, at: int, intent: Intent)
    requires ServedPosition(p, intent) && IsLive(p)
    ensures ServedPosition(ReducePosition(p, quantity, at), intent)
  {
  }

  lemma FillIsServed(s: State, id: OrderId, price: real, quantity: real, at: int)
    requires ServedPosition(s.position, s.intent)
    ensures ServedPosition(ReduceFill(s, id, price, quantity, at).state.position, s.intent)
  {
    if IsLive(s.position) { ReduceIsServed(s.position, quantity, at, s.intent); }
  }

  lemma MoveIsServed(s: State, c: Command)
    requires ServedPosition(s.position, s.intent) && !c.Fill?
    ensures ServedPosition(ReduceExecution(s, c).state.position, s.intent)
  {
    if c.Reduce? && IsLive(s.position) { ReduceIsServed(s.position, c.quantity, c.at, s.intent); }
  }

  /** On every reducer run, whatever its commands. */
  lemma {:induction false} RunsAreServed(intent: Intent, cs: seq<Command>)
    ensures var s := Run(InitState(intent, Some(Plans.PlanFor(intent))), cs);
            s.intent == intent && ServedPosition(s.position, intent)
    decreases |cs|
  {
    if cs != [] {
      var s, c := Run(InitState(intent, Some(Plans.PlanFor(intent))), cs[..|cs| - 1]), cs[|cs| - 1];
      RunsAreServed(intent, cs[..|cs| - 1]);
      StepShape(s, c);
      match c
      case Fill(at, id, price, quantity) => FillIsServed(s, id, price, quantity, at);
      case _ => MoveIsServed(s, c);
    }
  }

  // ------------------------------------------------------------------ the position is what was traded

  /** The quantity recorded on one side. */
  function Traded(fills: seq<FillRecord>, side: Side): int {
    if fills == [] then 0
    else Traded(fills[..|fills| - 1], side) + if fills[|fills| - 1].side == side then fills[|fills| - 1].quantity else 0
  }

  /** Entry records are on the entry's side, all others on the other side. */
  ghost predicate SidedRecords(fills: seq<FillRecord>, entry: Side) {
    forall k :: 0 <= k < |fills| ==> (fills[k].side == entry <==> fills[k].order.role.Entry?)
  }

  function OtherSide(side: Side): Side { if side.Buy? then Side.Sell else Side.Buy }

  lemma {:induction false} TradedByRole(fills: seq<FillRecord>, entry: OrderId, side: Side)
    requires SidedRecords(fills, side) && entry.role.Entry?
    requires forall k :: 0 <= k < |fills| && fills[k].order.role.Entry? ==> fills[k].order == entry
    ensures Traded(fills, side) == FilledFor(fills, entry)
    ensures Traded(fills, OtherSide(side)) == ProtectiveFilled(fills)
  {
    if fills != [] { TradedByRole(fills[..|fills| - 1], entry, side); }
  }

  /** A fill adds at most one record, on the side of its order. */
  lemma FillRecordsSide(s: State, id: OrderId, price: real, quantity: real, at: int, intent: Intent)
    requires EntryFirst(s.orders) && ServedTerms(s.orders, intent) && SidedRecords(s.fills, s.orders[0].side)
    ensures SidedRecords(ReduceFill(s, id, price, quantity, at).state.fills, s.orders[0].side)
  {
    var r := ReduceFill(s, id, price, quantity, at);
    var i := IndexOfOrder(s.orders, id);
    if r.ok {
      var f := FillPatch(s, i.value, price, quantity, at).fills[|s.fills|];
      assert r.state.fills == s.fills + [f];
      assert f.side == s.orders[i.value].side && f.order == s.orders[i.value].id;
    }
  }

  lemma {:induction false} RunsAreSided(intent: Intent, cs: seq<Command>)
    ensures var s := Run(InitState(intent, Some(Plans.PlanFor(intent))), cs);
            ServedTerms(s.orders, intent) && SidedRecords(s.fills, s.orders[0].side)
    decreases |cs|
  {
    RunsKeepTerms(intent, cs);
    if cs != [] {
      var front, c := cs[..|cs| - 1], cs[|cs| - 1];
      var s := Run(InitState(intent, Some(Plans.PlanFor(intent))), front);
      RunsAreSided(intent, front);
      RunsAreLockstep(intent, front);
      KeptOrders(s, Plans.PlanOrders(intent));
      StepShape(s, c);
      match c
      case Fill(at, id, price, quantity) => FillRecordsSide(s, id, price, quantity, at, intent);
      case _ => MoveKeepsHoldings(s, c);
    }
  }

  // ------------------------------------------------------------------ adapter runs are reducer runs

  lemma CreatedIsRun(intent: Intent, killEngaged: bool, runtimeHealthy: bool, now: int) returns (cs: seq<Command>)
    ensures Created(intent, killEngaged, runtimeHealthy, now) == Run(InitState(intent, Some(Plans.PlanFor(intent))), cs)
  {
    var s := InitState(intent, Some(Plans.PlanFor(intent)));
    var stop := if killEngaged then Command.Kill(now) else Command.RuntimeUnhealthy(now);
    cs := if killEngaged || !runtimeHealthy then [Command.Plan(now), stop] else [Command.Plan(now)];
    RunShort(s, Command.Plan(now), stop);
  }

  /** The core of an adapter session is always that of a reducer run. */
  lemma {:induction false} CoreIsRun(intent: Intent, killEngaged: bool, runtimeHealthy: bool, now: int,
      cs: seq<AdapterCommand>) returns (commands: seq<Command>)
    ensures Replay(NewSession(intent, killEngaged, runtimeHealthy, now), cs).core
            == Some(Run(InitState(intent, Some(Plans.PlanFor(intent))), commands))
    decreases |cs|
  {
    if cs == [] {
      commands := CreatedIsRun(intent, killEngaged, runtimeHealthy, now);
    } else {
      var s := Replay(NewSession(intent, killEngaged, runtimeHealthy, now), cs[..|cs| - 1]);
      var front := CoreIsRun(intent, killEngaged, runtimeHealthy, now, cs[..|cs| - 1]);
      var c := cs[|cs| - 1];
      CoreFollows(s, c);
      RunConcat(InitState(intent, Some(Plans.PlanFor(intent))), front, CoreCommands(s, c));
      commands := front + CoreCommands(s, c);
    }
  }

  /** The net of the records: what was bought, up to the size on the entry's side, less what was sold. */
  predicate IsNet(p: Position, size: int, bought: int, sold: int) {
    match p.direction
    case Long => p.quantity == Min(size, bought) - sold && p.quantity > 0
    case Short => p.quantity == bought - Min(size, sold) && p.quantity < 0
    case Flat => p.quantity == 0
  }

  lemma NetOfBalanced(s: State, intent: Intent)
    requires PositionBalanced(s) && OrdersBalanced(s) && EntryFirst(s.orders) && (s.status.Open? || s.status.Reducing?)
    requires ServedTerms(s.orders, intent) && SidedRecords(s.fills, s.orders[0].side)
    requires s.intent == intent && s.orders[0].quantity == intent.positionSize
    ensures intent.positionSize.Some?
    ensures IsNet(s.position, intent.positionSize.value, Traded(s.fills, Side.Buy), Traded(s.fills, Side.Sell))
    ensures s.position.quantity > 0 <==> s.orders[0].side.Buy?
  {
    var entry := s.orders[0];
    TradedByRole(s.fills, entry.id, entry.side);
    assert OrderBalanced(entry, FilledFor(s.fills, entry.id), CountFills(s.fills, entry.id));
  }

  /**
   * On every adapter run a live position is what was bought less what was sold, above zero for LONG and below for
   * SHORT: above zero exactly when its entry order buys.
   */
  lemma PositionIsNet(intent: Intent, killEngaged: bool, runtimeHealthy: bool, now: int, cs: seq<AdapterCommand>)
    requires var status := FinalCore(intent, killEngaged, runtimeHealthy, now, cs).status;
             status.Open? || status.Reducing?
    ensures var s := FinalCore(intent, killEngaged, runtimeHealthy, now, cs);
            && s.position.direction == intent.direction && intent.positionSize.Some? && s.orders != []
            && IsNet(s.position, intent.positionSize.value, Traded(s.fills, Side.Buy), Traded(s.fills, Side.Sell))
            && (s.position.quantity > 0 <==> s.orders[0].side.Buy?)
  {
    var s := FinalCore(intent, killEngaged, runtimeHealthy, now, cs);
    FinalCoreKept(intent, killEngaged, runtimeHealthy, now, cs);
    var commands := CoreIsRun(intent, killEngaged, runtimeHealthy, now, cs);
    RunsAreServed(intent, commands);
    RunsAreSided(intent, commands);
    KeptOrders(s, Plans.PlanOrders(intent));
    assert SameOrderTerms(s.orders[0], Plans.PlanOrders(intent)[0]);
    NetOfBalanced(s, intent);
  }
}
