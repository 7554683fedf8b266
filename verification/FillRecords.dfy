/** What the fill records say: whose they are, which one, and whether the order has its size. */
module FillRecords {
  import opened Wrappers
  import opened Decimal
  import opened ExecutionTypes
  import opened Orders
  import opened Reducer
  import opened Lifecycles
  import opened Conservation
  import opened AdapterRuns
  import Plans

  // ------------------------------------------------------------------ one record

  /** A record of a fill of this order, the next one of it; it is full exactly when the order then has its size. */
  predicate IsFillOf(f: FillRecord, before: seq<FillRecord>, o: Order) {
    && f.order == o.id && f.side == o.side && f.id == FillId(o.id, CountFills(before, o.id))
    && (f.status.Full? <==> o.quantity.Some? && f.cumulative >= o.quantity.value)
    && (f.status.Partial? <==> o.quantity.None? || f.cumulative < o.quantity.value)
  }

  /** An accepted fill leaves one record, of what it was called with and of what its order then holds. */
  lemma FillIsRecorded(s: State, c: Command) returns (i: nat)
    requires c.Fill? && ReduceExecution(s, c).ok
    ensures i < |s.orders| && s.orders[i].id == c.orderId
    ensures var t := ReduceExecution(s, c).state;
      && |t.orders| == |s.orders| && |t.fills| == |s.fills| + 1 && t.fills[..|s.fills|] == s.fills
      && var f := t.fills[|s.fills|];
        && IsFillOf(f, s.fills, s.orders[i])
        && f.price == Round(c.price) && f.quantity == Round(c.quantity) >= 0 && f.ts == c.at
        && f.cumulative == t.orders[i].filled
  {
    i := IndexOfOrder(s.orders, c.orderId).value;
    var patch := FillPatch(s, i, c.price, c.quantity, c.at);
    var f := patch.fills[|s.fills|];
    RoundMonotone(0.0, c.quantity);
    RoundOfInteger(0);
    assert ReduceExecution(s, c).state.fills == s.fills + [f];
    assert ReduceExecution(s, c).state.orders == patch.orders;
  }

  /**
   * The record of a fill compares what the order holds, the status of the order the unrounded sum: a full record
   * leaves its order PARTIALLY_FILLED exactly when at most half a unit is missing. The converse never happens.
   */
  lemma FullYetUnfilledIff(o: Order, n: nat, price: real, quantity: real, at: int)
    requires o.status.Acknowledged? || o.status.PartiallyFilled?
    requires o.filled >= 0 && quantity > 0.0
    ensures var t := ApplyFillToOrder(o, price, quantity, at);
      var f := MakeFill(o, n, price, quantity, t.filled, at);
      && (t.status.Filled? ==> f.status.Full?)
      && (f.status.Full? && !t.status.Filled? <==>
            && o.quantity.Some?
            && o.quantity.value as real - 0.5 <= o.filled as real + quantity < o.quantity.value as real)
  {
    var sum := o.filled as real + quantity;
    if o.quantity.Some? {
      var q := o.quantity.value;
      if sum < q as real {
        assert Round(sum) >= q <==> sum >= q as real - 0.5;
      } else {
        RoundOfInteger(q);
      }
    }
  }

  // ------------------------------------------------------------------ all records of a run

  ghost predicate IsOfSome(f: FillRecord, before: seq<FillRecord>, os: seq<Order>) {
    exists i :: 0 <= i < |os| && IsFillOf(f, before, os[i])
  }

  ghost predicate AllOfSome(fills: seq<FillRecord>, os: seq<Order>) {
    forall k :: 0 <= k < |fills| ==> IsOfSome(fills[k], fills[..k], os)
  }

  lemma OneMoreOfSome(fills: seq<FillRecord>, f: FillRecord, os: seq<Order>)
    requires AllOfSome(fills, os) && IsOfSome(f, fills, os)
    ensures AllOfSome(fills + [f], os)
  {
    var more := fills + [f];
    assert more[..|fills|] == fills;
    forall k | 0 <= k < |fills| ensures IsOfSome(more[k], more[..k], os) {
      assert more[..k] == fills[..k];
    }
  }

  lemma FillKeepsRecords(s: State, c: Command, planned: seq<Order>)
    requires c.Fill? && Lockstep(s, planned) && AllOfSome(s.fills, planned)
    ensures AllOfSome(ReduceExecution(s, c).state.fills, planned)
  {
    var t := ReduceExecution(s, c).state;
    StepShape(s, c);
    if ReduceExecution(s, c).ok {
      var i := FillIsRecorded(s, c);
      var f := t.fills[|s.fills|];
      assert SameOrderTerms(s.orders[i], planned[i]);
      assert IsFillOf(f, s.fills, planned[i]);
      OneMoreOfSome(s.fills, f, planned);
      assert t.fills == s.fills + [f];
    }
  }

  /** On every reducer run every record is one of a planned order, on its side and with the next number of it. */
  lemma {:induction false} RunsRecord(intent: Intent, cs: seq<Command>)
    ensures AllOfSome(Run(InitState(intent, Some(Plans.PlanFor(intent))), cs).fills, Plans.PlanOrders(intent))
    decreases |cs|
  {
    if cs != [] {
      var front, c := cs[..|cs| - 1], cs[|cs| - 1];
      var s := Run(InitState(intent, Some(Plans.PlanFor(intent))), front);
      RunsRecord(intent, front);
      RunsAreLockstep(intent, front);
      if c.Fill? { FillKeepsRecords(s, c, Plans.PlanOrders(intent)); } else { MoveKeepsHoldings(s, c); }
    }
  }

  lemma {:induction false} LaterCountsMore(fills: seq<FillRecord>, j: nat, k: nat)
    requires j < k <= |fills|
    ensures CountFills(fills[..j], fills[j].order) < CountFills(fills[..k], fills[j].order)
  {
    assert fills[..k][..k - 1] == fills[..k - 1];
    if j < k - 1 { LaterCountsMore(fills, j, k - 1); }
  }

  /** So no two records of a run have the same id, and none is void. */
  lemma RecordsDiffer(intent: Intent, cs: seq<Command>, j: nat, k: nat)
    requires j < k < |Run(InitState(intent, Some(Plans.PlanFor(intent))), cs).fills|
    ensures var fills := Run(InitState(intent, Some(Plans.PlanFor(intent))), cs).fills;
      fills[j].id != fills[k].id && !fills[j].status.Void? && !fills[k].status.Void?
  {
    var fills := Run(InitState(intent, Some(Plans.PlanFor(intent))), cs).fills;
    RunsRecord(intent, cs);
    assert IsOfSome(fills[j], fills[..j], Plans.PlanOrders(intent));
    assert IsOfSome(fills[k], fills[..k], Plans.PlanOrders(intent));
    LaterCountsMore(fills, j, k);
  }

  // ------------------------------------------------------------------ full records

  ghost predicate HasFull(fills: seq<FillRecord>, id: OrderId) {
    exists k :: 0 <= k < |fills| && fills[k].order == id && fills[k].status.Full?
  }

  /** The order has been filled at all, and has its size. */
  predicate HasSize(o: Order, fills: seq<FillRecord>) {
    CountFills(fills, o.id) > 0 && o.quantity.Some? && o.filled >= o.quantity.value
  }

  ghost predicate FullMatches(os: seq<Order>, fills: seq<FillRecord>) {
    forall i :: 0 <= i < |os| ==> (HasFull(fills, os[i].id) <==> HasSize(os[i], fills))
  }

  lemma HasFullAppend(fills: seq<FillRecord>, f: FillRecord, id: OrderId)
    ensures HasFull(fills + [f], id) <==> HasFull(fills, id) || (f.order == id && f.status.Full?)
  {
    var more := fills + [f];
    assert more[|fills|] == f;
    if HasFull(fills, id) {
      var k :| 0 <= k < |fills| && fills[k].order == id && fills[k].status.Full?;
      assert more[k] == fills[k];
    }
  }

  lemma CountAppend(fills: seq<FillRecord>, f: FillRecord, id: OrderId)
    ensures CountFills(fills + [f], id) == CountFills(fills, id) + if f.order == id then 1 else 0
  {
    assert (fills + [f])[..|fills|] == fills;
  }

  /** Once an order has its size, a fill leaves it there. */
  lemma SizeStays(o: Order, price: real, quantity: real, at: int)
    requires o.quantity.Some? && o.filled >= o.quantity.value
    ensures ApplyFillToOrder(o, price, quantity, at).filled == o.quantity.value
  {
    assert FilledAfter(o, quantity) == o.quantity.value as real;
    RoundOfInteger(o.quantity.value);
  }

  /** What a fill does to the orders: one of them is filled, the others stay. */
  lemma FillChangesOne(s: State, c: Command, planned: seq<Order>, i: nat)
    requires c.Fill? && ReduceExecution(s, c).ok && Lockstep(s, planned)
    requires i < |s.orders| && s.orders[i].id == c.orderId
    ensures var t := ReduceExecution(s, c).state;
      && |t.orders| == |s.orders|
      && t.orders[i] == ApplyFillToOrder(s.orders[i], c.price, c.quantity, c.at)
      && forall j :: 0 <= j < |s.orders| && j != i ==> t.orders[j] == s.orders[j] && s.orders[j].id != c.orderId
  {
    KeptOrders(s, planned);
    var k := IndexOfOrder(s.orders, c.orderId).value;
    assert s.orders[k].id.index == k && s.orders[i].id.index == i;
    assert ReduceExecution(s, c).state.orders == FillPatch(s, i, c.price, c.quantity, c.at).orders;
  }

  lemma FillKeepsFull(s: State, c: Command, planned: seq<Order>)
    requires c.Fill? && Lockstep(s, planned) && FullMatches(s.orders, s.fills)
    ensures var t := ReduceExecution(s, c).state; FullMatches(t.orders, t.fills)
  {
    var t := ReduceExecution(s, c).state;
    StepShape(s, c);
    if ReduceExecution(s, c).ok {
      var i := FillIsRecorded(s, c);
      var f := t.fills[|s.fills|];
      assert t.fills == s.fills + [f];
      FillChangesOne(s, c, planned, i);
      forall j | 0 <= j < |t.orders| ensures HasFull(t.fills, t.orders[j].id) <==> HasSize(t.orders[j], t.fills) {
        HasFullAppend(s.fills, f, t.orders[j].id);
        CountAppend(s.fills, f, t.orders[j].id);
        if j == i && HasSize(s.orders[i], s.fills) { SizeStays(s.orders[i], c.price, c.quantity, c.at); }
      }
    }
  }

  lemma MoveKeepsSizes(s: State, c: Command)
    requires !c.Fill? && FullMatches(s.orders, s.fills)
    ensures var t := ReduceExecution(s, c).state; FullMatches(t.orders, t.fills)
  {
    MoveKeepsHoldings(s, c);
  }

  /** On every reducer run an order has a full record exactly when it was filled and has its size. */
  lemma {:induction false} FullIff(intent: Intent, cs: seq<Command>)
    ensures var s := Run(InitState(intent, Some(Plans.PlanFor(intent))), cs); FullMatches(s.orders, s.fills)
    decreases |cs|
  {
    if cs != [] {
      var front, c := cs[..|cs| - 1], cs[|cs| - 1];
      var s := Run(InitState(intent, Some(Plans.PlanFor(intent))), front);
      FullIff(intent, front);
      RunsAreLockstep(intent, front);
      if c.Fill? { FillKeepsFull(s, c, Plans.PlanOrders(intent)); } else { MoveKeepsSizes(s, c); }
    }
  }
}
