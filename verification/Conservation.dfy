/** Quantity bookkeeping on runs: orders against their fill records, the position against protective fills. */
module Conservation {
  import opened Wrappers
  import opened Decimal
  import opened ExecutionTypes
  import opened Orders
  import opened Positions
  import opened Reducer
  import opened Lifecycles
  import Plans

  // ------------------------------------------------------------------ sums over fill records

  /** The quantity recorded against one order. */
  function FilledFor(fills: seq<FillRecord>, id: OrderId): int {
    if fills == [] then 0
    else FilledFor(fills[..|fills| - 1], id) + if fills[|fills| - 1].order == id then fills[|fills| - 1].quantity else 0
  }

  /** The quantity recorded against all protective orders. */
  function ProtectiveFilled(fills: seq<FillRecord>): int {
    if fills == [] then 0
    else
      var last := fills[|fills| - 1];
      ProtectiveFilled(fills[..|fills| - 1]) + if last.order.role != Role.Entry then last.quantity else 0
  }

  lemma SumsAppend(fills: seq<FillRecord>, f: FillRecord, id: OrderId)
    ensures FilledFor(fills + [f], id) == FilledFor(fills, id) + if f.order == id then f.quantity else 0
    ensures CountFills(fills + [f], id) == CountFills(fills, id) + if f.order == id then 1 else 0
    ensures ProtectiveFilled(fills + [f])
            == ProtectiveFilled(fills) + if f.order.role != Role.Entry then f.quantity else 0
  {
    assert (fills + [f])[..|fills|] == fills;
  }

  // ------------------------------------------------------------------ orders

  /**
   * The order holds exactly what its n records admit: all of it, clamped to a sized order. A negative size,
   * which a split over many targets can plan, is what the first fill clamps the order to.
   */
  predicate OrderBalanced(o: Order, recorded: int, n: nat) {
    && recorded >= 0 && (n == 0 ==> recorded == 0)
    && match o.quantity
       case None => o.filled == recorded
       case Some(q) => o.filled == if n == 0 then 0 else Min(q, recorded)
  }

  ghost predicate HoldRecords(os: seq<Order>, fills: seq<FillRecord>) {
    forall i :: 0 <= i < |os| ==> OrderBalanced(os[i], FilledFor(fills, os[i].id), CountFills(fills, os[i].id))
  }

  /** Every record belongs to an order. */
  ghost predicate KnownRecords(os: seq<Order>, fills: seq<FillRecord>) {
    forall k :: 0 <= k < |fills| ==> fills[k].order.index < |os| && os[fills[k].order.index].id == fills[k].order
  }

  ghost predicate OrdersBalanced(s: State) {
    HoldRecords(s.orders, s.fills) && KnownRecords(s.orders, s.fills)
  }

  lemma ClampedRound(q: int, f: int, x: real)
    requires q >= 0 && f >= 0 && x >= 0.0
    ensures Round(MinReal(q as real, f as real + x)) == Min(q, f + Round(x))
  {
    RoundShift(f, x);
    RoundOfInteger(q);
    if f as real + x <= q as real {
      RoundMonotone(f as real + x, q as real);
    } else {
      RoundMonotone(q as real, f as real + x);
    }
  }

  /** An order of negative size is clamped to its size by every fill. */
  lemma ClampedBelow(q: int, f: int, x: real)
    requires q < 0 && q <= f && x > 0.0
    ensures Round(MinReal(q as real, f as real + x)) == q
  {
    RoundOfInteger(q);
  }

  /** A fill, over-fills included, moves an order exactly as it moves the order's records. */
  lemma FillBalances(o: Order, recorded: int, n: nat, price: real, quantity: real, at: int)
    requires OrderBalanced(o, recorded, n) && quantity > 0.0
    ensures Round(quantity) >= 0
    ensures OrderBalanced(ApplyFillToOrder(o, price, quantity, at), recorded + Round(quantity), n + 1)
  {
    RoundMonotone(0.0, quantity);
    match o.quantity
    case None => RoundShift(o.filled, quantity);
    case Some(q) =>
      if q >= 0 {
        ClampedRound(q, o.filled, quantity);
      } else {
        ClampedBelow(q, o.filled, quantity);
      }
  }

  lemma PatchKeepsBalance(s: State, i: nat, price: real, quantity: real, at: int)
    requires EntryFirst(s.orders) && i < |s.orders| && OrdersBalanced(s) && quantity > 0.0
    ensures var patch := FillPatch(s, i, price, quantity, at);
            HoldRecords(patch.orders, patch.fills) && KnownRecords(patch.orders, patch.fills)
  {
    var o := s.orders[i];
    var patch := FillPatch(s, i, price, quantity, at);
    var f := patch.fills[|s.fills|];
    assert patch.fills == s.fills + [f];
    FillBalances(o, FilledFor(s.fills, o.id), CountFills(s.fills, o.id), price, quantity, at);
    FillShapesOrder(o, price, quantity, at);
    forall j | 0 <= j < |s.orders|
      ensures patch.orders[j].id == s.orders[j].id
      ensures var id := patch.orders[j].id;
              OrderBalanced(patch.orders[j], FilledFor(patch.fills, id), CountFills(patch.fills, id))
    {
      SumsAppend(s.fills, f, s.orders[j].id);
      assert j != i ==> s.orders[j].id.index != o.id.index;
    }
  }

  lemma FillKeepsBalance(s: State, id: OrderId, price: real, quantity: real, at: int)
    requires EntryFirst(s.orders) && OrdersBalanced(s)
    ensures OrdersBalanced(ReduceFill(s, id, price, quantity, at).state)
  {
    var i := IndexOfOrder(s.orders, id);
    if i.Some? && quantity > 0.0 {
      PatchKeepsBalance(s, i.value, price, quantity, at);
    }
  }

  /** Only fills change what orders hold. */
  lemma MoveKeepsHoldings(s: State, c: Command)
    requires !c.Fill?
    ensures var t := ReduceExecution(s, c).state;
      && t.fills == s.fills && |t.orders| == |s.orders|
      && forall i :: 0 <= i < |s.orders| ==>
           && t.orders[i].filled == s.orders[i].filled && t.orders[i].quantity == s.orders[i].quantity
           && t.orders[i].id == s.orders[i].id
  {
  }

  lemma MoveKeepsBalance(s: State, c: Command)
    requires OrdersBalanced(s) && !c.Fill?
    ensures OrdersBalanced(ReduceExecution(s, c).state)
  {
    MoveKeepsHoldings(s, c);
  }

  /** On every reducer run an order holds min(its quantity, the sum of its records), or 0 before its first fill. */
  lemma {:induction false} RunsBalanceOrders(intent: Intent, cs: seq<Command>)
    ensures OrdersBalanced(Run(InitState(intent, Some(Plans.PlanFor(intent))), cs))
    decreases |cs|
  {
    var s0 := InitState(intent, Some(Plans.PlanFor(intent)));
    if cs != [] {
      var s := Run(s0, cs[..|cs| - 1]);
      RunsBalanceOrders(intent, cs[..|cs| - 1]);
      RunsAreLockstep(intent, cs[..|cs| - 1]);
      match cs[|cs| - 1]
      case Fill(at, id, price, quantity) => FillKeepsBalance(s, id, price, quantity, at);
      case _ => MoveKeepsBalance(s, cs[|cs| - 1]);
    }
  }
}
