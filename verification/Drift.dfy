/** The running average price of an order against the exact average of what it admitted. */
module Drift {
  import opened Wrappers
  import opened Decimal
  import opened ExecutionTypes
  import opened Orders
  import opened Reducer
  import opened Lifecycles
  import Plans

  datatype Trade = Trade(price: real, quantity: real)

  /** An order after a list of fills. */
  function AfterFills(o: Order, ts: seq<Trade>): Order {
    if ts == [] then o
    else
      var t := ts[|ts| - 1];
      ApplyFillToOrder(AfterFills(o, ts[..|ts| - 1]), t.price, t.quantity, o.updatedAt)
  }

  predicate Fresh(o: Order) {
    o.filled == 0 && o.avgFillPrice.None? && (o.quantity.Some? ==> o.quantity.value > 0)
  }

  predicate Whole(x: real) { x > 0.0 && x.Floor as real == x }

  lemma {:induction false} FilledStaysInRange(o: Order, ts: seq<Trade>)
    requires Fresh(o) && forall i :: 0 <= i < |ts| ==> ts[i].quantity > 0.0
    ensures var f := AfterFills(o, ts);
            f.quantity == o.quantity && 0 <= f.filled && (o.quantity.Some? ==> f.filled <= o.quantity.value)
    ensures ts != [] ==> AfterFills(o, ts).avgFillPrice.Some?
    decreases |ts|
  {
    if ts != [] {
      FilledStaysInRange(o, ts[..|ts| - 1]);
      var before, t := AfterFills(o, ts[..|ts| - 1]), ts[|ts| - 1];
      var after := FilledAfter(before, t.quantity);
      RoundMonotone(0.0, after);
      if o.quantity.Some? {
        RoundMonotone(after, o.quantity.value as real);
        RoundOfInteger(o.quantity.value);
      }
    }
  }

  /** The next fill is weighted with what the order will hold, or is the first that it holds. */
  predicate TrueWeight(o: Order, quantity: real) {
    var after := FilledAfter(o, quantity);
    Round(after) as real == after || (o.filled == 0 && Round(after) > 0)
  }

  /** Every fill of the list is weighted truly. */
  predicate Steady(o: Order, ts: seq<Trade>) {
    ts == [] || (Steady(o, ts[..|ts| - 1]) && TrueWeight(AfterFills(o, ts[..|ts| - 1]), ts[|ts| - 1].quantity))
  }

  /** A whole fill on a whole order leaves a whole order. */
  lemma WholeFillIsTrue(o: Order, quantity: real)
    requires Whole(quantity)
    ensures TrueWeight(o, quantity)
  {
    RoundOfInteger(o.filled + quantity.Floor);
    if o.quantity.Some? {
      RoundOfInteger(o.quantity.value);
    }
  }

  lemma {:induction false} WholeFillsAreSteady(o: Order, ts: seq<Trade>)
    requires forall i :: 0 <= i < |ts| ==> Whole(ts[i].quantity)
    ensures Steady(o, ts)
    decreases |ts|
  {
    if ts != [] {
      WholeFillsAreSteady(o, ts[..|ts| - 1]);
      WholeFillIsTrue(AfterFills(o, ts[..|ts| - 1]), ts[|ts| - 1].quantity);
    }
  }

  lemma MeanOfNothing(prior: real, price: real, total: real)
    requires total > 0.0
    ensures Mean(prior, 0.0, price, total) == price
  {
    DivideCompare(price * total, total, price);
  }

  /** Two means over the same weights are no further apart than the prices they start from. */
  lemma MeanContracts(a: real, e: real, held: real, price: real, total: real)
    requires 0.0 <= held <= total && total > 0.0
    ensures AbsReal(Mean(a, held, price, total) - Mean(e, held, price, total)) <= AbsReal(a - e)
  {
    var d := if a >= e then a - e else e - a;
    var rest := price * (total - held);
    MeanOrdered(a, e, held, rest, total, d);
    MeanOrdered(e, a, held, rest, total, d);
  }

  lemma MeanOrdered(a: real, e: real, held: real, rest: real, total: real, d: real)
    requires 0.0 <= held <= total && total > 0.0 && a - e <= d && d >= 0.0
    ensures (a * held + rest) / total - (e * held + rest) / total <= d
  {
    var x, y := (a * held + rest) / total, (e * held + rest) / total;
    DivideCompare(a * held + rest, total, y + d);
    DivideCompare(e * held + rest, total, y);
    ProductOfNonNegatives(d - (a - e), held);
    ProductOfNonNegatives(d, total - held);
    assert (y + d) * total == e * held + rest + d * total;
    assert a * held + rest - (e * held + rest) == (a - e) * held;
    assert (d - (a - e)) * held == d * held - (a - e) * held;
    assert d * (total - held) == d * total - d * held;
  }

  function Held(o: Order): real { o.filled as real }

  function Price(o: Order): real { PriceOrZero(o.avgFillPrice) }

  /** What one fill does to the quantity held and the average. */
  lemma OneFill(o: Order, t: Trade, at: int)
    requires 0 <= o.filled && t.quantity > 0.0
    requires o.quantity.Some? ==> o.quantity.value > 0 && o.filled <= o.quantity.value
    ensures var after := FilledAfter(o, t.quantity);
            && Held(o) <= after && after > 0.0
            && ApplyFillToOrder(o, t.price, t.quantity, at).avgFillPrice ==
               Some(Round(Mean(Price(o), Held(o), t.price, after)))
  {
  }

  // ------------------------------------------------------------------ the exact average

  /** What one fill admits: `total - held` units at `price`. */
  datatype Lot = Lot(price: real, held: real, total: real)

  function LotsOf(o: Order, ts: seq<Trade>): seq<Lot> {
    if ts == [] then []
    else
      var init := ts[..|ts| - 1];
      LotsOf(o, init) + [Lot(ts[|ts| - 1].price, Held(AfterFills(o, init)), Held(AfterFills(o, ts)))]
  }

  function TotalOf(ls: seq<Lot>): real { if ls == [] then 0.0 else ls[|ls| - 1].total }

  /** The lot starts where the list before it ended and admits something or nothing. */
  predicate Follows(init: seq<Lot>, l: Lot) {
    l.held == TotalOf(init) && 0.0 <= l.held <= l.total && l.total > 0.0
  }

  predicate Chained(ls: seq<Lot>) {
    ls == [] || (Chained(ls[..|ls| - 1]) && Follows(ls[..|ls| - 1], ls[|ls| - 1]))
  }

  lemma ChainedAppend(init: seq<Lot>, l: Lot)
    requires Chained(init) && Follows(init, l)
    ensures Chained(init + [l]) && TotalOf(init + [l]) == l.total
    ensures Exact(init + [l]) == Mean(Exact(init), l.held, l.price, l.total)
  {
    assert (init + [l])[..|init|] == init;
  }

  /** The running average with the same weights and nothing rounded. */
  function Exact(ls: seq<Lot>): real {
    if ls == [] then 0.0
    else
      var l := ls[|ls| - 1];
      if l.total > 0.0 then Mean(Exact(ls[..|ls| - 1]), l.held, l.price, l.total) else 0.0
  }

  /** Price times admitted quantity, summed. */
  function Notional(ls: seq<Lot>): real {
    if ls == [] then 0.0
    else
      var l := ls[|ls| - 1];
      Notional(ls[..|ls| - 1]) + l.price * (l.total - l.held)
  }

  predicate Weighted(average: real, total: real, notional: real) { average * total == notional }

  /** One lot takes the average from e to f and the notional from n to m. */
  predicate Averages(e: real, f: real, n: real, m: real, held: real, price: real, total: real) {
    total > 0.0 && f == Mean(e, held, price, total) && m == n + price * (total - held)
  }

  /** The new average times the new quantity is the old notional plus the lot's. */
  lemma WeightedStep(e: real, f: real, n: real, m: real, held: real, price: real, total: real)
    requires Averages(e, f, n, m, held, price, total) && Weighted(e, held, n)
    ensures Weighted(f, total, m)
  {
    DivideCompare(e * held + price * (total - held), total, 0.0);
  }

  /** The running average is the volume-weighted one: average times quantity is the notional. */
  lemma {:induction false} ExactIsVolumeWeighted(ls: seq<Lot>)
    requires Chained(ls)
    ensures Weighted(Exact(ls), TotalOf(ls), Notional(ls))
    decreases |ls|
  {
    if ls != [] {
      var init := ls[..|ls| - 1];
      ExactIsVolumeWeighted(init);
      WeightedStep(Exact(init), Exact(ls), Notional(init), Notional(ls), TotalOf(init), ls[|ls| - 1].price,
          TotalOf(ls));
    }
  }

  /** One truly weighted fill adds one lot. */
  lemma LotFollows(o: Order, init: seq<Trade>, t: Trade)
    requires Fresh(o) && (forall i :: 0 <= i < |init| ==> init[i].quantity > 0.0) && t.quantity > 0.0
    requires TrueWeight(AfterFills(o, init), t.quantity)
    requires TotalOf(LotsOf(o, init)) == Held(AfterFills(o, init))
    ensures var l := Lot(t.price, Held(AfterFills(o, init)), Held(AfterFills(o, init + [t])));
            LotsOf(o, init + [t]) == LotsOf(o, init) + [l] && Follows(LotsOf(o, init), l)
  {
    assert (init + [t])[..|init|] == init;
    FilledStaysInRange(o, init);
    var before := AfterFills(o, init);
    OneFill(before, t, o.updatedAt);
    RoundMonotone(Held(before), FilledAfter(before, t.quantity));
    RoundOfInteger(before.filled);
  }

  lemma {:induction false} LotsAreChained(o: Order, ts: seq<Trade>)
    requires Fresh(o) && (forall i :: 0 <= i < |ts| ==> ts[i].quantity > 0.0) && Steady(o, ts)
    ensures Chained(LotsOf(o, ts)) && TotalOf(LotsOf(o, ts)) == Held(AfterFills(o, ts))
    decreases |ts|
  {
    if ts != [] {
      var init, t := ts[..|ts| - 1], ts[|ts| - 1];
      assert ts == init + [t];
      LotsAreChained(o, init);
      LotFollows(o, init, t);
      ChainedAppend(LotsOf(o, init), Lot(t.price, Held(AfterFills(o, init)), Held(AfterFills(o, ts))));
    }
  }

  /** The average reported after a list of fills is within half a price step per fill of the exact one. */
  predicate WithinDrift(o: Order, ts: seq<Trade>) {
    AbsReal(Price(AfterFills(o, ts)) - Exact(LotsOf(o, ts))) <= 0.5 * |ts| as real
  }

  /** A truly weighted fill takes the rounded average a and the exact average e half a step further apart at most. */
  lemma DriftStep(a: real, e: real, held: real, price: real, after: real, total: real)
    requires 0.0 <= held <= total && after > 0.0 && total > 0.0 && held <= after
    requires after == total || held == 0.0
    ensures AbsReal(Round(Mean(a, held, price, after)) as real - Mean(e, held, price, total)) <= AbsReal(a - e) + 0.5
  {
    RoundIsNearest(Mean(a, held, price, after), 0);
    if held == 0.0 {
      MeanOfNothing(a, price, after);
      MeanOfNothing(e, price, total);
    } else {
      MeanContracts(a, e, held, price, total);
    }
  }

  /** After k truly weighted fills the average is within k/2 price steps of the exact average. */
  lemma {:induction false} AverageDrift(o: Order, ts: seq<Trade>)
    requires Fresh(o) && (forall i :: 0 <= i < |ts| ==> ts[i].quantity > 0.0) && Steady(o, ts)
    ensures WithinDrift(o, ts)
    decreases |ts|
  {
    if ts != [] {
      var init, t := ts[..|ts| - 1], ts[|ts| - 1];
      assert ts == init + [t];
      var before := AfterFills(o, init);
      AverageDrift(o, init);
      LotsAreChained(o, init);
      LotFollows(o, init, t);
      FilledStaysInRange(o, init);
      OneFill(before, t, o.updatedAt);
      var l := Lot(t.price, Held(before), Held(AfterFills(o, ts)));
      ChainedAppend(LotsOf(o, init), l);
      DriftStep(Price(before), Exact(LotsOf(o, init)), l.held, t.price, FilledAfter(before, t.quantity), l.total);
    }
  }

  /** A weighted mean of values in a range, rounded to the grid of the range, stays in it. */
  lemma MeanInRange(prior: real, held: real, price: real, total: real, lo: int, hi: int)
    requires 0.0 <= held <= total && total > 0.0
    requires held > 0.0 ==> lo as real <= prior <= hi as real
    requires lo as real <= price <= hi as real
    ensures lo <= Round(Mean(prior, held, price, total)) <= hi
  {
    var n, l, h := prior * held + price * (total - held), lo as real, hi as real;
    var x := Mean(prior, held, price, total);
    MeanAbove(prior, held, price, total, l);
    MeanAbove(-prior, held, -price, total, -h);
    DivideCompare(n, total, l);
    DivideCompare(n, total, h);
    RoundMonotone(l, x);
    RoundMonotone(x, h);
    RoundOfInteger(lo);
    RoundOfInteger(hi);
  }

  lemma MeanAbove(prior: real, held: real, price: real, total: real, l: real)
    requires 0.0 <= held <= total
    requires held > 0.0 ==> l <= prior
    requires l <= price
    ensures l * total <= prior * held + price * (total - held)
  {
    if held > 0.0 {
      ProductOfNonNegatives(prior - l, held);
    }
    ProductOfNonNegatives(price - l, total - held);
    assert prior * held + price * (total - held) - l * total == (prior - l) * held + (price - l) * (total - held);
  }

  /** Whatever the quantities, the average stays between the lowest and the highest price. */
  lemma {:induction false} AverageInRange(o: Order, ts: seq<Trade>, lo: int, hi: int)
    requires Fresh(o)
    requires forall i :: 0 <= i < |ts| ==> ts[i].quantity > 0.0 && lo as real <= ts[i].price <= hi as real
    ensures ts != [] ==> AfterFills(o, ts).avgFillPrice.Some? && lo <= AfterFills(o, ts).avgFillPrice.value <= hi
    decreases |ts|
  {
    if ts != [] {
      var init, t := ts[..|ts| - 1], ts[|ts| - 1];
      AverageInRange(o, init, lo, hi);
      FilledStaysInRange(o, init);
      var before := AfterFills(o, init);
      OneFill(before, t, o.updatedAt);
      MeanInRange(Price(before), Held(before), t.price, FilledAfter(before, t.quantity), lo, hi);
    }
  }

  // ------------------------------------------------------------------ on reducer runs

  /** The fills of one order that a run accepted. */
  function Accepted(s: State, cs: seq<Command>, id: OrderId): seq<Trade> {
    if cs == [] then []
    else
      var init, c := cs[..|cs| - 1], cs[|cs| - 1];
      Accepted(s, init, id)
      + if c.Fill? && c.orderId == id && ReduceExecution(Run(s, init), c).ok then [Trade(c.price, c.quantity)] else []
  }

  predicate SameProgress(a: Order, b: Order) {
    a.quantity == b.quantity && a.filled == b.filled && a.avgFillPrice == b.avgFillPrice
  }

  lemma SameFillSameProgress(a: Order, b: Order, price: real, quantity: real, at: int, at': int)
    requires SameProgress(a, b)
    ensures SameProgress(ApplyFillToOrder(a, price, quantity, at), ApplyFillToOrder(b, price, quantity, at'))
  {
  }

  /** In a run each order's progress is that of the planned order under the fills accepted for it. */
  ghost predicate FollowsFills(s0: State, cs: seq<Command>, planned: seq<Order>) {
    var os := Run(s0, cs).orders;
    && |os| == |planned|
    && forall i :: 0 <= i < |planned| ==> SameProgress(os[i], AfterFills(planned[i], Accepted(s0, cs, planned[i].id)))
  }

  /** An accepted fill replaces the filled order; a refused one leaves the orders alone. */
  lemma FillOrders(s: State, id: OrderId, price: real, quantity: real, at: int)
    ensures var r, k := ReduceFill(s, id, price, quantity, at), IndexOfOrder(s.orders, id);
            && (r.ok ==> k.Some? && k.value < |s.orders|
                         && r.state.orders ==
                            ReplaceOrder(s.orders, id, ApplyFillToOrder(s.orders[k.value], price, quantity, at)))
            && (!r.ok ==> r.state.orders == s.orders)
  {
    var k := IndexOfOrder(s.orders, id);
    assert k.Some? ==> s.orders[k.value].id == id;
  }

  lemma FillFollows(s: State, c: Command, i: nat, ts: seq<Trade>, planned: seq<Order>)
    requires Lockstep(s, planned) && c.Fill? && !IsTerminal(s.status) && i < |planned|
    requires SameProgress(s.orders[i], AfterFills(planned[i], ts))
    ensures var r := ReduceFill(s, c.orderId, c.price, c.quantity, c.at);
            var more := if c.orderId == planned[i].id && r.ok then [Trade(c.price, c.quantity)] else [];
            i < |r.state.orders| && SameProgress(r.state.orders[i], AfterFills(planned[i], ts + more))
  {
    assert ts + [] == ts;
    assert (ts + [Trade(c.price, c.quantity)])[..|ts|] == ts;
    FillOrders(s, c.orderId, c.price, c.quantity, c.at);
    SameFillSameProgress(s.orders[i], AfterFills(planned[i], ts), c.price, c.quantity, c.at, planned[i].updatedAt);
    var at := IndexOfOrder(s.orders, c.orderId);
    assert at.Some? && at.value != i ==> s.orders[i].id != c.orderId;
  }

  lemma RefusedFollows(s: State, c: Command, i: nat, ts: seq<Trade>, planned: seq<Order>)
    requires c.Fill? && IsTerminal(s.status) && i < |s.orders| && i < |planned|
    requires SameProgress(s.orders[i], AfterFills(planned[i], ts))
    ensures !ReduceExecution(s, c).ok && ReduceExecution(s, c).state == s
  {
  }

  lemma MoveFollows(s: State, c: Command, i: nat)
    requires !c.Fill? && i < |s.orders|
    ensures i < |ReduceExecution(s, c).state.orders| && SameProgress(ReduceExecution(s, c).state.orders[i], s.orders[i])
  {
  }

  lemma StartFollows(intent: Intent)
    ensures FollowsFills(InitState(intent, Some(Plans.PlanFor(intent))), [], Plans.PlanOrders(intent))
  {
  }

  lemma CommandFollows(s0: State, init: seq<Command>, c: Command, planned: seq<Order>)
    requires Lockstep(Run(s0, init), planned) && FollowsFills(s0, init, planned)
    requires |Run(s0, init + [c]).orders| == |planned|
    ensures FollowsFills(s0, init + [c], planned)
  {
    forall i | 0 <= i < |planned|
      ensures SameProgress(Run(s0, init + [c]).orders[i],
          AfterFills(planned[i], Accepted(s0, init + [c], planned[i].id)))
    {
      StepFollows(s0, init, c, i, planned);
    }
  }

  lemma LockstepSize(s: State, planned: seq<Order>)
    requires Lockstep(s, planned)
    ensures |s.orders| == |planned|
  {
  }

  lemma {:induction false} RunsFollowFills(intent: Intent, cs: seq<Command>)
    ensures FollowsFills(InitState(intent, Some(Plans.PlanFor(intent))), cs, Plans.PlanOrders(intent))
    decreases |cs|
  {
    if cs == [] {
      StartFollows(intent);
    } else {
      var s0, planned := InitState(intent, Some(Plans.PlanFor(intent))), Plans.PlanOrders(intent);
      var init, c := cs[..|cs| - 1], cs[|cs| - 1];
      RunsFollowFills(intent, init);
      RunsAreLockstep(intent, init);
      RunsAreLockstep(intent, cs);
      assert init + [c] == cs;
      LockstepSize(Run(s0, cs), planned);
      CommandFollows(s0, init, c, planned);
    }
  }

  lemma StepFollows(s0: State, init: seq<Command>, c: Command, i: nat, planned: seq<Order>)
    requires Lockstep(Run(s0, init), planned) && FollowsFills(s0, init, planned) && i < |planned|
    ensures i < |Run(s0, init + [c]).orders|
    ensures SameProgress(Run(s0, init + [c]).orders[i], AfterFills(planned[i], Accepted(s0, init + [c], planned[i].id)))
  {
    var cs := init + [c];
    var ts := Accepted(s0, init, planned[i].id);
    assert cs[..|cs| - 1] == init;
    if c.Fill? {
      if IsTerminal(Run(s0, init).status) {
        RefusedFollows(Run(s0, init), c, i, ts, planned);
        assert ts + [] == ts;
      } else {
        FillFollows(Run(s0, init), c, i, ts, planned);
      }
    } else {
      MoveFollows(Run(s0, init), c, i);
      assert Accepted(s0, cs, planned[i].id) == ts + [] == ts;
    }
  }

  lemma {:induction false} AcceptedFillsPositive(s0: State, cs: seq<Command>, id: OrderId)
    ensures forall k :: 0 <= k < |Accepted(s0, cs, id)| ==> Accepted(s0, cs, id)[k].quantity > 0.0
    ensures (forall i :: 0 <= i < |cs| && cs[i].Fill? ==> Whole(cs[i].quantity))
            ==> forall k :: 0 <= k < |Accepted(s0, cs, id)| ==> Whole(Accepted(s0, cs, id)[k].quantity)
    decreases |cs|
  {
    if cs != [] {
      AcceptedFillsPositive(s0, cs[..|cs| - 1], id);
    }
  }

  /** How far order o, which made the same progress as p under ts, is from the exact average. */
  ghost predicate DriftBounded(o: Order, p: Order, ts: seq<Trade>) {
    var exact := Exact(LotsOf(p, ts));
    && AbsReal(Price(o) - exact) <= 0.5 * |ts| as real
    && Weighted(exact, Held(o), Notional(LotsOf(p, ts)))
  }

  lemma FollowerDrift(o: Order, p: Order, ts: seq<Trade>)
    requires Fresh(p) && SameProgress(o, AfterFills(p, ts))
    requires (forall i :: 0 <= i < |ts| ==> ts[i].quantity > 0.0) && Steady(p, ts)
    ensures DriftBounded(o, p, ts)
  {
    AverageDrift(p, ts);
    LotsAreChained(p, ts);
    ExactIsVolumeWeighted(LotsOf(p, ts));
  }

  /**
   * On every reducer run: after k accepted fills, each truly weighted, the price an order reports is
   * within k/2 steps of 1e-8 of the exact volume-weighted average of what it admitted.
   */
  lemma RunDrift(intent: Intent, cs: seq<Command>, i: nat)
    requires i < |Plans.PlanOrders(intent)| && Fresh(Plans.PlanOrders(intent)[i])
    requires var s0, p := InitState(intent, Some(Plans.PlanFor(intent))), Plans.PlanOrders(intent)[i];
             Steady(p, Accepted(s0, cs, p.id))
    ensures var s0, p := InitState(intent, Some(Plans.PlanFor(intent))), Plans.PlanOrders(intent)[i];
            i < |Run(s0, cs).orders| && DriftBounded(Run(s0, cs).orders[i], p, Accepted(s0, cs, p.id))
  {
    var s0, planned := InitState(intent, Some(Plans.PlanFor(intent))), Plans.PlanOrders(intent);
    RunsFollowFills(intent, cs);
    AcceptedFillsPositive(s0, cs, planned[i].id);
    FollowerDrift(Run(s0, cs).orders[i], planned[i], Accepted(s0, cs, planned[i].id));
  }

  /** On every reducer run, whatever the quantities, an order's average lies between the extreme prices it filled at. */
  lemma RunAverageInRange(intent: Intent, cs: seq<Command>, i: nat, lo: int, hi: int)
    requires i < |Plans.PlanOrders(intent)| && Fresh(Plans.PlanOrders(intent)[i])
    requires var s0, p := InitState(intent, Some(Plans.PlanFor(intent))), Plans.PlanOrders(intent)[i];
             forall k :: 0 <= k < |Accepted(s0, cs, p.id)|
                 ==> lo as real <= Accepted(s0, cs, p.id)[k].price <= hi as real
    ensures var s0, p := InitState(intent, Some(Plans.PlanFor(intent))), Plans.PlanOrders(intent)[i];
            && i < |Run(s0, cs).orders|
            && (Accepted(s0, cs, p.id) != [] ==>
                  Run(s0, cs).orders[i].avgFillPrice.Some? && lo <= Run(s0, cs).orders[i].avgFillPrice.value <= hi)
  {
    var s0, planned := InitState(intent, Some(Plans.PlanFor(intent))), Plans.PlanOrders(intent);
    RunsFollowFills(intent, cs);
    AcceptedFillsPositive(s0, cs, planned[i].id);
    AverageInRange(planned[i], Accepted(s0, cs, planned[i].id), lo, hi);
  }
}
