/** packages/execution-core/src/orders.ts and fills.ts. */
module Orders {
  import opened Wrappers
  import opened Decimal
  import opened ExecutionTypes

  /** ORDER_TRANSITIONS. */
  predicate CanTransitionOrder(from: OrderStatus, to: OrderStatus) {
    match from
    case NotCreated => to.Planned? || to.Rejected? || to.Failed?
    case Planned => to.Ready? || to.Cancelled? || to.Rejected? || to.Expired? || to.Failed?
    case Ready => to.Submitted? || to.Cancelled? || to.Rejected? || to.Expired? || to.Failed?
    case Submitted => to.Acknowledged? || to.Rejected? || to.Cancelled? || to.Expired? || to.Failed?
    case Acknowledged => to.PartiallyFilled? || to.Filled? || to.Cancelled? || to.Rejected? || to.Expired? || to.Failed?
    case PartiallyFilled => to.PartiallyFilled? || to.Filled? || to.Cancelled? || to.Failed?
    case _ => false
  }

  predicate IsTerminalOrder(s: OrderStatus) {
    s.Filled? || s.Cancelled? || s.Rejected? || s.Expired? || s.Failed?
  }

  function SideForRole(direction: Direction, role: Role): Side {
    if role == Role.Entry then
      if direction == Direction.Long then Side.Buy else Side.Sell
    else
      if direction == Direction.Long then Side.Sell else Side.Buy
  }

  function MakeOrder(id: OrderId, direction: Direction, role: Role, kind: OrderKind,
                     price: Option<real>, quantity: Option<int>, now: int): Order
  {
    Order(id, SideForRole(direction, role), role, kind, price, quantity, OrderStatus.Planned, 0, None, now)
  }

  /** An illegal move returns the order unchanged. */
  function TransitionOrder(o: Order, to: OrderStatus, at: int): Order {
    if CanTransitionOrder(o.status, to) then o.(status := to, updatedAt := at) else o
  }

  function TransitionAll(os: seq<Order>, to: OrderStatus, at: int): (r: seq<Order>)
    ensures |r| == |os|
    ensures forall i :: 0 <= i < |os| ==> r[i] == TransitionOrder(os[i], to, at)
  {
    seq(|os|, i requires 0 <= i < |os| => TransitionOrder(os[i], to, at))
  }

  // ------------------------------------------------------------------ fills

  /** The unrounded cumulative quantity after a fill: clamped to a sized order. */
  function FilledAfter(o: Order, quantity: real): real {
    var raw := o.filled as real + (if quantity > 0.0 then quantity else 0.0);
    match o.quantity
    case None => raw
    case Some(target) => MinReal(target as real, raw)
  }

  function PriceOrZero(avg: Option<int>): real {
    match avg case None => 0.0 case Some(p) => p as real
  }

  /** The average price of `total` units, `held` of them at `prior` and the rest at `price`. */
  function Mean(prior: real, held: real, price: real, total: real): real
    requires total > 0.0
  {
    (prior * held + price * (total - held)) / total
  }

  /** The running volume-weighted average, rounded to the price grid. */
  function AverageAfter(avg: Option<int>, filled: int, price: real, newFilled: real): Option<int> {
    if newFilled > 0.0 then Some(Round(Mean(PriceOrZero(avg), filled as real, price, newFilled))) else None
  }

  function ApplyFillToOrder(o: Order, price: real, quantity: real, at: int): Order {
    var newFilled := FilledAfter(o, quantity);
    var complete := o.quantity.Some? && newFilled >= o.quantity.value as real;
    var next := if complete then OrderStatus.Filled else OrderStatus.PartiallyFilled;
    o.(status := if CanTransitionOrder(o.status, next) then next else o.status,
       filled := Round(newFilled),
       avgFillPrice := AverageAfter(o.avgFillPrice, o.filled, price, newFilled),
       updatedAt := at)
  }

  function MakeFill(o: Order, index: nat, price: real, quantity: real, cumulative: int, at: int): FillRecord {
    var qty := if quantity > 0.0 then quantity else 0.0;
    var status :=
      if qty <= 0.0 then FillStatus.Void
      else if o.quantity.Some? && cumulative >= o.quantity.value then FillStatus.Full
      else FillStatus.Partial;
    FillRecord(FillId(o.id, index), o.id, o.side, Round(price), Round(qty), status, cumulative, at)
  }

  function CountFills(fills: seq<FillRecord>, id: OrderId): nat {
    if fills == [] then 0
    else CountFills(fills[..|fills| - 1], id) + if fills[|fills| - 1].order == id then 1 else 0
  }

  /** The counting loop of nextFillSeq. */
  method NextFillSeq(fills: seq<FillRecord>, id: OrderId) returns (n: nat)
    ensures n == CountFills(fills, id)
  {
    n := 0;
    for i := 0 to |fills|
      invariant n == CountFills(fills[..i], id)
    {
      assert fills[..i + 1][..i] == fills[..i];
      if fills[i].order == id {
        n := n + 1;
      }
    }
    assert fills[..|fills|] == fills;
  }

  // ------------------------------------------------------------------ lookup

  /** `orders.find((o) => o.orderId === id)`: the first match, as an index from `from` on. */
  function IndexOfOrder(os: seq<Order>, id: OrderId, from: nat := 0): (r: Option<nat>)
    requires from <= |os|
    ensures r.Some? ==> from <= r.value < |os| && os[r.value].id == id
    ensures r.Some? ==> forall j :: from <= j < r.value ==> os[j].id != id
    ensures r.None? ==> forall j :: from <= j < |os| ==> os[j].id != id
    decreases |os| - from
  {
    if from == |os| then None
    else if os[from].id == id then Some(from)
    else IndexOfOrder(os, id, from + 1)
  }

  /** `orders.find((o) => o.role === "ENTRY")`. */
  function IndexOfEntry(os: seq<Order>, from: nat := 0): (r: Option<nat>)
    requires from <= |os|
    ensures r.Some? ==> from <= r.value < |os| && os[r.value].role == Role.Entry
    ensures r.Some? ==> forall j :: from <= j < r.value ==> os[j].role != Role.Entry
    ensures r.None? ==> forall j :: from <= j < |os| ==> os[j].role != Role.Entry
    decreases |os| - from
  {
    if from == |os| then None
    else if os[from].role == Role.Entry then Some(from)
    else IndexOfEntry(os, from + 1)
  }

  /** `orders.map((o) => (o.orderId === id ? replacement : o))`. */
  function ReplaceOrder(os: seq<Order>, id: OrderId, replacement: Order): (r: seq<Order>)
    ensures |r| == |os|
    ensures forall i :: 0 <= i < |os| ==> r[i] == if os[i].id == id then replacement else os[i]
  {
    seq(|os|, i requires 0 <= i < |os| => if os[i].id == id then replacement else os[i])
  }
}
