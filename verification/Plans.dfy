/** packages/execution-core/src/plan.ts and validation.ts. */
module Plans {
  import opened Wrappers
  import opened Decimal
  import opened ExecutionTypes
  import opened Orders

  /** The submit gate: the first failing reason in the source's order, or None. */
  function CheckSubmittable(intent: Intent): Option<FailureReason> {
    if intent.action == Action.NoTrade || !intent.canTrade || !intent.shouldTrade then Some(FailureReason.Blocked)
    else if intent.readinessScore.None? then Some(FailureReason.MissingReadiness)
    else if intent.entry.None? then Some(FailureReason.MissingEntry)
    else if intent.stop.None? then Some(FailureReason.MissingStop)
    else if |intent.targets| == 0 then Some(FailureReason.MissingTarget)
    else None
  }

  // ------------------------------------------------------------------ splitting the size

  function PerPart(total: int, n: nat): int
    requires n > 0
  {
    Round(total as real / n as real)
  }

  /** The i-th of n parts: equal parts, the remainder in the last one. */
  function Part(total: int, n: nat, i: nat): int
    requires i < n
  {
    if i < n - 1 then PerPart(total, n) else total - PerPart(total, n) * (n - 1)
  }

  function PartOf(total: Option<int>, n: nat, i: nat): Option<int>
    requires i < n
  {
    match total
    case None => None
    case Some(t) => Some(Part(t, n, i))
  }

  method SplitQuantity(total: Option<int>, n: nat) returns (parts: seq<Option<int>>)
    ensures |parts| == n
    ensures forall i :: 0 <= i < n ==> parts[i] == PartOf(total, n, i)
  {
    parts := [];
    if n == 0 {
      return;
    }
    if total.None? {
      return seq(n, i => None);
    }
    var per := Round(total.value as real / n as real);
    for i := 0 to n - 1
      invariant |parts| == i
      invariant forall j :: 0 <= j < i ==> parts[j] == Some(per)
    {
      parts := parts + [Some(per)];
    }
    parts := parts + [Some(total.value - per * (n - 1))];
  }

  // ------------------------------------------------------------------ the plan

  function TargetOrder(intent: Intent, i: nat): Order
    requires i < |intent.targets|
  {
    MakeOrder(OrderId(intent.signalId, Role.Target, i + 2), intent.direction, Role.Target, OrderKind.Limit,
              Some(intent.targets[i]), PartOf(intent.positionSize, |intent.targets|, i), intent.createdAt)
  }

  predicate IsUntouched(o: Order) { o.status == OrderStatus.Planned && o.filled == 0 && o.avgFillPrice.None? }

  /** ENTRY and STOP for the whole size, then one TARGET order per served level. */
  function PlanOrders(intent: Intent): (os: seq<Order>)
    ensures |os| == 2 + |intent.targets|
    ensures os[0].role == Role.Entry && os[1].role == Role.Stop
    ensures os[0].quantity == os[1].quantity == intent.positionSize
    ensures forall i :: 2 <= i < |os| ==> os[i] == TargetOrder(intent, i - 2)
    ensures forall i :: 0 <= i < |os| ==> os[i].id.index == i && os[i].id.role == os[i].role
    ensures forall i :: 0 <= i < |os| ==> IsUntouched(os[i])
  {
    [MakeOrder(OrderId(intent.signalId, Role.Entry, 0), intent.direction, Role.Entry, OrderKind.Limit,
               intent.entry, intent.positionSize, intent.createdAt),
     MakeOrder(OrderId(intent.signalId, Role.Stop, 1), intent.direction, Role.Stop, OrderKind.StopTrigger,
               intent.stop, intent.positionSize, intent.createdAt)]
    + seq(|intent.targets|, i requires 0 <= i < |intent.targets| => TargetOrder(intent, i))
  }

  function PlanFor(intent: Intent): Plan {
    var blocked := CheckSubmittable(intent);
    Plan.Plan(intent.signalId, intent.direction, PlanOrders(intent), intent.positionSize, blocked.None?, blocked,
        intent.createdAt)
  }

  /** The order-pushing loop of buildExecutionPlan. */
  method BuildExecutionPlan(intent: Intent) returns (plan: Plan)
    ensures plan == PlanFor(intent)
  {
    var idx := 0;
    var orders := [MakeOrder(OrderId(intent.signalId, Role.Entry, idx), intent.direction, Role.Entry, OrderKind.Limit,
                             intent.entry, intent.positionSize, intent.createdAt)];
    idx := idx + 1;
    orders :=
        orders + [MakeOrder(OrderId(intent.signalId, Role.Stop, idx), intent.direction, Role.Stop,
            OrderKind.StopTrigger,
                                  intent.stop, intent.positionSize, intent.createdAt)];
    idx := idx + 1;
    var parts := SplitQuantity(intent.positionSize, |intent.targets|);
    for i := 0 to |intent.targets|
      invariant idx == i + 2
      invariant orders == PlanOrders(intent)[..idx]
    {
      orders :=
          orders + [MakeOrder(OrderId(intent.signalId, Role.Target, idx), intent.direction, Role.Target,
              OrderKind.Limit,
                                    Some(intent.targets[i]), parts[i], intent.createdAt)];
      idx := idx + 1;
    }
    assert orders == PlanOrders(intent);
    var blocked := CheckSubmittable(intent);
    plan := Plan.Plan(intent.signalId, intent.direction, orders, intent.positionSize, blocked.None?, blocked,
        intent.createdAt);
  }

  // ------------------------------------------------------------------ the parts close exactly

  function SumParts(total: int, n: nat, upTo: nat): int
    requires upTo <= n
  {
    if upTo == 0 then 0 else SumParts(total, n, upTo - 1) + Part(total, n, upTo - 1)
  }

  lemma {:induction false} SumOfEqualParts(total: int, n: nat, upTo: nat)
    requires 0 < n && upTo <= n - 1
    ensures SumParts(total, n, upTo) == PerPart(total, n) * upTo
  {
    if upTo > 0 {
      SumOfEqualParts(total, n, upTo - 1);
    }
  }

  /** No quantity is lost or invented by the split, whatever the rounding does. */
  lemma PartsSumToTotal(total: int, n: nat)
    requires n > 0
    ensures SumParts(total, n, n) == total
  {
    SumOfEqualParts(total, n, n - 1);
  }

  /** The rounded share in terms of quotient and remainder. */
  lemma PerPartIs(total: nat, n: nat)
    requires n > 0
    ensures PerPart(total, n) == total / n + if 2 * (total % n) < n then 0 else 1
  {
    var k, r := total / n, total % n;
    var x := total as real / n as real;
    assert total == k * n + r;
    assert total as real == k as real * n as real + r as real;
    assert x * n as real == total as real;
    var f := r as real / n as real;
    assert f * n as real == r as real;
    assert x == k as real + f;
    DivideCompare(r as real, n as real, 0.5);
    DivideCompare(r as real, n as real, 1.0);
    if 2 * r < n {
      RoundBracket(x, k);
    } else {
      assert (x + 0.5).Floor == k + 1;
    }
  }

  /** Exactly which sizes split into parts that differ by at most one unit. */
  lemma PartsBalancedIff(total: nat, n: nat)
    requires n > 0
    ensures (forall i, j :: 0 <= i < n && 0 <= j < n ==> Part(total, n, i) - Part(total, n, j) <= 1)
            <==> total % n <= 1 || total % n == n - 1
  {
    PerPartIs(total, n);
    var k, r, per := total / n, total % n, PerPart(total, n);
    assert total == k * n + r;
    if n == 1 {
    } else if 2 * r < n {
      assert per * (n - 1) == k * n - k;
      assert Part(total, n, n - 1) == k + r;
      assert Part(total, n, 0) == k;
    } else {
      assert per * (n - 1) == k * n - k + n - 1;
      assert Part(total, n, n - 1) == k + r - n + 1;
      assert Part(total, n, 0) == k + 1;
    }
  }

  /** Exactly which sizes split into parts none of which is negative. */
  lemma PartsNonNegativeIff(total: nat, n: nat)
    requires n > 0
    ensures (forall i :: 0 <= i < n ==> Part(total, n, i) >= 0)
            <==> 2 * (total % n) < n || n <= total / n + total % n + 1
  {
    PerPartIs(total, n);
    var k, r, per := total / n, total % n, PerPart(total, n);
    assert total == k * n + r;
    if 2 * r < n {
      assert per * (n - 1) == k * n - k;
      assert Part(total, n, n - 1) == k + r;
    } else {
      assert per * (n - 1) == k * n - k + n - 1;
      assert Part(total, n, n - 1) == k + r - n + 1;
    }
  }

  /** A decision serves at most three take-profits, and then the parts are balanced and usable. */
  lemma UpToThreeTargetsSplitEvenly(total: nat, n: nat)
    requires 0 < n <= 3
    ensures forall i :: 0 <= i < n ==> Part(total, n, i) >= 0
    ensures forall i, j :: 0 <= i < n && 0 <= j < n ==> Part(total, n, i) - Part(total, n, j) <= 1
  {
    PartsBalancedIff(total, n);
    PartsNonNegativeIff(total, n);
  }

  /** Four targets would not do: 2 units over 4 targets leave the last order negative. */
  lemma FourTargetsCanGoNegative()
    ensures Part(2, 4, 3) == -1
  {
    PerPartIs(2, 4);
  }
}
