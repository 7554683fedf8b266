/** The split targets close the position exactly on their last unit. */
module TargetsClose {
  import opened Wrappers
  import opened ExecutionTypes
  import opened Orders
  import opened Reducer
  import opened Lifecycles
  import opened Conservation
  import opened Adapter
  import opened AdapterRuns
  import Plans

  /** The quantity recorded against the orders from index `from` on. */
  function RecordedFrom(fills: seq<FillRecord>, os: seq<Order>, from: nat): int
    requires from <= |os|
    decreases |os| - from
  {
    if from == |os| then 0 else FilledFor(fills, os[from].id) + RecordedFrom(fills, os, from + 1)
  }

  lemma {:induction false} RecordedFromAppend(fills: seq<FillRecord>, f: FillRecord, os: seq<Order>, from: nat)
    requires from <= |os| && (forall i :: 0 <= i < |os| ==> os[i].id.index == i)
    requires f.order.index < |os| && os[f.order.index].id == f.order
    ensures RecordedFrom(fills + [f], os, from) == RecordedFrom(fills, os, from)
        + if from <= f.order.index then f.quantity else 0
    decreases |os| - from
  {
    if from < |os| {
      RecordedFromAppend(fills, f, os, from + 1);
      SumsAppend(fills, f, os[from].id);
    }
  }

  lemma {:induction false} NothingRecorded(os: seq<Order>, from: nat)
    requires from <= |os|
    ensures RecordedFrom([], os, from) == 0
    decreases |os| - from
  {
    if from < |os| {
      NothingRecorded(os, from + 1);
    }
  }

  /** The protective total is the sum over the protective orders. */
  lemma {:induction false} ProtectiveIsSum(fills: seq<FillRecord>, os: seq<Order>)
    requires EntryFirst(os) && KnownRecords(os, fills)
    ensures ProtectiveFilled(fills) == RecordedFrom(fills, os, 1)
    decreases |fills|
  {
    if fills == [] {
      NothingRecorded(os, 1);
    } else {
      var init, f := fills[..|fills| - 1], fills[|fills| - 1];
      assert fills == init + [f];
      ProtectiveIsSum(init, os);
      RecordedFromAppend(init, f, os, 1);
      SumsAppend(init, f, f.order);
    }
  }

  /** What is left of the size once the first `from` parts are taken. */
  function PartsFrom(q: int, n: nat, from: nat): int
    requires from <= n
  {
    q - Plans.SumParts(q, n, from)
  }

  function TargetId(intent: Intent, i: nat): OrderId { OrderId(intent.signalId, Role.Target, i + 2) }

  /** No target filled beyond its part: the totals agree exactly when every target is full. */
  lemma {:induction false} FullIffAllFull(fills: seq<FillRecord>, os: seq<Order>, q: int, n: nat, from: nat)
    requires |os| == n + 2 && n > 0 && from <= n
    requires forall i :: from <= i < n ==> FilledFor(fills, os[i + 2].id) <= Plans.Part(q, n, i)
    ensures RecordedFrom(fills, os, from + 2) <= PartsFrom(q, n, from)
    ensures RecordedFrom(fills, os, from + 2) == PartsFrom(q, n, from)
            <==> forall i :: from <= i < n ==> FilledFor(fills, os[i + 2].id) == Plans.Part(q, n, i)
    decreases n - from
  {
    if from == n {
      Plans.PartsSumToTotal(q, n);
    } else {
      FullIffAllFull(fills, os, q, n, from + 1);
      assert PartsFrom(q, n, from) == Plans.Part(q, n, from) + PartsFrom(q, n, from + 1);
      if RecordedFrom(fills, os, from + 2) == PartsFrom(q, n, from) {
        assert FilledFor(fills, os[from + 2].id) == Plans.Part(q, n, from);
      }
    }
  }

  /** The protective total against the size, when the stop is untouched and no target is overfilled. */
  lemma TargetsReachSize(s: State, q: int, n: nat)
    requires EntryFirst(s.orders) && OrdersBalanced(s) && |s.orders| == n + 2 && n > 0
    requires FilledFor(s.fills, s.orders[1].id) == 0
    requires forall i :: 0 <= i < n ==> FilledFor(s.fills, s.orders[i + 2].id) <= Plans.Part(q, n, i)
    ensures ProtectiveFilled(s.fills) >= q
        <==> forall i :: 0 <= i < n ==> FilledFor(s.fills, s.orders[i + 2].id) == Plans.Part(q, n, i)
  {
    ProtectiveIsSum(s.fills, s.orders);
    FullIffAllFull(s.fills, s.orders, q, n, 0);
    assert RecordedFrom(s.fills, s.orders, 1) ==
        FilledFor(s.fills, s.orders[1].id) + RecordedFrom(s.fills, s.orders, 2);
  }

  /**
   * In any run of a sized execution, whatever the interleaving of partial fills: once the entry is
   * open, with no stop fill and no target filled beyond its part, the execution is CLOSED exactly
   * when every target is filled.
   */
  lemma ClosesOnTheLastUnit(intent: Intent, killEngaged: bool, runtimeHealthy: bool, now: int,
      cs: seq<AdapterCommand>, q: int)
    requires intent.positionSize == Some(q) && q > 0 && |intent.targets| > 0
    requires var core := FinalCore(intent, killEngaged, runtimeHealthy, now, cs);
             && (core.status.Open? || core.status.Reducing? || core.status.Closed?)
             && FilledFor(core.fills, OrderId(intent.signalId, Role.Stop, 1)) == 0
             && forall i :: 0 <= i < |intent.targets| ==>
                  FilledFor(core.fills, TargetId(intent, i)) <= Plans.Part(q, |intent.targets|, i)
    ensures var core := FinalCore(intent, killEngaged, runtimeHealthy, now, cs);
            core.status.Closed? <==>
            forall i :: 0 <= i < |intent.targets| ==>
              FilledFor(core.fills, TargetId(intent, i)) == Plans.Part(q, |intent.targets|, i)
  {
    var core := FinalCore(intent, killEngaged, runtimeHealthy, now, cs);
    FinalCoreKept(intent, killEngaged, runtimeHealthy, now, cs);
    ClosesWhenFull(core, intent, q);
  }

  lemma ClosesWhenFull(core: State, intent: Intent, q: int)
    requires CoreKept(core, Plans.PlanOrders(intent)) && intent.positionSize == Some(q) && q > 0 && |intent.targets| > 0
    requires core.status.Open? || core.status.Reducing? || core.status.Closed?
    requires FilledFor(core.fills, OrderId(intent.signalId, Role.Stop, 1)) == 0
    requires forall i :: 0 <= i < |intent.targets| ==>
               FilledFor(core.fills, TargetId(intent, i)) <= Plans.Part(q, |intent.targets|, i)
    ensures core.status.Closed? <==>
            forall i :: 0 <= i < |intent.targets| ==>
              FilledFor(core.fills, TargetId(intent, i)) == Plans.Part(q, |intent.targets|, i)
  {
    var n := |intent.targets|;
    PlannedIds(core, intent);
    TargetsReachSize(core, q, n);
    assert core.position.entryQuantity == q;
    assert core.status.Closed? <==> ProtectiveFilled(core.fills) >= q;
    assert forall i :: 0 <= i < n ==> core.orders[i + 2].id == TargetId(intent, i);
  }

  lemma PlannedIds(core: State, intent: Intent)
    requires Lockstep(core, Plans.PlanOrders(intent))
    ensures EntryFirst(core.orders) && |core.orders| == |intent.targets| + 2
    ensures core.orders[0].quantity == intent.positionSize
    ensures core.orders[1].id == OrderId(intent.signalId, Role.Stop, 1)
    ensures forall i :: 0 <= i < |intent.targets| ==> core.orders[i + 2].id == TargetId(intent, i)
  {
    var planned := Plans.PlanOrders(intent);
    forall i | 0 <= i < |intent.targets|
      ensures core.orders[i + 2].id == TargetId(intent, i)
    {
      assert SameOrderTerms(core.orders[i + 2], planned[i + 2]);
    }
  }
}
