/** Exactly which fill sizes keep the half-step drift bound, for a list of fills and on whole runs. */
module DriftLimits {
  import opened Wrappers
  import opened Decimal
  import opened ExecutionTypes
  import opened Orders
  import opened Reducer
  import opened Lifecycles
  import opened Drift
  import Plans

  // ------------------------------------------------------------------ fills of given sizes

  /** The list has these sizes, or stops early. */
  predicate OfSizes(ts: seq<Trade>, xs: seq<real>) {
    |ts| <= |xs| && forall i :: 0 <= i < |ts| ==> ts[i].quantity == xs[i]
  }

  function AtZero(xs: seq<real>): seq<Trade> { seq(|xs|, i requires 0 <= i < |xs| => Trade(0.0, xs[i])) }

  /** Whatever the prices, fills of these sizes keep the bound after each of them. */
  ghost predicate KeepsDrift(o: Order, xs: seq<real>) {
    forall ts :: OfSizes(ts, xs) ==> WithinDrift(o, ts)
  }

  predicate Positive(xs: seq<real>) { forall i :: 0 <= i < |xs| ==> xs[i] > 0.0 }

  /** What an order holds, and so how its next fill is weighted, depends on the sizes alone. */
  lemma {:induction false} SizesDecide(o: Order, ts: seq<Trade>, us: seq<Trade>)
    requires |ts| == |us| && forall i :: 0 <= i < |ts| ==> ts[i].quantity == us[i].quantity
    ensures AfterFills(o, ts).filled == AfterFills(o, us).filled
    ensures AfterFills(o, ts).quantity == AfterFills(o, us).quantity
    ensures Steady(o, ts) <==> Steady(o, us)
    decreases |ts|
  {
    if ts != [] {
      SizesDecide(o, ts[..|ts| - 1], us[..|us| - 1]);
    }
  }

  lemma {:induction false} SteadyPrefix(o: Order, ts: seq<Trade>, n: nat)
    requires n <= |ts| && Steady(o, ts)
    ensures Steady(o, ts[..n])
    decreases |ts|
  {
    if n < |ts| {
      SteadyPrefix(o, ts[..|ts| - 1], n);
      assert ts[..|ts| - 1][..n] == ts[..n];
    } else {
      assert ts[..n] == ts;
    }
  }

  lemma SteadySizesKeepDrift(o: Order, xs: seq<real>, ts: seq<Trade>)
    requires Fresh(o) && Positive(xs) && Steady(o, AtZero(xs)) && OfSizes(ts, xs)
    ensures WithinDrift(o, ts)
  {
    SteadyPrefix(o, AtZero(xs), |ts|);
    SizesDecide(o, ts, AtZero(xs)[..|ts|]);
    AverageDrift(o, ts);
  }

  // ------------------------------------------------------------------ a fill that is weighted falsely

  /** Fills at price zero report and average to zero. */
  lemma {:induction false} ZeroPrices(o: Order, xs: seq<real>)
    requires Fresh(o) && Positive(xs)
    ensures Price(AfterFills(o, AtZero(xs))) == 0.0 && Exact(LotsOf(o, AtZero(xs))) == 0.0
    decreases |xs|
  {
    if xs != [] {
      var init, ts := xs[..|xs| - 1], AtZero(xs);
      ZeroPrices(o, init);
      assert ts[..|ts| - 1] == AtZero(init);
      FilledStaysInRange(o, AtZero(init));
      var t := Trade(0.0, xs[|xs| - 1]);
      assert ts == AtZero(init) + [t];
      LastLot(o, AtZero(init), t);
      ZeroPrice(AfterFills(o, AtZero(init)), t, o.updatedAt);
      ZeroExact(o, AtZero(init), t);
    }
  }

  lemma LastLot(o: Order, init: seq<Trade>, t: Trade)
    ensures var held, total := Held(AfterFills(o, init)), Held(AfterFills(o, init + [t]));
            && AfterFills(o, init + [t]) == ApplyFillToOrder(AfterFills(o, init), t.price, t.quantity, o.updatedAt)
            && Exact(LotsOf(o, init + [t])) ==
                 if total > 0.0 then Mean(Exact(LotsOf(o, init)), held, t.price, total) else 0.0
  {
    assert (init + [t])[..|init|] == init;
    var ls, l := LotsOf(o, init), Lot(t.price, Held(AfterFills(o, init)), Held(AfterFills(o, init + [t])));
    assert LotsOf(o, init + [t]) == ls + [l];
    assert (ls + [l])[..|ls|] == ls;
  }

  lemma ZeroPrice(f: Order, t: Trade, at: int)
    requires 0 <= f.filled && t.quantity > 0.0 && t.price == 0.0 && Price(f) == 0.0
    requires f.quantity.Some? ==> f.quantity.value > 0 && f.filled <= f.quantity.value
    ensures Price(ApplyFillToOrder(f, t.price, t.quantity, at)) == 0.0
  {
    OneFill(f, t, at);
    MeanOfZeros(Price(f), Held(f), t.price, FilledAfter(f, t.quantity));
  }

  lemma ZeroExact(o: Order, init: seq<Trade>, t: Trade)
    requires Exact(LotsOf(o, init)) == 0.0 && t.price == 0.0
    ensures Exact(LotsOf(o, init + [t])) == 0.0
  {
    LastLot(o, init, t);
    var total := Held(AfterFills(o, init + [t]));
    if total > 0.0 { MeanOfZeros(Exact(LotsOf(o, init)), Held(AfterFills(o, init)), t.price, total); }
  }

  lemma MeanOfZeros(prior: real, held: real, p: real, total: real)
    requires total > 0.0 && prior == p == 0.0
    ensures Mean(prior, held, p, total) == 0.0
  {
    DivideCompare(prior * held + p * (total - held), total, 0.0);
  }

  /** From a zero average, a lot at price p counts in proportion to its share. */
  lemma MeanOfZero(prior: real, held: real, p: real, total: real)
    requires total > 0.0 && prior == 0.0
    ensures Mean(prior, held, p, total) == Part(p, Share(held, total))
  {
    DivideCompare(total - held, total, 0.0);
    DivideCompare(p * (total - held), total, p * Share(held, total));
    assert p * Share(held, total) * total == p * (Share(held, total) * total);
  }

  /** What a share contributes at a price. */
  function Part(price: real, share: real): real { price * share }

  function Share(held: real, total: real): real
    requires total > 0.0
  {
    (total - held) / total
  }

  lemma NonZeroProduct(x: real, y: real)
    requires x != 0.0 && y != 0.0
    ensures x * y != 0.0
  {
  }

  lemma OtherMultiple(w: real, after: real, total: real, held: real)
    requires w * total == held > 0.0 && after != total
    ensures w * after != held
  {
    NonZeroProduct(w, after - total);
    assert w * (after - total) == w * after - w * total;
  }

  /** The share the code gives a lot and the share the lot has. */
  lemma SharesDiffer(held: real, after: real, total: real)
    requires held > 0.0 && after > 0.0 && total > 0.0 && after != total
    ensures Share(held, after) != Share(held, total)
  {
    var v := Share(held, total);
    DivideCompare(total - held, total, 1.0);
    DivideCompare(after - held, after, v);
    assert (1.0 - v) * total == total - v * total;
    assert (1.0 - v) * after == after - v * after;
    OtherMultiple(1.0 - v, after, total, held);
  }

  /** A price high enough to tell two different shares apart by more than k/2 after rounding. */
  lemma HighPrice(u: real, v: real, k: nat) returns (p: real)
    requires u != v
    ensures AbsReal(Round(Part(p, u)) as real - Part(p, v)) > 0.5 * k as real
  {
    var d := u - v;
    p := (k as real + 1.0) / d;
    assert p * d == k as real + 1.0;
    assert p * u - p * v == p * d;
    RoundIsNearest(Part(p, u), 0);
  }

  /** The shares of a falsely weighted lot: what the code takes it for and what it is. */
  lemma FalseShares(f: Order, x: real) returns (u: real, v: real)
    requires 0 <= f.filled && x > 0.0 && !TrueWeight(f, x)
    requires f.quantity.Some? ==> f.quantity.value > 0 && f.filled <= f.quantity.value
    ensures var after, total := FilledAfter(f, x), Round(FilledAfter(f, x)) as real;
            && u != v && after > 0.0 && total >= 0.0
            && u == Share(Held(f), after) && v == if total > 0.0 then Share(Held(f), total) else 0.0
  {
    var after := FilledAfter(f, x);
    var held, total := Held(f), Round(after) as real;
    RoundMonotone(held, after);
    RoundOfInteger(f.filled);
    u, v := Share(held, after), if total > 0.0 then Share(held, total) else 0.0;
    if held > 0.0 {
      SharesDiffer(held, after, total);
    } else {
      DivideCompare(after, after, 1.0);
    }
  }

  lemma Breaks(o: Order, ts: seq<Trade>, a: real, e: real, k: nat)
    requires |ts| == k && Price(AfterFills(o, ts)) == a && Exact(LotsOf(o, ts)) == e && AbsReal(a - e) > 0.5 * k as real
    ensures !WithinDrift(o, ts)
  {
  }

  /** After fills at price zero, one falsely weighted fill at a high price breaks the bound. */
  lemma FalseWeightBreaks(o: Order, xs: seq<real>, x: real) returns (ts: seq<Trade>)
    requires Fresh(o) && Positive(xs) && x > 0.0 && !TrueWeight(AfterFills(o, AtZero(xs)), x)
    ensures OfSizes(ts, xs + [x]) && !WithinDrift(o, ts)
  {
    var init := AtZero(xs);
    FilledStaysInRange(o, init);
    var u, v := FalseShares(AfterFills(o, init), x);
    var p := HighPrice(u, v, |xs| + 1);
    ts := init + [Trade(p, x)];
    PriceAfterZeros(o, xs, Trade(p, x), u, v);
    Breaks(o, ts, Round(Part(p, u)) as real, Part(p, v), |xs| + 1);
  }

  lemma PriceFromZero(f: Order, t: Trade, at: int, u: real)
    requires 0 <= f.filled && t.quantity > 0.0 && Price(f) == 0.0
    requires f.quantity.Some? ==> f.quantity.value > 0 && f.filled <= f.quantity.value
    requires FilledAfter(f, t.quantity) > 0.0 && u == Share(Held(f), FilledAfter(f, t.quantity))
    ensures Price(ApplyFillToOrder(f, t.price, t.quantity, at)) == Round(Part(t.price, u)) as real
  {
    OneFill(f, t, at);
    MeanOfZero(Price(f), Held(f), t.price, FilledAfter(f, t.quantity));
  }

  lemma ExactFromZero(o: Order, init: seq<Trade>, t: Trade, v: real)
    requires Exact(LotsOf(o, init)) == 0.0
    requires var held, total := Held(AfterFills(o, init)), Held(AfterFills(o, init + [t]));
             v == if total > 0.0 then Share(held, total) else 0.0
    ensures Exact(LotsOf(o, init + [t])) == Part(t.price, v)
  {
    LastLot(o, init, t);
    var total := Held(AfterFills(o, init + [t]));
    if total > 0.0 { MeanOfZero(Exact(LotsOf(o, init)), Held(AfterFills(o, init)), t.price, total); }
  }

  lemma PriceAfterZeros(o: Order, xs: seq<real>, t: Trade, u: real, v: real)
    requires Fresh(o) && Positive(xs) && t.quantity > 0.0
    requires var f := AfterFills(o, AtZero(xs));
             var after, total := FilledAfter(f, t.quantity), Round(FilledAfter(f, t.quantity)) as real;
             && after > 0.0 && total >= 0.0
             && u == Share(Held(f), after) && v == if total > 0.0 then Share(Held(f), total) else 0.0
    ensures var ts := AtZero(xs) + [t];
            Price(AfterFills(o, ts)) == Round(Part(t.price, u)) as real && Exact(LotsOf(o, ts)) == Part(t.price, v)
  {
    ZeroPrices(o, xs);
    FilledStaysInRange(o, AtZero(xs));
    LastLot(o, AtZero(xs), t);
    PriceFromZero(AfterFills(o, AtZero(xs)), t, o.updatedAt, u);
    ExactFromZero(o, AtZero(xs), t, v);
  }

  lemma {:induction false} UnsteadySizesBreak(o: Order, xs: seq<real>) returns (ts: seq<Trade>)
    requires Fresh(o) && Positive(xs) && !Steady(o, AtZero(xs))
    ensures OfSizes(ts, xs) && !WithinDrift(o, ts)
    decreases |xs|
  {
    var init := xs[..|xs| - 1];
    assert AtZero(xs)[..|xs| - 1] == AtZero(init);
    if Steady(o, AtZero(init)) {
      ts := FalseWeightBreaks(o, init, xs[|xs| - 1]);
      assert init + [xs[|xs| - 1]] == xs;
    } else {
      ts := UnsteadySizesBreak(o, init);
    }
  }

  /**
   * The exact condition: fills of given sizes keep the drift bound whatever their prices, exactly
   * when each of them is weighted with what the order then holds, or is the first it holds.
   */
  lemma DriftIff(o: Order, xs: seq<real>)
    requires Fresh(o) && Positive(xs)
    ensures KeepsDrift(o, xs) <==> Steady(o, AtZero(xs))
  {
    if Steady(o, AtZero(xs)) {
      forall ts | OfSizes(ts, xs) ensures WithinDrift(o, ts) { SteadySizesKeepDrift(o, xs, ts); }
    } else {
      var ts := UnsteadySizesBreak(o, xs);
    }
  }

  // ------------------------------------------------------------------ fills of one size

  function Same(x: real, n: nat): seq<real> { seq(n, _ => x) }

  predicate AllOfSize(ts: seq<Trade>, x: real) { forall i :: 0 <= i < |ts| ==> ts[i].quantity == x }

  /** The size is a whole number of units, or two fills of it use the order up. */
  predicate SteadySize(quantity: Option<int>, x: real) {
    Whole(x) || (quantity.Some? && quantity.value as real <= Round(x) as real + x)
  }

  /** An order that two fills of size x use up: it holds nothing yet, or at least what one of them leaves. */
  predicate UsedUp(quantity: int, filled: int, x: real) {
    filled == 0 || Min(quantity, Round(x)) <= filled
  }

  lemma SecondFillUsesUp(f: Order, x: real)
    requires f.quantity.Some? && 0 <= f.filled <= f.quantity.value && f.quantity.value > 0 && x > 0.0
    requires f.quantity.value as real <= Round(x) as real + x && UsedUp(f.quantity.value, f.filled, x)
    ensures TrueWeight(f, x) && UsedUp(f.quantity.value, Round(FilledAfter(f, x)), x)
  {
    var q := f.quantity.value;
    RoundOfInteger(q);
    RoundIsNearest(x, 0);
    if f.filled == 0 {
      ClampedFirst(q, x);
    } else {
      assert FilledAfter(f, x) == q as real;
    }
  }

  lemma ClampedFirst(q: int, x: real)
    requires q > 0 && x > 0.0 && q as real <= Round(x) as real + x
    ensures Round(MinReal(q as real, x)) == Min(q, Round(x)) > 0
  {
    RoundOfInteger(q);
    if x <= q as real { RoundMonotone(x, q as real); } else { RoundMonotone(q as real, x); }
    if x < 0.5 { RoundBracket(x, 0); } else { assert (x + 0.5).Floor >= 1; }
  }

  lemma {:induction false} UsingUpIsSteady(o: Order, x: real, n: nat)
    requires Fresh(o) && x > 0.0 && o.quantity.Some? && o.quantity.value as real <= Round(x) as real + x
    ensures var ts := AtZero(Same(x, n)); Steady(o, ts) && UsedUp(o.quantity.value, AfterFills(o, ts).filled, x)
  {
    if n > 0 {
      UsingUpIsSteady(o, x, n - 1);
      assert AtZero(Same(x, n))[..n - 1] == AtZero(Same(x, n - 1));
      FilledStaysInRange(o, AtZero(Same(x, n - 1)));
      SecondFillUsesUp(AfterFills(o, AtZero(Same(x, n - 1))), x);
    }
  }

  lemma SteadySizeIsSteady(o: Order, x: real, n: nat)
    requires Fresh(o) && x > 0.0 && SteadySize(o.quantity, x)
    ensures Steady(o, AtZero(Same(x, n)))
  {
    if Whole(x) {
      WholeFillsAreSteady(o, AtZero(Same(x, n)));
    } else {
      UsingUpIsSteady(o, x, n);
    }
  }

  /** Any other size fails at its first fill, when that rounds to nothing, or at its second. */
  lemma OtherSizeIsUnsteady(o: Order, x: real)
    requires Fresh(o) && x > 0.0 && !SteadySize(o.quantity, x)
    ensures !Steady(o, AtZero(Same(x, 2)))
  {
    var ts := AtZero(Same(x, 2));
    assert ts == [Trade(0.0, x), Trade(0.0, x)];
    assert ts[..1] == [Trade(0.0, x)] && ts[..1][..0] == [];
    assert AfterFills(o, []) == o;
    var first := AfterFills(o, ts[..1]);
    assert first == ApplyFillToOrder(o, 0.0, x, o.updatedAt);
    RoundIsNearest(x, 0);
    assert FilledAfter(o, x) == x;
    assert first.filled == Round(x);
    if x >= 0.5 {
      assert FilledAfter(first, x) == first.filled as real + x;
      RoundShift(first.filled, x);
      NotWhole(x);
    } else {
      RoundBracket(x, 0);
    }
  }

  lemma NotWhole(x: real)
    requires x > 0.0 && !Whole(x)
    ensures Round(x) as real != x
  {
  }

  /** Whatever the prices and the number of fills, fills of size x keep the bound. */
  ghost predicate KeepsDriftAt(o: Order, x: real) {
    forall ts :: AllOfSize(ts, x) ==> WithinDrift(o, ts)
  }

  /** For an order without a quantity these are the whole sizes; a sized order also takes what it clamps. */
  lemma SizeDriftIff(o: Order, x: real)
    requires Fresh(o) && x > 0.0
    ensures KeepsDriftAt(o, x) <==> SteadySize(o.quantity, x)
  {
    if SteadySize(o.quantity, x) {
      forall ts | AllOfSize(ts, x) ensures WithinDrift(o, ts) {
        SteadySizeIsSteady(o, x, |ts|);
        SteadySizesKeepDrift(o, Same(x, |ts|), ts);
      }
    } else {
      var ts := OtherSizeBreaks(o, x);
    }
  }

  lemma OtherSizeBreaks(o: Order, x: real) returns (ts: seq<Trade>)
    requires Fresh(o) && x > 0.0 && !SteadySize(o.quantity, x)
    ensures |ts| <= 2 && AllOfSize(ts, x) && !WithinDrift(o, ts)
  {
    OtherSizeIsUnsteady(o, x);
    ts := UnsteadySizesBreak(o, Same(x, 2));
  }

  // ------------------------------------------------------------------ whole runs

  /** An intent without a size that passes the submit gate: its entry takes every fill. */
  function Unsized(): Intent {
    Intent("s", Direction.Long, Some(1.0), Some(1.0), [1.0], None, Action.Buy, true, true, Some(1.0),
           Mode.Paper, Venue.Simulated, 0)
  }

  function EntryOf(intent: Intent): OrderId { OrderId(intent.signalId, Role.Entry, 0) }

  function FillOf(id: OrderId, t: Trade): Command { Command.Fill(0, id, t.price, t.quantity) }

  function FillsOf(id: OrderId, ts: seq<Trade>): seq<Command> {
    seq(|ts|, i requires 0 <= i < |ts| => FillOf(id, ts[i]))
  }

  /** A live execution whose unsized entry is working. */
  ghost predicate Working(s: State, id: OrderId) {
    && (s.status.Acknowledged? || s.status.PartiallyFilled?)
    && s.orders != [] && s.orders[0].id == id && s.orders[0].role == Role.Entry
    && s.orders[0].quantity.None? && EntryStatus(s.status, s.orders[0].status)
  }

  lemma UnsizedTakesFill(s: State, id: OrderId, t: Trade)
    requires Working(s, id) && t.quantity > 0.0
    ensures ReduceExecution(s, FillOf(id, t)).ok && Working(ReduceExecution(s, FillOf(id, t)).state, id)
  {
    assert IndexOfOrder(s.orders, s.orders[0].id) == Some(0);
  }

  function Planned0(): State { InitState(Unsized(), Some(Plans.PlanFor(Unsized()))) }

  lemma AcceptedAppend(s: State, cs: seq<Command>, c: Command, id: OrderId)
    ensures Accepted(s, cs + [c], id) == Accepted(s, cs, id)
            + if c.Fill? && c.orderId == id && ReduceExecution(Run(s, cs), c).ok then [Trade(c.price, c.quantity)]
                else []
  {
    assert (cs + [c])[..|cs|] == cs;
  }

  lemma {:induction false} NothingAccepted(s: State, cs: seq<Command>, id: OrderId)
    requires forall i :: 0 <= i < |cs| ==> !cs[i].Fill?
    ensures Accepted(s, cs, id) == []
    decreases |cs|
  {
    if cs != [] { NothingAccepted(s, cs[..|cs| - 1], id); }
  }

  lemma GoingWorks()
    ensures Working(Run(Planned0(), GoingOut()), EntryOf(Unsized()))
    ensures Accepted(Planned0(), GoingOut(), EntryOf(Unsized())) == []
  {
    GoesOut(Unsized());
    RunsAreLockstep(Unsized(), GoingOut());
    AcknowledgedWorks(Run(Planned0(), GoingOut()), Unsized());
    NothingAccepted(Planned0(), GoingOut(), EntryOf(Unsized()));
  }

  lemma AcknowledgedWorks(s: State, intent: Intent)
    requires Lockstep(s, Plans.PlanOrders(intent)) && s.status.Acknowledged? && intent.positionSize.None?
    ensures Working(s, EntryOf(intent))
  {
    assert SameOrderTerms(s.orders[0], Plans.PlanOrders(intent)[0]);
  }

  lemma FillsOfAppend(cs: seq<Command>, id: OrderId, init: seq<Trade>, t: Trade)
    ensures cs + FillsOf(id, init + [t]) == cs + FillsOf(id, init) + [FillOf(id, t)]
  {
  }

  lemma {:induction false} FillsAreAccepted(s: State, cs: seq<Command>, id: OrderId, ts: seq<Trade>)
    requires Working(Run(s, cs), id) && Accepted(s, cs, id) == []
    requires forall i :: 0 <= i < |ts| ==> ts[i].quantity > 0.0
    ensures Working(Run(s, cs + FillsOf(id, ts)), id)
    ensures Accepted(s, cs + FillsOf(id, ts), id) == ts
    decreases |ts|
  {
    if ts == [] {
      assert cs + FillsOf(id, []) == cs;
    } else {
      var init, t := ts[..|ts| - 1], ts[|ts| - 1];
      assert ts == init + [t];
      FillsAreAccepted(s, cs, id, init);
      FillsOfAppend(cs, id, init, t);
      OneMoreAccepted(s, cs + FillsOf(id, init), id, init, t);
    }
  }

  lemma OneMoreAccepted(s: State, cs: seq<Command>, id: OrderId, ts: seq<Trade>, t: Trade)
    requires Working(Run(s, cs), id) && Accepted(s, cs, id) == ts && t.quantity > 0.0
    ensures Working(Run(s, cs + [FillOf(id, t)]), id)
    ensures Accepted(s, cs + [FillOf(id, t)], id) == ts + [t]
  {
    RunAppend(s, cs, FillOf(id, t));
    AcceptedAppend(s, cs, FillOf(id, t), id);
    UnsizedTakesFill(Run(s, cs), id, t);
  }

  predicate FillsOfSize(cs: seq<Command>, x: real) {
    forall i :: 0 <= i < |cs| && cs[i].Fill? ==> cs[i].quantity == x
  }

  ghost predicate OrderWithinDrift(intent: Intent, cs: seq<Command>, i: nat) {
    var s0, planned := InitState(intent, Some(Plans.PlanFor(intent))), Plans.PlanOrders(intent);
    && i < |planned| && i < |Run(s0, cs).orders|
    && DriftBounded(Run(s0, cs).orders[i], planned[i], Accepted(s0, cs, planned[i].id))
  }

  predicate FreshOrder(intent: Intent, i: nat) {
    i < |Plans.PlanOrders(intent)| && Fresh(Plans.PlanOrders(intent)[i])
  }

  /** On every run whose fills all have size x, every order's average is within the bound. */
  ghost predicate RunsKeepDrift(x: real) {
    forall intent, cs, i: nat :: FillsOfSize(cs, x) && FreshOrder(intent, i) ==> OrderWithinDrift(intent, cs, i)
  }

  lemma {:induction false} AcceptedOfSize(s0: State, cs: seq<Command>, id: OrderId, x: real)
    requires FillsOfSize(cs, x)
    ensures AllOfSize(Accepted(s0, cs, id), x)
    decreases |cs|
  {
    if cs != [] { AcceptedOfSize(s0, cs[..|cs| - 1], id, x); }
  }

  lemma WholeRunDrift(intent: Intent, cs: seq<Command>, i: nat, x: real)
    requires Whole(x) && FillsOfSize(cs, x) && FreshOrder(intent, i)
    ensures OrderWithinDrift(intent, cs, i)
  {
    var s0, p := InitState(intent, Some(Plans.PlanFor(intent))), Plans.PlanOrders(intent)[i];
    AcceptedOfSize(s0, cs, p.id, x);
    WholeFillsAreSteady(p, Accepted(s0, cs, p.id));
    RunDrift(intent, cs, i);
  }

  lemma FollowerDrifts(o: Order, p: Order, ts: seq<Trade>)
    requires SameProgress(o, AfterFills(p, ts)) && !WithinDrift(p, ts)
    ensures !DriftBounded(o, p, ts)
  {
  }

  /** Off the grid two accepted fills of an unsized entry, at most, drift further. */
  lemma OffGridRunDrifts(x: real) returns (ts: seq<Trade>)
    requires x > 0.0 && !Whole(x)
    ensures |ts| <= 2 && AllOfSize(ts, x)
    ensures Accepted(Planned0(), GoingOut() + FillsOf(EntryOf(Unsized()), ts), EntryOf(Unsized())) == ts
    ensures FreshOrder(Unsized(), 0)
    ensures !OrderWithinDrift(Unsized(), GoingOut() + FillsOf(EntryOf(Unsized()), ts), 0)
  {
    var id, p := EntryOf(Unsized()), Plans.PlanOrders(Unsized())[0];
    ts := OtherSizeBreaks(p, x);
    var cs := GoingOut() + FillsOf(id, ts);
    GoingWorks();
    FillsAreAccepted(Planned0(), GoingOut(), id, ts);
    RunsFollowFills(Unsized(), cs);
    assert p.id == id;
    FollowerDrifts(Run(Planned0(), cs).orders[0], p, ts);
  }

  lemma WholeSizeKeepsDrift(x: real)
    requires Whole(x)
    ensures RunsKeepDrift(x)
  {
    forall intent, cs, i: nat | FillsOfSize(cs, x) && FreshOrder(intent, i) ensures OrderWithinDrift(intent, cs, i) {
      WholeRunDrift(intent, cs, i, x);
    }
  }

  lemma OneRunBreaksDrift(x: real, intent: Intent, cs: seq<Command>, i: nat)
    requires FillsOfSize(cs, x) && FreshOrder(intent, i) && !OrderWithinDrift(intent, cs, i)
    ensures !RunsKeepDrift(x)
  {
  }

  /** A fill size keeps the drift bound on all runs exactly when it is a whole number of units. */
  lemma RunDriftIff(x: real)
    requires x > 0.0
    ensures RunsKeepDrift(x) <==> Whole(x)
  {
    if Whole(x) {
      WholeSizeKeepsDrift(x);
    } else {
      var ts := OffGridRunDrifts(x);
      OneRunBreaksDrift(x, Unsized(), GoingOut() + FillsOf(EntryOf(Unsized()), ts), 0);
    }
  }
}
