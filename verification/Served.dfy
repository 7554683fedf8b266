/** The numbers a decision serves, and how they reach the orders of an armed execution. */
module Served {
  import opened Wrappers
  import opened Decimal
  import opened ExecutionTypes
  import opened Decisions
  import opened Gate
  import opened Reducer
  import Lifecycles
  import Plans
  import Sides

  // ------------------------------------------------------------------ levels

  /** A level in whole cents is the amount to the nearest cent. */
  predicate IsCents(level: Option<int>, amount: real) {
    level.Some? && AbsReal(level.value as real / 100.0 - amount) <= 0.005
  }

  lemma PriceIsCents(x: real)
    ensures IsCents(Some(RoundPrice(x)), x)
  {
    PriceError(x, RoundPrice(x));
  }

  /** The stop lies against the direction and the targets with it, each at its distance from the entry. */
  predicate LevelsLie(l: Levels, long: bool, price: real, stop: real, tp1: real, tp2: real, tp3: real) {
    && IsCents(l.entry, price)
    && IsCents(l.stop, if long then price - stop else price + stop)
    && IsCents(l.tp1, if long then price + tp1 else price - tp1)
    && IsCents(l.tp2, if long then price + tp2 else price - tp2)
    && IsCents(l.tp3, if long then price + tp3 else price - tp3)
  }

  lemma DistancesLie(long: bool, price: real, stop: real, tp1: real, tp2: real, tp3: real)
    ensures LevelsLie(LevelsAt(long, price, stop, tp1, tp2, tp3), long, price, stop, tp1, tp2, tp3)
  {
    PriceIsCents(price);
    PriceIsCents(if long then price - stop else price + stop);
    PriceIsCents(if long then price + tp1 else price - tp1);
    PriceIsCents(if long then price + tp2 else price - tp2);
    PriceIsCents(if long then price + tp3 else price - tp3);
  }

  /** Each distance is its multiple of the range. */
  lemma LevelsAre(direction: Direction, price: real, atr: real, m: Multipliers)
    requires !direction.Flat? && atr > 0.0
    ensures LevelsLie(ComputeLevels(direction, Some(price), Some(atr), m), direction.Long?, price,
                      Reach(m.stop, atr), Reach(m.tp1, atr), Reach(m.tp2, atr), Reach(m.tp3, atr))
  {
    DistancesLie(direction.Long?, price, Reach(m.stop, atr), Reach(m.tp1, atr), Reach(m.tp2, atr), Reach(m.tp3, atr));
  }

  /** Exactly which levels there are. */
  lemma LevelsIff(direction: Direction, price: Option<real>, atr: Option<real>, m: Multipliers)
    ensures var l := ComputeLevels(direction, price, atr, m);
      && (l.entry.Some? <==> !direction.Flat? && price.Some?)
      && (l.stop.Some? <==> !direction.Flat? && price.Some? && atr.Some? && atr.value > 0.0)
      && l.stop.Some? == l.tp1.Some? == l.tp2.Some? == l.tp3.Some?
      && (l.entry.Some? ==> IsCents(l.entry, price.value))
  {
    if price.Some? { PriceIsCents(price.value); }
  }

  /** By default the stop is one and a half ranges away, and the targets once, twice and three times as far. */
  lemma DefaultLevelsAre(direction: Direction, price: real, atr: real)
    requires !direction.Flat? && atr > 0.0
    ensures LevelsLie(ComputeLevels(direction, Some(price), Some(atr), DEFAULT_MULTIPLIERS), direction.Long?, price,
                      1.5 * atr, 1.5 * atr, 3.0 * atr, 4.5 * atr)
  {
    DistancesLie(direction.Long?, price, 1.5 * atr, 1.5 * atr, 3.0 * atr, 4.5 * atr);
  }

  lemma HundredthsNear(x: real, rr: real)
    requires rr == Round(x * 100.0) as real / 100.0
    ensures AbsReal(rr - x) <= 0.005
  {
    RoundIsNearest(x * 100.0, 0);
  }

  /** There is a ratio of reward to risk exactly with the levels: tp1 over stop, to the hundredth; 0 without a stop. */
  lemma RewardIs(x: DecisionInputs)
    requires x.multipliers.stop >= 0.0 && x.multipliers.tp1 >= 0.0
    ensures var rr := BuildTradingDecision(x).rr;
      && (rr.Some? <==> Directional(x) && x.price.Some? && x.atr.Some? && x.atr.value > 0.0)
      && (rr.Some? && x.multipliers.stop == 0.0 ==> rr.value == 0.0)
      && (rr.Some? && x.multipliers.stop > 0.0 ==>
            AbsReal(rr.value - x.multipliers.tp1 / x.multipliers.stop) <= 0.005)
  {
    var rr, m := BuildTradingDecision(x).rr, x.multipliers;
    if rr.Some? && m.stop > 0.0 {
      RatioIsOfMultipliers(x);
      HundredthsNear(m.tp1 / m.stop, rr.value);
    } else if rr.Some? {
      assert Reach(m.stop, x.atr.value) == 0.0;
      RoundOfInteger(0);
    }
  }

  // ------------------------------------------------------------------ sizes

  /** What a size needs: a direction, a stop that lies away from the entry, and capital at risk. */
  predicate CanSize(x: DecisionInputs) {
    var l := BuildTradingDecision(x).levels;
    && l.entry.Some? && l.stop.Some? && l.entry.value != l.stop.value && x.risk.equity > 0.0 && x.risk.fraction > 0.0
  }

  /** Exactly when there is a size, and a notional with it. */
  lemma SizedIff(x: DecisionInputs)
    ensures var d := BuildTradingDecision(x);
      (d.sizing.size.Some? <==> CanSize(x)) && (d.sizing.notional.Some? <==> CanSize(x))
  {
    LevelsIff(x.direction, x.price, x.atr, x.multipliers);
  }

  /** The size is the quantity to eight decimals, the notional its worth to the cent. */
  predicate IsSized(sizing: Sizing, qty: real, worth: real) {
    IsCents(sizing.notional, worth)
    && sizing.size.Some? && AbsReal(sizing.size.value as real / 100_000_000.0 - qty) <= 0.000000005
  }

  lemma SizingOfIs(qty: real, price: real, worth: real)
    requires worth == qty * price
    ensures IsSized(SizingOf(qty, price), qty, worth)
  {
    PriceIsCents(worth);
    SizeError(qty, Round(qty * UNITS));
  }

  lemma NotionalIs(direction: Direction, entry: int, stop: int, risk: RiskContext, qty: real, price: real)
    requires !direction.Flat? && Distance(entry, stop) > 0.0 && risk.equity > 0.0 && risk.fraction > 0.0
    requires qty == Quantity(risk, Distance(entry, stop)) && price == entry as real / 100.0
    ensures ComputeSizing(direction, Some(entry), Some(stop), risk) == SizingOf(qty, price)
  {
  }

  /**
   * Behind a size and its notional is one quantity: it loses the risk budget over the distance to the stop, the
   * size is that quantity to eight decimals, and the notional is its worth at the entry to the cent.
   */
  lemma SizingIs(direction: Direction, entry: int, stop: int, risk: RiskContext)
      returns (qty: real, budget: real, distance: real, price: real, worth: real)
    requires !direction.Flat? && entry != stop && risk.equity > 0.0 && risk.fraction > 0.0
    ensures qty * distance == budget && budget == risk.equity * risk.fraction
    ensures distance == AbsReal((entry - stop) as real) / 100.0
    ensures worth == qty * price && price == entry as real / 100.0
    ensures IsSized(ComputeSizing(direction, Some(entry), Some(stop), risk), qty, worth)
  {
    distance, budget, price := Distance(entry, stop), risk.equity * risk.fraction, entry as real / 100.0;
    qty := Quantity(risk, distance);
    worth := qty * price;
    QuantityIs(risk, distance, budget);
    NotionalIs(direction, entry, stop, risk, qty, price);
    SizingOfIs(qty, price, worth);
  }

  lemma QuantityIs(risk: RiskContext, distance: real, budget: real)
    requires distance > 0.0 && budget == risk.equity * risk.fraction
    ensures Quantity(risk, distance) * distance == budget
  {
    DivideCompare(budget, distance, 0.0);
  }

  // ------------------------------------------------------------------ the intent

  /** A level in whole cents as the execution core holds it, in units of 1e-8. */
  function InUnits(level: Option<int>): Option<real> {
    match level case None => None case Some(cents) => Some(cents as real * 1_000_000.0)
  }

  lemma ToPriceIs(level: Option<int>)
    ensures ToPrice(level) == InUnits(level)
  {
  }

  lemma ThreeTargets(t1: Option<int>, t2: Option<int>, t3: Option<int>)
    requires t1.Some? == t2.Some? == t3.Some?
    ensures CollectTargets([t1, t2, t3])
      == if t1.None? then [] else [InUnits(t1).value, InUnits(t2).value, InUnits(t3).value]
  {
    assert CollectTargets([]) == [];
    TargetAhead(t3, []);
    TargetAhead(t2, [t3]);
    TargetAhead(t1, [t2, t3]);
    assert [t3] + [] == [t3] && [t2] + [t3] == [t2, t3] && [t1] + [t2, t3] == [t1, t2, t3];
  }

  lemma TargetAhead(t: Option<int>, rest: seq<Option<int>>)
    ensures CollectTargets([t] + rest) == (if t.None? then [] else [InUnits(t).value]) + CollectTargets(rest)
  {
    ToPriceIs(t);
    assert ([t] + rest)[1..] == rest;
  }

  /** The intent carries what the decision serves: levels, targets in order, and size. */
  lemma IntentServes(x: DecisionInputs, kill: bool, cfg: PlanConfig, readiness: Option<real>, mode: Mode, venue: Venue,
      now: int)
    ensures var d := BuildTradingDecision(x);
      var i := BuildIntent(d, kill, cfg, readiness, mode, venue, now);
      && i.signalId == x.signalId && i.direction == x.direction
      && i.entry == InUnits(d.levels.entry) && i.stop == InUnits(d.levels.stop)
      && i.positionSize == d.sizing.size && i.readinessScore == readiness
      && i.mode == mode && i.venue == venue && i.createdAt == now
      && i.targets == if d.levels.tp1.None? then []
                      else [InUnits(d.levels.tp1).value, InUnits(d.levels.tp2).value, InUnits(d.levels.tp3).value]
  {
    var d := BuildTradingDecision(x);
    LevelsIff(x.direction, x.price, x.atr, x.multipliers);
    ToPriceIs(d.levels.entry);
    ToPriceIs(d.levels.stop);
    ThreeTargets(d.levels.tp1, d.levels.tp2, d.levels.tp3);
  }

  // ------------------------------------------------------------------ the orders of an armed execution

  /** Stop, entry and the three targets in the order that the direction calls for. */
  predicate PricesInOrder(os: seq<Order>, long: bool) {
    && |os| == 5 && (forall i :: 0 <= i < 5 ==> os[i].price.Some?)
    && if long
       then os[1].price.value <= os[0].price.value <= os[2].price.value <= os[3].price.value <= os[4].price.value
       else os[1].price.value >= os[0].price.value >= os[2].price.value >= os[3].price.value >= os[4].price.value
  }

  lemma ServedPricesInOrder(os: seq<Order>, intent: Intent, l: Levels)
    requires Sides.ServedTerms(os, intent) && InOrder(intent.direction, l)
    requires intent.entry == InUnits(l.entry) && intent.stop == InUnits(l.stop)
    requires intent.targets == [InUnits(l.tp1).value, InUnits(l.tp2).value, InUnits(l.tp3).value]
    ensures PricesInOrder(os, intent.direction.Long?)
  {
    assert Sides.TargetTerms(os[2], intent, 0) && Sides.TargetTerms(os[3], intent, 1);
    assert Sides.TargetTerms(os[4], intent, 2);
  }

  lemma CreatedKeepsTerms(intent: Intent, kill: bool, healthy: bool, now: int, cs: seq<Command>)
    ensures Sides.ServedTerms(Run(Created(intent, kill, healthy, now), cs).orders, intent)
  {
    var front := Sides.CreatedIsRun(intent, kill, healthy, now);
    Lifecycles.RunConcat(InitState(intent, Some(Plans.PlanFor(intent))), front, cs);
    Sides.RunsKeepTerms(intent, front + cs);
  }

  /** The intent's levels are those of a decision, in units of the execution core. */
  predicate Carries(intent: Intent, l: Levels) {
    && intent.entry == InUnits(l.entry) && intent.stop == InUnits(l.stop)
    && l.tp1.Some? && l.tp2.Some? && l.tp3.Some?
    && intent.targets == [InUnits(l.tp1).value, InUnits(l.tp2).value, InUnits(l.tp3).value]
  }

  /** The entry is at the mark to the cent, the stop against the direction and the targets with it, in order. */
  ghost predicate AreServed(os: seq<Order>, direction: Direction, mark: real) {
    && PricesInOrder(os, direction.Long?)
    && AbsReal(os[0].price.value / 100_000_000.0 - mark) <= 0.005
    && (os[0].side.Buy? <==> direction.Long?) && forall i :: 1 <= i < 5 ==> os[i].side != os[0].side
  }

  lemma OrdersAreServed(intent: Intent, l: Levels, mark: real, kill: bool, healthy: bool, now: int, cs: seq<Command>)
    requires Carries(intent, l) && InOrder(intent.direction, l) && IsCents(l.entry, mark)
    ensures AreServed(Run(Created(intent, kill, healthy, now), cs).orders, intent.direction, mark)
  {
    CreatedKeepsTerms(intent, kill, healthy, now, cs);
    ServedPricesInOrder(Run(Created(intent, kill, healthy, now), cs).orders, intent, l);
  }

  /** What an armed execution shows of the inputs its intent was built from. */
  lemma ArmedIntent(x: DecisionInputs, intent: Intent, planKill: bool, cfg: PlanConfig, readiness: Option<real>,
      mode: Mode, venue: Venue, now: int)
    requires intent == BuildIntent(BuildTradingDecision(x), planKill, cfg, readiness, mode, venue, now)
    requires Plans.CheckSubmittable(intent).None? && Increasing(x.multipliers)
    ensures x.price.Some? && intent.direction == x.direction
    ensures Carries(intent, BuildTradingDecision(x).levels) && InOrder(x.direction, BuildTradingDecision(x).levels)
    ensures IsCents(BuildTradingDecision(x).levels.entry, x.price.value)
  {
    SubmittableIff(x, planKill, cfg, readiness, mode, venue, now);
    IntentServes(x, planKill, cfg, readiness, mode, venue, now);
    LevelsIff(x.direction, x.price, x.atr, x.multipliers);
    LevelsInOrder(x.direction, x.price, x.atr, x.multipliers);
  }

  /**
   * If an execution ever arms, then on that run its entry is at the mark to the cent, its stop against the direction
   * and its targets with it, in order, and protective orders are on the other side of the entry.
   */
  lemma ArmedOrdersAreServed(x: DecisionInputs, intent: Intent, planKill: bool, cfg: PlanConfig,
      readiness: Option<real>, mode: Mode, venue: Venue, at: int, kill: bool, healthy: bool, now: int, cs: seq<Command>)
    requires intent == BuildIntent(BuildTradingDecision(x), planKill, cfg, readiness, mode, venue, at)
    requires IsArmed(Run(Created(intent, kill, healthy, now), cs).status) && Increasing(x.multipliers)
    ensures x.price.Some?
    ensures AreServed(Run(Created(intent, kill, healthy, now), cs).orders, x.direction, x.price.value)
  {
    ArmedOnlyIfSubmittable(intent, kill, healthy, now, cs);
    ArmedIntent(x, intent, planKill, cfg, readiness, mode, venue, at);
    OrdersAreServed(intent, BuildTradingDecision(x).levels, x.price.value, kill, healthy, now, cs);
  }

  // ------------------------------------------------------------------ the defaults

  /** Under the defaults the gate asks for 75 percent confidence and data of at most three minutes. */
  lemma DefaultGateIff(x: DecisionInputs, kill: bool, readiness: Option<real>)
    requires x.multipliers == DEFAULT_MULTIPLIERS
    ensures GateOpen(x, kill, DEFAULT_PLAN_CONFIG, readiness) <==>
      && Directional(x) && HasLevels(x) && ControlOpen(x.control) && !kill && RiskOpen(x) && readiness.Some?
      && x.confidence >= 0.75
      && (x.createdAt.Some? ==> x.now - x.createdAt.value < 180_500)
      && (x.featureAt.Some? ==> x.now - x.featureAt.value < 180_500)
  {
    if Directional(x) && HasLevels(x) {
      RatioIsOfMultipliers(x);
      DivideCompare(1.5, 1.5, 1.0);
      RoundOfInteger(100);
    }
  }
}
