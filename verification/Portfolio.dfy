/** The portfolio facts of packages/portfolio-intelligence. Money is counted in cents. */
module Portfolio {
  import opened Wrappers
  import opened Decimal
  import opened Grouping

  /** Symbols and signal ids are opaque names of which only the order matters. */
  type Name = int

  datatype Direction = LONG | SHORT | FLAT
  datatype Overall = ACTIONABLE | NO_TRADE | BLOCKED_OVERALL | OTHER_OVERALL
  datatype State = OPEN | WAITING | BLOCKED | STAND_ASIDE
  datatype Band = READY | OTHER_BAND

  /** What the served decision and plan of one candidate contribute. */
  datatype Item = Item(
    signalId: Name, symbol: Name, direction: Direction, overall: Overall, controlBlocked: bool, riskBlocked: bool,
    signalAge: Option<real>, featureAge: Option<real>, equity: Option<real>, confidence: real,
    notional: Option<int>, maxLoss: Option<int>, riskPct: Option<real>, regime: Name,
    canTrade: bool, readiness: real, band: Band, dqScore: Option<real>)

  datatype Config = Config(
    defaultEquity: real, maxPortfolioRiskPct: real, signalStaleSeconds: real, featureStaleSeconds: real,
        minDqScore: real)

  datatype Position = Position(
    signalId: Name, symbol: Name, direction: Direction, state: State, confidence: real,
    notional: Option<int>, maxLoss: Option<int>, riskPct: Option<real>, readiness: real, band: Band, regime: Name)

  predicate Exceeds(age: Option<real>, bound: real) { age.Some? && age.value > bound }

  predicate IsStale(item: Item, cfg: Config) {
    Exceeds(item.signalAge, cfg.signalStaleSeconds) || Exceeds(item.featureAge, cfg.featureStaleSeconds)
  }

  function Classify(item: Item, kill: bool, cfg: Config): State {
    if item.direction == FLAT || item.overall == NO_TRADE then STAND_ASIDE
    else if kill || item.controlBlocked || item.riskBlocked || item.overall == BLOCKED_OVERALL then BLOCKED
    else if item.canTrade && item.overall == ACTIONABLE && !IsStale(item, cfg) then OPEN
    else WAITING
  }

  function ToPosition(item: Item, kill: bool, cfg: Config): Position {
    Position(item.signalId, item.symbol, item.direction, Classify(item, kill, cfg), item.confidence,
             item.notional, item.maxLoss, item.riskPct, item.readiness, item.band, item.regime)
  }

  function ToPositions(items: seq<Item>, kill: bool, cfg: Config): (ps: seq<Position>)
    ensures |ps| == |items| && forall i :: 0 <= i < |items| ==> ps[i] == ToPosition(items[i], kill, cfg)
  {
    seq(|items|, i requires 0 <= i < |items| => ToPosition(items[i], kill, cfg))
  }

  // ------------------------------------------------------------------ the sort: symbol, then signal id

  predicate Before(a: Position, b: Position) {
    a.symbol < b.symbol || (a.symbol == b.symbol && a.signalId <= b.signalId)
  }

  predicate SameKey(a: Position, b: Position) { a.symbol == b.symbol && a.signalId == b.signalId }

  predicate Sorted(ps: seq<Position>) { forall i, j :: 0 <= i < j < |ps| ==> Before(ps[i], ps[j]) }

  lemma Upto(front: seq<Position>, p: Position, last: Position, qs: seq<Position>)
    requires multiset(qs) == multiset(front) + multiset{p}
    requires Before(p, last) && forall q :: q in front ==> Before(q, last)
    ensures forall i :: 0 <= i < |qs| ==> Before(qs[i], last)
  {
    forall i | 0 <= i < |qs| ensures Before(qs[i], last) {
      assert qs[i] in multiset(qs);
    }
  }

  /** The positions with one key, in the order they come. */
  function OfKey(ps: seq<Position>, symbol: Name, id: Name): seq<Position> {
    if ps == [] then []
    else
      var front, last := OfKey(ps[..|ps| - 1], symbol, id), ps[|ps| - 1];
      if last.symbol == symbol && last.signalId == id then front + [last] else front
  }

  lemma OfKeyAppend(ps: seq<Position>, p: Position, symbol: Name, id: Name)
    ensures OfKey(ps + [p], symbol, id) ==
      OfKey(ps, symbol, id) + if p.symbol == symbol && p.signalId == id then [p] else []
  {
    assert (ps + [p])[..|ps|] == ps;
  }

  function Insert(ps: seq<Position>, p: Position): (qs: seq<Position>)
    requires Sorted(ps)
    ensures Sorted(qs) && multiset(qs) == multiset(ps) + multiset{p}
    ensures forall x, y :: OfKey(qs, x, y) == OfKey(ps + [p], x, y)
  {
    if ps == [] || Before(ps[|ps| - 1], p) then ps + [p]
    else
      var front, last := ps[..|ps| - 1], ps[|ps| - 1];
      assert ps == front + [last];
      var qs := Insert(front, p);
      Upto(front, p, last, qs);
      Passes(front, last, p, qs);
      qs + [last]
  }

  /** Going before an element with a later key changes the order of no equals. */
  lemma Passes(front: seq<Position>, last: Position, p: Position, qs: seq<Position>)
    requires !SameKey(last, p) && forall x, y :: OfKey(qs, x, y) == OfKey(front + [p], x, y)
    ensures forall x, y :: OfKey(qs + [last], x, y) == OfKey(front + [last] + [p], x, y)
  {
    forall x, y ensures OfKey(qs + [last], x, y) == OfKey(front + [last] + [p], x, y) {
      OfKeyAppend(qs, last, x, y);
      OfKeyAppend(front, p, x, y);
      OfKeyAppend(front, last, x, y);
      OfKeyAppend(front + [last], p, x, y);
    }
  }

  /** The stable sort of the source: ordered by key, nothing lost, and equals in the order they came. */
  function Sort(ps: seq<Position>): (qs: seq<Position>)
    ensures Sorted(qs) && multiset(qs) == multiset(ps)
    ensures forall x, y :: OfKey(qs, x, y) == OfKey(ps, x, y)
  {
    if ps == [] then []
    else
      var front, last := ps[..|ps| - 1], ps[|ps| - 1];
      assert ps == front + [last];
      AppendsToBoth(Sort(front), front, last);
      Insert(Sort(front), last)
  }

  lemma AppendsToBoth(qs: seq<Position>, ps: seq<Position>, p: Position)
    requires forall x, y :: OfKey(qs, x, y) == OfKey(ps, x, y)
    ensures forall x, y :: OfKey(qs + [p], x, y) == OfKey(ps + [p], x, y)
  {
    forall x, y ensures OfKey(qs + [p], x, y) == OfKey(ps + [p], x, y) {
      OfKeyAppend(qs, p, x, y);
      OfKeyAppend(ps, p, x, y);
    }
  }

  // ------------------------------------------------------------------ the facts

  function Select(ps: seq<Position>, keep: Position -> bool): seq<Position> {
    if ps == [] then []
    else
      var front, last := Select(ps[..|ps| - 1], keep), ps[|ps| - 1];
      if keep(last) then front + [last] else front
  }

  function CentsOf(x: Option<int>): int { if x.Some? then x.value else 0 }

  function Notional(p: Position): int { CentsOf(p.notional) }

  function Loss(p: Position): int { CentsOf(p.maxLoss) }

  function OneIf(b: bool): int { if b then 1 else 0 }

  function Equities(items: seq<Item>): Option<real> {
    if items == [] then None
    else
      var front, e := Equities(items[..|items| - 1]), items[|items| - 1].equity;
      if e.None? || e.value <= 0.0 then front
      else if front.None? || front.value < e.value then e
      else front
  }

  datatype Facts = Facts(
    kill: bool, positions: seq<Position>, open: seq<Position>, directional: seq<Position>,
    openCount: int, waitingCount: int, blockedCount: int, flatCount: int, readyCount: int, totalCount: int,
    staleCount: int, lowDqCount: int, equity: real,
    longExposure: int, shortExposure: int, grossExposure: int, netExposure: int,
    capitalAvailable: int, capitalPct: real, riskUsed: int, riskBudget: int, riskRemaining: int, riskUsedPct: real)

  predicate IsOpen(p: Position) { p.state == OPEN }

  function Sided(p: Position, side: Direction): int { if p.direction == side then Notional(p) else 0 }

  /** A percentage, on the grid of hundredths of a percent. */
  function Percent(part: real, whole: real): real {
    if whole > 0.0 then Round(part / whole * 100.0 * 100.0) as real / 100.0 else 0.0
  }

  function StaleCount(items: seq<Item>, cfg: Config): int {
    Sum(items, (i: Item) => OneIf(i.direction != FLAT && IsStale(i, cfg)))
  }

  function LowQualityCount(items: seq<Item>, cfg: Config): int {
    Sum(items, (i: Item) => OneIf(i.dqScore.Some? && i.dqScore.value < cfg.minDqScore))
  }

  function DeriveFacts(items: seq<Item>, kill: bool, cfg: Config): Facts {
    var equities := Equities(items);
    FactsOf(Sort(ToPositions(items, kill, cfg)), if equities.Some? then equities.value else cfg.defaultEquity,
            StaleCount(items, cfg), LowQualityCount(items, cfg), kill, cfg)
  }

  /** The share of the equity that may be at risk at once. */
  function RiskBudget(equity: real, cfg: Config): int { Round(equity * cfg.maxPortfolioRiskPct / 100.0) }

  function FactsOf(positions: seq<Position>, equity: real, stale: int, lowQuality: int, kill: bool,
      cfg: Config): Facts
  {
    var open := Select(positions, IsOpen);
    var long := Sum(open, (p: Position) => Sided(p, LONG));
    var short := Sum(open, (p: Position) => Sided(p, SHORT));
    var risk := Sum(open, Loss);
    var budget := RiskBudget(equity, cfg);
    Facts(
      kill, positions, open, Select(positions, (p: Position) => p.direction != FLAT),
      |open|, |Select(positions, (p: Position) => p.state == WAITING)|,
      |Select(positions, (p: Position) => p.state == BLOCKED)|,
      |Select(positions, (p: Position) => p.state == STAND_ASIDE)|,
      |Select(open, (p: Position) => p.band == READY)|, |positions|,
      stale, lowQuality, equity, long, short, long + short, long - short,
      Round(if equity > (long + short) as real then equity - (long + short) as real else 0.0),
      Percent((long + short) as real, equity),
      risk, budget, Max(0, budget - risk), Percent(risk as real, equity))
  }

  // ------------------------------------------------------------------ order independence

  /** Positions with the same key are the same. */
  ghost predicate TiesEqual(ps: seq<Position>) { forall p, q :: p in ps && q in ps && SameKey(p, q) ==> p == q }

  /** Two sorted lists of the same positions end with the same one. */
  lemma LastIsUnique(ps: seq<Position>, qs: seq<Position>)
    requires Sorted(ps) && Sorted(qs) && multiset(ps) == multiset(qs) && TiesEqual(ps) && ps != []
    ensures qs != [] && ps[|ps| - 1] == qs[|qs| - 1]
  {
    var m, n := |ps| - 1, |qs| - 1;
    assert ps[m] in multiset(qs);
    assert qs[n] in multiset(ps);
    var i :| 0 <= i < |qs| && qs[i] == ps[m];
    var j :| 0 <= j < |ps| && ps[j] == qs[n];
    assert i < n ==> Before(qs[i], qs[n]);
    assert j < m ==> Before(ps[j], ps[m]);
    assert ps[j] in ps && ps[m] in ps;
  }

  lemma {:induction false} SortedIsUnique(ps: seq<Position>, qs: seq<Position>)
    requires Sorted(ps) && Sorted(qs) && multiset(ps) == multiset(qs) && TiesEqual(ps)
    ensures ps == qs
  {
    if ps == [] {
      assert |multiset(qs)| == 0;
    } else {
      var n := |qs| - 1;
      LastIsUnique(ps, qs);
      Removed(ps, qs, n);
      assert qs[..n] + qs[n + 1..] == qs[..n];
      SortedIsUnique(ps[..|ps| - 1], qs[..n]);
    }
  }

  lemma {:induction false} PositionsPermute(items: seq<Item>, others: seq<Item>, kill: bool, cfg: Config)
    requires multiset(items) == multiset(others)
    ensures multiset(ToPositions(items, kill, cfg)) == multiset(ToPositions(others, kill, cfg))
  {
    if items == [] {
      assert |multiset(others)| == 0;
    } else {
      var n := |items| - 1;
      assert items[n] in multiset(others);
      var i :| 0 <= i < |others| && others[i] == items[n];
      var rest := others[..i] + others[i + 1..];
      Removed(items, others, i);
      PositionsPermute(items[..n], rest, kill, cfg);
      var p := ToPosition(items[n], kill, cfg);
      assert ToPositions(items, kill, cfg) == ToPositions(items[..n], kill, cfg) + [p];
      PositionsRemoved(others, i, kill, cfg);
    }
  }

  lemma PositionsRemoved(items: seq<Item>, i: nat, kill: bool, cfg: Config)
    requires i < |items|
    ensures multiset(ToPositions(items, kill, cfg)) ==
      multiset(ToPositions(items[..i] + items[i + 1..], kill, cfg)) + multiset{ToPosition(items[i], kill, cfg)}
  {
    var a, b := items[..i], items[i + 1..];
    assert items == a + [items[i]] + b;
    PositionsConcat(a + [items[i]], b, kill, cfg);
    PositionsConcat(a, [items[i]], kill, cfg);
    PositionsConcat(a, b, kill, cfg);
    assert ToPositions([items[i]], kill, cfg) == [ToPosition(items[i], kill, cfg)];
    Middle(ToPositions(a, kill, cfg), ToPosition(items[i], kill, cfg), ToPositions(b, kill, cfg));
  }

  lemma PositionsConcat(a: seq<Item>, b: seq<Item>, kill: bool, cfg: Config)
    ensures ToPositions(a + b, kill, cfg) == ToPositions(a, kill, cfg) + ToPositions(b, kill, cfg)
  {
  }

  /** An equity is the answer if it is listed, positive, and no listed one exceeds it. */
  lemma {:induction false} EquitiesIsMax(items: seq<Item>)
    ensures var e := Equities(items);
      && (e.None? ==> forall i :: i in items ==> i.equity.None? || i.equity.value <= 0.0)
      && (e.Some? ==> e.value > 0.0 && (exists i :: i in items && i.equity == e)
                      && forall i :: i in items && i.equity.Some? ==> i.equity.value <= e.value)
  {
    if items != [] {
      var front, last := items[..|items| - 1], items[|items| - 1];
      EquitiesIsMax(front);
      assert forall i :: i in items <==> i in front || i == last;
    }
  }

  lemma EquitiesPermute(items: seq<Item>, others: seq<Item>)
    requires multiset(items) == multiset(others)
    ensures Equities(items) == Equities(others)
  {
    assert forall i :: i in items <==> i in multiset(items);
    assert forall i :: i in others <==> i in multiset(others);
    EquitiesIsMax(items);
    EquitiesIsMax(others);
  }

  predicate SameItemKey(a: Item, b: Item) { a.symbol == b.symbol && a.signalId == b.signalId }

  /** Items with the same symbol and signal id become the same position. */
  ghost predicate TiesAgree(items: seq<Item>, kill: bool, cfg: Config) {
    forall a, b :: a in items && b in items && SameItemKey(a, b)
        ==> ToPosition(a, kill, cfg) == ToPosition(b, kill, cfg)
  }

  lemma TiesAreEqual(items: seq<Item>, kill: bool, cfg: Config)
    requires TiesAgree(items, kill, cfg)
    ensures TiesEqual(Sort(ToPositions(items, kill, cfg)))
  {
    var ps := ToPositions(items, kill, cfg);
    forall p, q | p in Sort(ps) && q in Sort(ps) && SameKey(p, q) ensures p == q {
      assert p in multiset(ps) && q in multiset(ps);
      var i, j :| 0 <= i < |ps| && ps[i] == p && 0 <= j < |ps| && ps[j] == q;
      assert SameItemKey(items[i], items[j]);
    }
  }

  lemma SortPermutes(items: seq<Item>, others: seq<Item>, kill: bool, cfg: Config)
    requires multiset(items) == multiset(others) && TiesAgree(items, kill, cfg)
    ensures Sort(ToPositions(items, kill, cfg)) == Sort(ToPositions(others, kill, cfg))
  {
    PositionsPermute(items, others, kill, cfg);
    TiesAreEqual(items, kill, cfg);
    SortedIsUnique(Sort(ToPositions(items, kill, cfg)), Sort(ToPositions(others, kill, cfg)));
  }

  lemma CountsPermute(items: seq<Item>, others: seq<Item>, cfg: Config)
    requires multiset(items) == multiset(others)
    ensures StaleCount(items, cfg) == StaleCount(others, cfg)
    ensures LowQualityCount(items, cfg) == LowQualityCount(others, cfg)
  {
    SumPermutes(items, others, (i: Item) => OneIf(i.direction != FLAT && IsStale(i, cfg)));
    SumPermutes(items, others, (i: Item) => OneIf(i.dqScore.Some? && i.dqScore.value < cfg.minDqScore));
  }

  /** Permuting the input leaves every derived fact unchanged, and so everything computed from the facts. */
  lemma FactsIgnoreOrder(items: seq<Item>, others: seq<Item>, kill: bool, cfg: Config)
    requires multiset(items) == multiset(others) && TiesAgree(items, kill, cfg)
    ensures DeriveFacts(items, kill, cfg) == DeriveFacts(others, kill, cfg)
  {
    SortPermutes(items, others, kill, cfg);
    EquitiesPermute(items, others);
    CountsPermute(items, others, cfg);
  }

  lemma {:induction false} OfKeyStarts(p: Position, ps: seq<Position>)
    ensures OfKey([p] + ps, p.symbol, p.signalId) != [] && OfKey([p] + ps, p.symbol, p.signalId)[0] == p
  {
    if ps == [] {
      assert [p] + [] == [p] && [p][..0] == [];
    } else {
      OfKeyStarts(p, ps[..|ps| - 1]);
      assert [p] + ps == [p] + ps[..|ps| - 1] + [ps[|ps| - 1]];
      OfKeyAppend([p] + ps[..|ps| - 1], ps[|ps| - 1], p.symbol, p.signalId);
    }
  }

  /** The sort keeps the input order of equals, so of two unequal ones the first given comes first. */
  lemma FirstComesFirst(a: Item, b: Item, rest: seq<Item>, kill: bool, cfg: Config)
    requires SameItemKey(a, b) && ToPosition(a, kill, cfg) != ToPosition(b, kill, cfg)
    ensures DeriveFacts([a, b] + rest, kill, cfg).positions != DeriveFacts([b, a] + rest, kill, cfg).positions
  {
    var p, q, ps := ToPosition(a, kill, cfg), ToPosition(b, kill, cfg), ToPositions(rest, kill, cfg);
    assert ToPositions([a, b] + rest, kill, cfg) == [p] + ([q] + ps);
    assert ToPositions([b, a] + rest, kill, cfg) == [q] + ([p] + ps);
    OfKeyStarts(p, [q] + ps);
    OfKeyStarts(q, [p] + ps);
    var one, other := Sort([p] + ([q] + ps)), Sort([q] + ([p] + ps));
    assert OfKey(one, p.symbol, p.signalId)[0] != OfKey(other, p.symbol, p.signalId)[0];
  }

  lemma TakenOut(items: seq<Item>, a: Item) returns (rest: seq<Item>)
    requires a in items
    ensures multiset(items) == multiset(rest) + multiset{a}
    ensures forall b :: b in items && b != a ==> b in rest
  {
    var i :| 0 <= i < |items| && items[i] == a;
    rest := items[..i] + items[i + 1..];
    assert items == items[..i] + [a] + items[i + 1..];
  }

  lemma ToFront(items: seq<Item>, a: Item, b: Item) returns (rest: seq<Item>)
    requires a in items && b in items && a != b
    ensures multiset([a, b] + rest) == multiset(items) == multiset([b, a] + rest)
  {
    var front := TakenOut(items, a);
    rest := TakenOut(front, b);
  }

  /** The facts of every order of the items are the same. */
  ghost predicate OrderIndependent(items: seq<Item>, kill: bool, cfg: Config) {
    forall others :: multiset(others) == multiset(items) ==> SameFacts(others, items, kill, cfg)
  }

  predicate SameFacts(others: seq<Item>, items: seq<Item>, kill: bool, cfg: Config) {
    DeriveFacts(others, kill, cfg) == DeriveFacts(items, kill, cfg)
  }

  lemma UnequalTiesShow(items: seq<Item>, kill: bool, cfg: Config, a: Item, b: Item)
    requires a in items && b in items && SameItemKey(a, b) && ToPosition(a, kill, cfg) != ToPosition(b, kill, cfg)
    ensures !OrderIndependent(items, kill, cfg)
  {
    var rest := ToFront(items, a, b);
    FirstComesFirst(a, b, rest, kill, cfg);
    TwoOrdersDiffer(items, [a, b] + rest, [b, a] + rest, kill, cfg);
  }

  lemma TwoOrdersDiffer(items: seq<Item>, us: seq<Item>, ws: seq<Item>, kill: bool, cfg: Config)
    requires multiset(us) == multiset(items) == multiset(ws)
    requires DeriveFacts(us, kill, cfg).positions != DeriveFacts(ws, kill, cfg).positions
    ensures !OrderIndependent(items, kill, cfg)
  {
    assert !SameFacts(us, items, kill, cfg) || !SameFacts(ws, items, kill, cfg);
  }

  /** The order of the items shows exactly when two with one symbol and signal id give different positions. */
  lemma OrderIndependentIff(items: seq<Item>, kill: bool, cfg: Config)
    ensures OrderIndependent(items, kill, cfg) <==> TiesAgree(items, kill, cfg)
  {
    if TiesAgree(items, kill, cfg) {
      forall others | multiset(others) == multiset(items) ensures SameFacts(others, items, kill, cfg) {
        FactsIgnoreOrder(items, others, kill, cfg);
      }
    } else {
      var a, b :| a in items && b in items && SameItemKey(a, b) && ToPosition(a, kill, cfg) != ToPosition(b, kill, cfg);
      UnequalTiesShow(items, kill, cfg, a, b);
    }
  }
}
