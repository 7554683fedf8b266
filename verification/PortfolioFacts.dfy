/** What each derived fact is in terms of the items, whatever their order. */
module PortfolioFacts {
  import opened Wrappers
  import opened Decimal
  import opened Grouping
  import opened Portfolio

  // ------------------------------------------------------------------ which items are open

  /** What an item needs to expose capital: a direction, every gate open, and fresh data. */
  predicate Tradable(i: Item, kill: bool, cfg: Config) {
    && (i.direction == LONG || i.direction == SHORT)
    && i.overall == ACTIONABLE && i.canTrade && !kill && !i.controlBlocked && !i.riskBlocked
    && (i.signalAge.Some? ==> i.signalAge.value <= cfg.signalStaleSeconds)
    && (i.featureAge.Some? ==> i.featureAge.value <= cfg.featureStaleSeconds)
  }

  predicate Aside(i: Item) { i.direction == FLAT || i.overall == NO_TRADE }

  predicate HeldBack(i: Item, kill: bool) {
    !Aside(i) && (kill || i.controlBlocked || i.riskBlocked || i.overall == BLOCKED_OVERALL)
  }

  /** Which state an item is in: the four exclude each other and leave out none. */
  lemma StateIff(i: Item, kill: bool, cfg: Config)
    ensures ToPosition(i, kill, cfg).state == OPEN <==> Tradable(i, kill, cfg)
    ensures ToPosition(i, kill, cfg).state == STAND_ASIDE <==> Aside(i)
    ensures ToPosition(i, kill, cfg).state == BLOCKED <==> HeldBack(i, kill)
    ensures ToPosition(i, kill, cfg).state == WAITING <==>
      !Aside(i) && !HeldBack(i, kill) && !Tradable(i, kill, cfg)
  {
  }

  lemma OpenIff(i: Item, kill: bool, cfg: Config)
    ensures IsOpen(ToPosition(i, kill, cfg)) <==> Tradable(i, kill, cfg)
  {
    StateIff(i, kill, cfg);
  }

  // ------------------------------------------------------------------ sums over sorted and selected positions

  lemma {:induction false} SumSame<T>(xs: seq<T>, v: T -> int, w: T -> int)
    requires forall i :: 0 <= i < |xs| ==> v(xs[i]) == w(xs[i])
    ensures Sum(xs, v) == Sum(xs, w)
  {
    if xs != [] { SumSame(xs[..|xs| - 1], v, w); }
  }

  lemma {:induction false} SumSelected(ps: seq<Position>, keep: Position -> bool, w: Position -> int)
    ensures Sum(Select(ps, keep), w) == Sum(ps, p => if keep(p) then w(p) else 0)
  {
    if ps != [] {
      var front, last := ps[..|ps| - 1], ps[|ps| - 1];
      SumSelected(front, keep, w);
      var kept := Select(front, keep);
      assert (kept + [last])[..|kept|] == kept;
    }
  }

  lemma {:induction false} CountSelected(ps: seq<Position>, keep: Position -> bool)
    ensures |Select(ps, keep)| == Sum(ps, p => OneIf(keep(p)))
  {
    if ps != [] { CountSelected(ps[..|ps| - 1], keep); }
  }

  lemma {:induction false} SumOfPositions(items: seq<Item>, kill: bool, cfg: Config, w: Position -> int)
    ensures Sum(ToPositions(items, kill, cfg), w) == Sum(items, i => w(ToPosition(i, kill, cfg)))
  {
    if items != [] {
      var front := items[..|items| - 1];
      SumOfPositions(front, kill, cfg, w);
      assert ToPositions(items, kill, cfg)[..|items| - 1] == ToPositions(front, kill, cfg);
    }
  }

  /** A sum over the sorted positions is a sum over the items. */
  lemma SumOfItems(items: seq<Item>, kill: bool, cfg: Config, w: Position -> int, v: Item -> int)
    requires forall i :: v(i) == w(ToPosition(i, kill, cfg))
    ensures Sum(Sort(ToPositions(items, kill, cfg)), w) == Sum(items, v)
  {
    var ps := ToPositions(items, kill, cfg);
    SumPermutes(Sort(ps), ps, w);
    SumOfPositions(items, kill, cfg, w);
    SumSame(items, i => w(ToPosition(i, kill, cfg)), v);
  }

  lemma OpenSum(items: seq<Item>, kill: bool, cfg: Config, w: Position -> int, v: Item -> int)
    requires forall i :: v(i) == if Tradable(i, kill, cfg) then w(ToPosition(i, kill, cfg)) else 0
    ensures Sum(Select(Sort(ToPositions(items, kill, cfg)), IsOpen), w) == Sum(items, v)
  {
    var keep: Position -> bool := IsOpen;
    var weight := (p: Position) => if keep(p) then w(p) else 0;
    SumSelected(Sort(ToPositions(items, kill, cfg)), keep, w);
    forall i ensures v(i) == weight(ToPosition(i, kill, cfg)) { OpenIff(i, kill, cfg); }
    SumOfItems(items, kill, cfg, weight, v);
  }

  lemma StateCount(items: seq<Item>, kill: bool, cfg: Config, state: State, v: Item -> int)
    requires forall i :: v(i) == OneIf(ToPosition(i, kill, cfg).state == state)
    ensures |Select(Sort(ToPositions(items, kill, cfg)), (p: Position) => p.state == state)| == Sum(items, v)
  {
    var ps := Sort(ToPositions(items, kill, cfg));
    var keep := (p: Position) => p.state == state;
    CountSelected(ps, keep);
    SumSame(ps, p => OneIf(keep(p)), (p: Position) => OneIf(p.state == state));
    SumOfItems(items, kill, cfg, (p: Position) => OneIf(p.state == state), v);
  }

  // ------------------------------------------------------------------ exposure

  /** The amount, if it counts and is known. */
  function AmountIf(counts: bool, amount: Option<int>): int { if counts && amount.Some? then amount.value else 0 }

  /** The notional of an open item, above zero for LONG and below for SHORT. */
  function SignedNotional(i: Item, kill: bool, cfg: Config): int {
    AmountIf(Tradable(i, kill, cfg) && i.direction == LONG, i.notional)
      - AmountIf(Tradable(i, kill, cfg) && i.direction == SHORT, i.notional)
  }

  lemma {:induction false} SumDifference<T>(xs: seq<T>, v: T -> int, w: T -> int, d: T -> int)
    requires forall x :: d(x) == v(x) - w(x)
    ensures Sum(xs, d) == Sum(xs, v) - Sum(xs, w)
  {
    if xs != [] { SumDifference(xs[..|xs| - 1], v, w, d); }
  }

  lemma SidedIs(items: seq<Item>, kill: bool, cfg: Config)
    ensures var f := DeriveFacts(items, kill, cfg);
      && f.longExposure == Sum(items, i => AmountIf(Tradable(i, kill, cfg) && i.direction == LONG, i.notional))
      && f.shortExposure == Sum(items, i => AmountIf(Tradable(i, kill, cfg) && i.direction == SHORT, i.notional))
      && f.riskUsed == Sum(items, i => AmountIf(Tradable(i, kill, cfg), i.maxLoss))
  {
    OpenSum(items, kill, cfg, (p: Position) => Sided(p, LONG),
      i => AmountIf(Tradable(i, kill, cfg) && i.direction == LONG, i.notional));
    OpenSum(items, kill, cfg, (p: Position) => Sided(p, SHORT),
      i => AmountIf(Tradable(i, kill, cfg) && i.direction == SHORT, i.notional));
    OpenSum(items, kill, cfg, Loss, i => AmountIf(Tradable(i, kill, cfg), i.maxLoss));
  }

  /**
   * Long and short exposure are the notionals of the open items on each side; gross is their sum and net their
   * difference, so net is the sum of the notionals signed by their side. Risk is the sum of the open items' losses.
   */
  lemma ExposureIs(items: seq<Item>, kill: bool, cfg: Config)
    ensures var f := DeriveFacts(items, kill, cfg);
      && f.longExposure == Sum(items, i => AmountIf(Tradable(i, kill, cfg) && i.direction == LONG, i.notional))
      && f.shortExposure == Sum(items, i => AmountIf(Tradable(i, kill, cfg) && i.direction == SHORT, i.notional))
      && f.grossExposure + f.netExposure == 2 * f.longExposure
      && f.grossExposure - f.netExposure == 2 * f.shortExposure
      && f.netExposure == Sum(items, i => SignedNotional(i, kill, cfg))
      && f.riskUsed == Sum(items, i => AmountIf(Tradable(i, kill, cfg), i.maxLoss))
  {
    SidedIs(items, kill, cfg);
    SumDifference(items, i => AmountIf(Tradable(i, kill, cfg) && i.direction == LONG, i.notional),
      i => AmountIf(Tradable(i, kill, cfg) && i.direction == SHORT, i.notional), i => SignedNotional(i, kill, cfg));
  }

  // ------------------------------------------------------------------ capital and risk

  /** Whole cents nearest to an amount, never above or below it by more than half a cent. */
  predicate Nearest(cents: int, amount: real) { AbsReal(cents as real - amount) <= 0.5 }

  lemma LeftOver(equity: real, used: real, cents: int)
    requires cents == Round(if equity > used then equity - used else 0.0)
    ensures cents >= 0
    ensures used <= equity ==> Nearest(cents, equity - used)
    ensures used >= equity ==> cents == 0
  {
    var left := if equity > used then equity - used else 0.0;
    RoundIsNearest(left, 0);
    RoundMonotone(0.0, left);
    RoundOfInteger(0);
  }

  lemma CapitalIs(ps: seq<Position>, equity: real, stale: int, low: int, kill: bool, cfg: Config)
    ensures var f := FactsOf(ps, equity, stale, low, kill, cfg);
      && f.equity == equity && f.capitalAvailable >= 0
      && (f.grossExposure as real <= equity ==> Nearest(f.capitalAvailable, equity - f.grossExposure as real))
      && (f.grossExposure as real >= equity ==> f.capitalAvailable == 0)
  {
    var f := FactsOf(ps, equity, stale, low, kill, cfg);
    LeftOver(equity, f.grossExposure as real, f.capitalAvailable);
  }

  /** The risk budget is the set percentage of the equity, to the nearest cent. */
  lemma BudgetIs(equity: real, cfg: Config)
    ensures Nearest(RiskBudget(equity, cfg), equity * cfg.maxPortfolioRiskPct / 100.0)
  {
    RoundIsNearest(equity * cfg.maxPortfolioRiskPct / 100.0, 0);
  }

  /** The equity that counts: the highest an item assumes, or the default if none assumes any. */
  lemma EquityIs(items: seq<Item>, kill: bool, cfg: Config)
    ensures var e := DeriveFacts(items, kill, cfg).equity;
      && (forall i :: i in items && i.equity.Some? && i.equity.value > 0.0 ==> i.equity.value <= e)
      && ((exists i :: i in items && i.equity == Some(e) && e > 0.0)
          || (e == cfg.defaultEquity && forall i :: i in items && i.equity.Some? ==> i.equity.value <= 0.0))
  {
    EquitiesIsMax(items);
  }

  /** What is left of capital never goes below zero and completes the equity. */
  lemma CapitalCompletes(items: seq<Item>, kill: bool, cfg: Config)
    ensures var f := DeriveFacts(items, kill, cfg);
      && f.capitalAvailable >= 0
      && (f.grossExposure as real <= f.equity ==> Nearest(f.capitalAvailable, f.equity - f.grossExposure as real))
      && (f.grossExposure as real >= f.equity ==> f.capitalAvailable == 0)
  {
    CapitalIs(Sort(ToPositions(items, kill, cfg)), DeriveFacts(items, kill, cfg).equity, StaleCount(items, cfg),
      LowQualityCount(items, cfg), kill, cfg);
  }

  /** What is left of the risk budget never goes below zero and completes it. */
  lemma RiskCompletes(items: seq<Item>, kill: bool, cfg: Config)
    ensures var f := DeriveFacts(items, kill, cfg);
      && f.riskBudget == RiskBudget(f.equity, cfg) && f.riskRemaining >= 0
      && (f.riskUsed <= f.riskBudget ==> f.riskUsed + f.riskRemaining == f.riskBudget)
      && (f.riskUsed >= f.riskBudget ==> f.riskRemaining == 0)
  {
  }

  // ------------------------------------------------------------------ counts

  lemma {:induction false} OnesAdd(items: seq<Item>, a: Item -> int, b: Item -> int, c: Item -> int, d: Item -> int)
    requires forall i :: a(i) + b(i) + c(i) + d(i) == 1
    ensures Sum(items, a) + Sum(items, b) + Sum(items, c) + Sum(items, d) == |items|
  {
    if items != [] { OnesAdd(items[..|items| - 1], a, b, c, d); }
  }

  lemma SortKeepsSize(ps: seq<Position>)
    ensures |Sort(ps)| == |ps|
  {
    assert |multiset(Sort(ps))| == |multiset(ps)|;
  }

  lemma OpenCount(items: seq<Item>, kill: bool, cfg: Config)
    ensures |Select(Sort(ToPositions(items, kill, cfg)), IsOpen)| == Sum(items, i => OneIf(Tradable(i, kill, cfg)))
  {
    var keep: Position -> bool := IsOpen;
    var weight := (p: Position) => OneIf(keep(p));
    CountSelected(Sort(ToPositions(items, kill, cfg)), keep);
    forall i ensures OneIf(Tradable(i, kill, cfg)) == weight(ToPosition(i, kill, cfg)) { OpenIff(i, kill, cfg); }
    SumOfItems(items, kill, cfg, weight, i => OneIf(Tradable(i, kill, cfg)));
  }

  lemma ReadyCount(items: seq<Item>, kill: bool, cfg: Config)
    ensures |Select(Select(Sort(ToPositions(items, kill, cfg)), IsOpen), (p: Position) => p.band == READY)|
      == Sum(items, i => OneIf(Tradable(i, kill, cfg) && i.band == READY))
  {
    var open, keep := Select(Sort(ToPositions(items, kill, cfg)), IsOpen), (p: Position) => p.band == READY;
    CountSelected(open, keep);
    OpenSum(items, kill, cfg, p => OneIf(keep(p)), i => OneIf(Tradable(i, kill, cfg) && i.band == READY));
  }

  lemma HeldBackCount(items: seq<Item>, kill: bool, cfg: Config)
    ensures |Select(Sort(ToPositions(items, kill, cfg)), (p: Position) => p.state == BLOCKED)|
      == Sum(items, i => OneIf(HeldBack(i, kill)))
  {
    forall i ensures OneIf(HeldBack(i, kill)) == OneIf(ToPosition(i, kill, cfg).state == BLOCKED) {
      StateIff(i, kill, cfg);
    }
    StateCount(items, kill, cfg, BLOCKED, i => OneIf(HeldBack(i, kill)));
  }

  lemma AsideCount(items: seq<Item>, kill: bool, cfg: Config)
    ensures |Select(Sort(ToPositions(items, kill, cfg)), (p: Position) => p.state == STAND_ASIDE)|
      == Sum(items, i => OneIf(Aside(i)))
  {
    forall i ensures OneIf(Aside(i)) == OneIf(ToPosition(i, kill, cfg).state == STAND_ASIDE) { StateIff(i, kill, cfg); }
    StateCount(items, kill, cfg, STAND_ASIDE, i => OneIf(Aside(i)));
  }

  predicate Waits(i: Item, kill: bool, cfg: Config) { !Aside(i) && !HeldBack(i, kill) && !Tradable(i, kill, cfg) }

  lemma WaitingCount(items: seq<Item>, kill: bool, cfg: Config)
    ensures |Select(Sort(ToPositions(items, kill, cfg)), (p: Position) => p.state == WAITING)|
      == Sum(items, i => OneIf(Waits(i, kill, cfg)))
  {
    forall i ensures OneIf(Waits(i, kill, cfg)) == OneIf(ToPosition(i, kill, cfg).state == WAITING) {
      StateIff(i, kill, cfg);
    }
    StateCount(items, kill, cfg, WAITING, i => OneIf(Waits(i, kill, cfg)));
  }

  /** Every state count is the number of items in that state, and together they count every item once. */
  lemma CountsAre(items: seq<Item>, kill: bool, cfg: Config)
    ensures var f := DeriveFacts(items, kill, cfg);
      && f.openCount == Sum(items, i => OneIf(Tradable(i, kill, cfg)))
      && f.flatCount == Sum(items, i => OneIf(Aside(i)))
      && f.blockedCount == Sum(items, i => OneIf(HeldBack(i, kill)))
      && f.openCount + f.waitingCount + f.blockedCount + f.flatCount == f.totalCount == |items|
      && f.readyCount == Sum(items, i => OneIf(Tradable(i, kill, cfg) && i.band == READY))
  {
    OpenCount(items, kill, cfg);
    AsideCount(items, kill, cfg);
    HeldBackCount(items, kill, cfg);
    WaitingCount(items, kill, cfg);
    ReadyCount(items, kill, cfg);
    SortKeepsSize(ToPositions(items, kill, cfg));
    forall i
      ensures OneIf(Tradable(i, kill, cfg)) + OneIf(Waits(i, kill, cfg)) + OneIf(HeldBack(i, kill)) + OneIf(Aside(i))
        == 1
    {
      StateIff(i, kill, cfg);
    }
    OnesAdd(items, i => OneIf(Tradable(i, kill, cfg)), i => OneIf(Waits(i, kill, cfg)), i => OneIf(HeldBack(i, kill)),
      i => OneIf(Aside(i)));
  }

  // ------------------------------------------------------------------ the positions themselves

  /** What a position carries over from its item. */
  predicate Mirrors(p: Position, i: Item) {
    && p.signalId == i.signalId && p.symbol == i.symbol && p.direction == i.direction && p.confidence == i.confidence
    && p.notional == i.notional && p.maxLoss == i.maxLoss && p.riskPct == i.riskPct && p.readiness == i.readiness
    && p.band == i.band && p.regime == i.regime
  }

  ghost predicate ShowsAll(ps: seq<Position>, items: seq<Item>) {
    forall i :: i in items ==> exists p :: p in ps && Mirrors(p, i)
  }

  ghost predicate ShowsOnly(ps: seq<Position>, items: seq<Item>) {
    forall p :: p in ps ==> exists i :: i in items && Mirrors(p, i)
  }

  lemma UnsortedShows(items: seq<Item>, kill: bool, cfg: Config)
    ensures ShowsAll(ToPositions(items, kill, cfg), items)
  {
    var qs := ToPositions(items, kill, cfg);
    forall i | i in items ensures exists p :: p in qs && Mirrors(p, i) {
      var k :| 0 <= k < |items| && items[k] == i;
      assert qs[k] in qs && Mirrors(qs[k], i);
    }
  }

  lemma UnsortedShowsOnly(items: seq<Item>, kill: bool, cfg: Config)
    ensures ShowsOnly(ToPositions(items, kill, cfg), items)
  {
    var qs := ToPositions(items, kill, cfg);
    forall p | p in qs ensures exists i :: i in items && Mirrors(p, i) {
      var k :| 0 <= k < |qs| && qs[k] == p;
      assert items[k] in items && Mirrors(p, items[k]);
    }
  }

  lemma InPermuted(ps: seq<Position>, qs: seq<Position>, p: Position)
    requires multiset(ps) == multiset(qs)
    ensures p in ps <==> p in qs
  {
    assert p in ps <==> p in multiset(ps);
    assert p in qs <==> p in multiset(qs);
  }

  lemma PermutedShows(ps: seq<Position>, qs: seq<Position>, items: seq<Item>)
    requires multiset(ps) == multiset(qs) && ShowsAll(qs, items)
    ensures ShowsAll(ps, items)
  {
    forall i | i in items ensures exists p :: p in ps && Mirrors(p, i) {
      var p :| p in qs && Mirrors(p, i);
      InPermuted(ps, qs, p);
    }
  }

  lemma PermutedShowsOnly(ps: seq<Position>, qs: seq<Position>, items: seq<Item>)
    requires multiset(ps) == multiset(qs) && ShowsOnly(qs, items)
    ensures ShowsOnly(ps, items)
  {
    forall p | p in ps ensures exists i :: i in items && Mirrors(p, i) { InPermuted(ps, qs, p); }
  }

  /** The positions are the items, one for one, by symbol and then by signal id. */
  lemma PositionsMirror(items: seq<Item>, kill: bool, cfg: Config)
    ensures var ps := DeriveFacts(items, kill, cfg).positions;
      && |ps| == |items| && ShowsAll(ps, items) && ShowsOnly(ps, items)
      && forall a, b :: 0 <= a < b < |ps| ==>
           ps[a].symbol < ps[b].symbol || (ps[a].symbol == ps[b].symbol && ps[a].signalId <= ps[b].signalId)
  {
    var qs := ToPositions(items, kill, cfg);
    SortKeepsSize(qs);
    UnsortedShows(items, kill, cfg);
    UnsortedShowsOnly(items, kill, cfg);
    PermutedShows(Sort(qs), qs, items);
    PermutedShowsOnly(Sort(qs), qs, items);
  }

  /** An item that is out of date although it has a direction, and one whose data quality is known to be low. */
  lemma QualityCountsAre(items: seq<Item>, kill: bool, cfg: Config)
    ensures var f := DeriveFacts(items, kill, cfg);
      && f.staleCount == Sum(items, (i: Item) => OneIf(i.direction != FLAT
           && !((i.signalAge.Some? ==> i.signalAge.value <= cfg.signalStaleSeconds)
                && (i.featureAge.Some? ==> i.featureAge.value <= cfg.featureStaleSeconds))))
      && f.lowDqCount == Sum(items, (i: Item) => OneIf(i.dqScore.Some? && i.dqScore.value < cfg.minDqScore))
  {
    SumSame(items, (i: Item) => OneIf(i.direction != FLAT && IsStale(i, cfg)), (i: Item) => OneIf(i.direction != FLAT
           && !((i.signalAge.Some? ==> i.signalAge.value <= cfg.signalStaleSeconds)
                && (i.featureAge.Some? ==> i.featureAge.value <= cfg.featureStaleSeconds))));
  }

  // ------------------------------------------------------------------ shares and selections

  /** A share of a positive whole in percent, to the nearest hundredth; of nothing it is 0. */
  predicate IsPercent(pct: real, part: real, whole: real) {
    if whole > 0.0 then AbsReal(pct - part / whole * 100.0) <= 0.005 else pct == 0.0
  }

  lemma PercentIs(part: real, whole: real)
    ensures IsPercent(Percent(part, whole), part, whole)
  {
    if whole > 0.0 {
      HundredthsOf(part / whole * 100.0);
    }
  }

  lemma HundredthsOf(x: real)
    ensures AbsReal(Round(x * 100.0) as real / 100.0 - x) <= 0.005
  {
    RoundIsNearest(x * 100.0, 0);
  }

  /** Capital and risk in use are given as shares of the equity. */
  lemma SharesAre(items: seq<Item>, kill: bool, cfg: Config)
    ensures var f := DeriveFacts(items, kill, cfg);
      && IsPercent(f.capitalPct, f.grossExposure as real, f.equity)
      && IsPercent(f.riskUsedPct, f.riskUsed as real, f.equity)
  {
    var f := DeriveFacts(items, kill, cfg);
    PercentIs(f.grossExposure as real, f.equity);
    PercentIs(f.riskUsed as real, f.equity);
  }

  lemma {:induction false} SelectIs(ps: seq<Position>, keep: Position -> bool, p: Position)
    ensures p in Select(ps, keep) <==> p in ps && keep(p)
  {
    if ps != [] {
      SelectIs(ps[..|ps| - 1], keep, p);
      assert p in ps <==> p in ps[..|ps| - 1] || p == ps[|ps| - 1];
    }
  }

  /** Which positions are listed as open and as directional. */
  lemma SelectionsAre(items: seq<Item>, kill: bool, cfg: Config, p: Position)
    ensures var f := DeriveFacts(items, kill, cfg);
      && f.kill == kill && |f.open| == f.openCount
      && (p in f.open <==> p in f.positions && p.state == OPEN)
      && (p in f.directional <==> p in f.positions && (p.direction == LONG || p.direction == SHORT))
  {
    var ps := DeriveFacts(items, kill, cfg).positions;
    SelectIs(ps, IsOpen, p);
    SelectIs(ps, (q: Position) => q.direction != FLAT, p);
  }
}
