/** Exposure groups and allocations, their agreement, and the bounds on concentration. */
module Exposure {
  import opened Wrappers
  import opened Decimal
  import opened Grouping
  import opened Concentration
  import opened Portfolio
  import opened PortfolioViews

  // ------------------------------------------------------------------ exposure.ts: group

  function LiveNotional(p: Position): int { if p.state == OPEN then Notional(p) else 0 }

  function One(p: Position): int { 1 }

  function Missing(p: Position): int { OneIf(p.state == OPEN && p.notional.None?) }

  datatype Tally = Tally(notional: int, count: int, missing: bool)

  function TallyOf<K(==)>(ps: seq<Position>, key: Position -> K, k: K): Tally {
    Tally(TotalOf(ps, key, LiveNotional, k), TotalOf(ps, key, One, k), TotalOf(ps, key, Missing, k) > 0)
  }

  ghost predicate Grouped<K(!new)>(keys: seq<K>, groups: map<K, Tally>, ps: seq<Position>, key: Position -> K) {
    && keys == KeysOf(ps, key)
    && (forall k :: k in groups <==> k in keys)
    && (forall k :: k in groups ==> groups[k] == TallyOf(ps, key, k))
  }

  lemma {:induction false} MissingIsCount<K>(ps: seq<Position>, key: Position -> K, k: K)
    ensures TotalOf(ps, key, Missing, k) >= 0
  {
    if ps != [] { MissingIsCount(ps[..|ps| - 1], key, k); }
  }

  lemma GroupCounts<K(!new)>(keys: seq<K>, groups: map<K, Tally>, ps: seq<Position>, key: Position -> K, p: Position)
    requires Grouped(keys, groups, ps, key)
    ensures var had := if key(p) in groups then groups[key(p)] else Tally(0, 0, false);
      Grouped(if key(p) in keys then keys else keys + [key(p)],
              groups[key(p) := Tally(had.notional + LiveNotional(p), had.count + 1, had.missing || Missing(p) == 1)],
              ps + [p], key)
  {
    assert (ps + [p])[..|ps|] == ps;
    MissingIsCount(ps, key, key(p));
    if key(p) !in keys {
      NoTotalWithoutKey(ps, key, LiveNotional, key(p));
      NoTotalWithoutKey(ps, key, One, key(p));
      NoTotalWithoutKey(ps, key, Missing, key(p));
    }
  }

  method Group<K(==, !new)>(ps: seq<Position>, key: Position -> K) returns (keys: seq<K>, groups: map<K, Tally>)
    ensures Grouped(keys, groups, ps, key)
  {
    keys, groups := [], map[];
    for i := 0 to |ps|
      invariant Grouped(keys, groups, ps[..i], key)
    {
      var p := ps[i];
      var k := key(p);
      assert ps[..i + 1] == ps[..i] + [p];
      GroupCounts(keys, groups, ps[..i], key, p);
      var cur := if k in groups then groups[k] else Tally(0, 0, false);
      if p.state == OPEN {
        if p.notional.None? {
          cur := cur.(missing := true);
        } else {
          cur := cur.(notional := cur.notional + p.notional.value);
        }
      }
      cur := cur.(count := cur.count + 1);
      keys := if k in keys then keys else keys + [k];
      groups := groups[k := cur];
    }
    assert ps[..|ps|] == ps;
  }

  // ------------------------------------------------------------------ allocation.ts: aggregateBySymbol

  function Signed(p: Position): int { if p.direction == SHORT then -Notional(p) else Notional(p) }

  function Priced(p: Position): int { OneIf(p.notional.Some?) }

  function Risked(p: Position): int { OneIf(p.maxLoss.Some?) }

  /** The best readiness seen, and the confidence that came with it. */
  datatype Best = Best(readiness: real, confidence: real)

  const NO_BEST := Best(-1.0, -1.0)

  function Better(b: Best, p: Position): Best {
    if p.readiness > b.readiness then Best(p.readiness, p.confidence) else b
  }

  function BestOf(ps: seq<Position>, s: Name): Best {
    if ps == [] then NO_BEST
    else
      var front, last := BestOf(ps[..|ps| - 1], s), ps[|ps| - 1];
      if last.symbol == s then Better(front, last) else front
  }

  /** b is the readiness of the first most ready position of the symbol above -1, with its confidence. */
  ghost predicate IsBest(b: Best, ps: seq<Position>, s: Name) {
    && (forall p :: p in ps && p.symbol == s ==> p.readiness <= b.readiness)
    && (b == NO_BEST || exists i :: 0 <= i < |ps| && FirstBest(b, ps, s, i))
  }

  ghost predicate FirstBest(b: Best, ps: seq<Position>, s: Name, i: nat)
    requires i < |ps|
  {
    && ps[i].symbol == s && b == Best(ps[i].readiness, ps[i].confidence) && b.readiness > -1.0
    && forall j :: 0 <= j < i && ps[j].symbol == s ==> ps[j].readiness < b.readiness
  }

  lemma {:induction false} BestIsFirst(ps: seq<Position>, s: Name)
    ensures BestOf(ps, s).readiness >= -1.0 && IsBest(BestOf(ps, s), ps, s)
  {
    if ps != [] {
      var front, last := ps[..|ps| - 1], ps[|ps| - 1];
      var b := BestOf(front, s);
      BestIsFirst(front, s);
      assert forall p :: p in ps <==> p in front || p == last;
      if last.symbol == s && last.readiness > b.readiness {
        assert forall j :: 0 <= j < |front| ==> ps[j] in front;
        assert FirstBest(BestOf(ps, s), ps, s, |front|);
      } else if b != NO_BEST {
        var i :| 0 <= i < |front| && FirstBest(b, front, s, i);
        assert FirstBest(b, ps, s, i);
      }
    }
  }

  datatype Aggregate = Aggregate(
    gross: int, net: int, risk: int, grossHasSource: bool, riskHasSource: bool, best: Best)

  const NO_AGGREGATE := Aggregate(0, 0, 0, false, false, NO_BEST)

  function AggregateOf(ps: seq<Position>, s: Name): Aggregate {
    Aggregate(SymbolNotional(ps, s), TotalOf(ps, SymbolOf, Signed, s), TotalOf(ps, SymbolOf, Loss, s),
              TotalOf(ps, SymbolOf, Priced, s) > 0, TotalOf(ps, SymbolOf, Risked, s) > 0, BestOf(ps, s))
  }

  ghost predicate Aggregated(keys: seq<Name>, aggs: map<Name, Aggregate>, ps: seq<Position>) {
    && keys == KeysOf(ps, SymbolOf)
    && (forall s :: s in aggs <==> s in keys)
    && (forall s :: s in aggs ==> aggs[s] == AggregateOf(ps, s))
  }

  lemma {:induction false} SourcesAreCounts(ps: seq<Position>, s: Name)
    ensures TotalOf(ps, SymbolOf, Priced, s) >= 0 && TotalOf(ps, SymbolOf, Risked, s) >= 0
  {
    if ps != [] { SourcesAreCounts(ps[..|ps| - 1], s); }
  }

  function Plus(had: Aggregate, p: Position): Aggregate {
    Aggregate(had.gross + Notional(p), had.net + Signed(p), had.risk + Loss(p),
              had.grossHasSource || p.notional.Some?, had.riskHasSource || p.maxLoss.Some?, Better(had.best, p))
  }

  lemma AggregateAppend(ps: seq<Position>, p: Position, s: Name)
    ensures AggregateOf(ps + [p], s) == if s == p.symbol then Plus(AggregateOf(ps, s), p) else AggregateOf(ps, s)
  {
    assert (ps + [p])[..|ps|] == ps;
    SourcesAreCounts(ps, s);
  }

  lemma NoAggregateWithoutKey(ps: seq<Position>, s: Name)
    requires s !in KeysOf(ps, SymbolOf)
    ensures AggregateOf(ps, s) == NO_AGGREGATE
  {
    NoTotalWithoutKey(ps, SymbolOf, Notional, s);
    NoTotalWithoutKey(ps, SymbolOf, Signed, s);
    NoTotalWithoutKey(ps, SymbolOf, Loss, s);
    NoTotalWithoutKey(ps, SymbolOf, Priced, s);
    NoTotalWithoutKey(ps, SymbolOf, Risked, s);
    NoBestWithoutKey(ps, s);
  }

  lemma AggregateCounts(keys: seq<Name>, aggs: map<Name, Aggregate>, ps: seq<Position>, p: Position)
    requires Aggregated(keys, aggs, ps)
    ensures var had := if p.symbol in aggs then aggs[p.symbol] else NO_AGGREGATE;
      Aggregated(if p.symbol in keys then keys else keys + [p.symbol], aggs[p.symbol := Plus(had, p)], ps + [p])
  {
    assert (ps + [p])[..|ps|] == ps;
    if p.symbol !in keys { NoAggregateWithoutKey(ps, p.symbol); }
    AggregateAppend(ps, p, p.symbol);
    forall s | s in aggs && s != p.symbol ensures AggregateOf(ps + [p], s) == aggs[s] {
      AggregateAppend(ps, p, s);
    }
  }

  lemma {:induction false} NoBestWithoutKey(ps: seq<Position>, s: Name)
    requires s !in KeysOf(ps, SymbolOf)
    ensures BestOf(ps, s) == NO_BEST
  {
    if ps != [] { NoBestWithoutKey(ps[..|ps| - 1], s); }
  }

  /** One turn of the loop, field by field. */
  method Accumulate(had: Aggregate, p: Position) returns (cur: Aggregate)
    ensures cur == Plus(had, p)
  {
    cur := had;
    if p.notional.Some? {
      var n := p.notional.value;
      var signed := if p.direction == SHORT then -n else n;
      cur := cur.(gross := cur.gross + n, net := cur.net + signed, grossHasSource := true);
    }
    if p.maxLoss.Some? {
      cur := cur.(risk := cur.risk + p.maxLoss.value, riskHasSource := true);
    }
    if p.readiness > cur.best.readiness {
      cur := cur.(best := Best(p.readiness, p.confidence));
    }
  }

  method AggregateBySymbol(open: seq<Position>) returns (keys: seq<Name>, aggs: map<Name, Aggregate>)
    ensures Aggregated(keys, aggs, open)
  {
    keys, aggs := [], map[];
    for i := 0 to |open|
      invariant Aggregated(keys, aggs, open[..i])
    {
      var p := open[i];
      assert open[..i + 1] == open[..i] + [p];
      AggregateCounts(keys, aggs, open[..i], p);
      var cur := Accumulate(if p.symbol in aggs then aggs[p.symbol] else NO_AGGREGATE, p);
      keys := if p.symbol in keys then keys else keys + [p.symbol];
      aggs := aggs[p.symbol := cur];
    }
    assert open[..|open|] == open;
  }

  predicate HasSource(ps: seq<Position>, s: Name) { AggregateOf(ps, s).grossHasSource }

  /** The loop over the aggregates that looks for the largest position. */
  method LargestPosition(open: seq<Position>) returns (largest: Option<Name>, value: int)
    ensures largest.None? <==> PricedSymbols(open) == []
    ensures largest.Some?
        ==> IsTop(largest.value, PricedSymbols(open), open) && value == SymbolNotional(open, largest.value)
  {
    var keys, aggs := AggregateBySymbol(open);
    largest, value := None, 0;
    for i := 0 to |keys|
      invariant largest.Some? ==>
        largest.value in keys && HasSource(open, largest.value) && value == SymbolNotional(open, largest.value)
      invariant forall j :: 0 <= j < i && HasSource(open, keys[j]) ==>
        largest.Some?
        && (SymbolNotional(open, keys[j]) < value
            || (SymbolNotional(open, keys[j]) == value && largest.value <= keys[j]))
    {
      var s, a := keys[i], aggs[keys[i]];
      if a.grossHasSource && (largest.None? || a.gross > value || (a.gross == value && s < largest.value)) {
        largest, value := Some(s), a.gross;
      }
    }
    forall s ensures s in PricedSymbols(open) <==> s in keys && HasSource(open, s) {
      PricedHasSource(open, s);
    }
    if PricedSymbols(open) != [] {
      ghost var first := PricedSymbols(open)[0];
      assert first in PricedSymbols(open) && first in keys && HasSource(open, first);
    }
    assert largest.Some? ==> largest.value in PricedSymbols(open);
  }

  lemma {:induction false} PricedHasSource(ps: seq<Position>, s: Name)
    ensures s in PricedSymbols(ps) <==> TotalOf(ps, SymbolOf, Priced, s) > 0
    ensures TotalOf(ps, SymbolOf, Priced, s) > 0 ==> s in KeysOf(ps, SymbolOf)
  {
    if ps != [] {
      var front, p := ps[..|ps| - 1], ps[|ps| - 1];
      PricedHasSource(front, s);
      SourcesAreCounts(front, s);
      var priced := Select(front, IsPriced);
      assert (priced + [p])[..|priced|] == priced;
    }
  }

  // ------------------------------------------------------------------ the loops agree

  /** Three separately written loops hold the same notional for every priced symbol. */
  lemma LoopsAgree(open: seq<Position>, keys: seq<Name>, totals: map<Name, int>,
                   groupKeys: seq<Name>, groups: map<Name, Tally>, aggKeys: seq<Name>, aggs: map<Name, Aggregate>,
                       s: Name)
    requires forall i :: 0 <= i < |open| ==> open[i].state == OPEN
    requires Tallied(keys, totals, open) && Grouped(groupKeys, groups, open, SymbolOf)
        && Aggregated(aggKeys, aggs, open)
    requires s in totals
    ensures s in groups && s in aggs && totals[s] == groups[s].notional == aggs[s].gross
  {
    PricedHasSource(open, s);
    LiveIsNotional(open, s);
  }

  lemma {:induction false} LiveIsNotional(ps: seq<Position>, s: Name)
    requires forall i :: 0 <= i < |ps| ==> ps[i].state == OPEN
    ensures TotalOf(ps, SymbolOf, LiveNotional, s) == SymbolNotional(ps, s)
  {
    if ps != [] { LiveIsNotional(ps[..|ps| - 1], s); }
  }

  // ------------------------------------------------------------------ sums over groups

  lemma SelectAppend(ps: seq<Position>, p: Position)
    ensures Select(ps + [p], IsOpen) == Select(ps, IsOpen) + if IsOpen(p) then [p] else []
  {
    assert (ps + [p])[..|ps|] == ps;
  }

  lemma {:induction false} SelectedIsOpen(ps: seq<Position>)
    ensures forall p :: p in Select(ps, IsOpen) ==> p in ps && p.state == OPEN
  {
    if ps != [] {
      var front, last := ps[..|ps| - 1], ps[|ps| - 1];
      assert ps == front + [last];
      SelectedIsOpen(front);
      SelectAppend(front, last);
    }
  }

  lemma SumAppend(ps: seq<Position>, p: Position, value: Position -> int)
    ensures Sum(ps + [p], value) == Sum(ps, value) + value(p)
  {
    assert (ps + [p])[..|ps|] == ps;
  }

  lemma {:induction false} OnlyOpenIsLive(ps: seq<Position>)
    ensures Sum(Select(ps, IsOpen), LiveNotional) == Sum(ps, LiveNotional)
  {
    if ps != [] {
      var front, last := ps[..|ps| - 1], ps[|ps| - 1];
      assert ps == front + [last];
      OnlyOpenIsLive(front);
      SelectAppend(front, last);
      SumAppend(front, last, LiveNotional);
      SumAppend(Select(front, IsOpen), last, LiveNotional);
      assert Select(front, IsOpen) + [] == Select(front, IsOpen);
    }
  }

  lemma {:induction false} SidesAddUp(ps: seq<Position>)
    requires forall i :: 0 <= i < |ps| ==> ps[i].state == OPEN && ps[i].direction != FLAT
    ensures Sum(ps, (p: Position) => Sided(p, LONG)) + Sum(ps, (p: Position) => Sided(p, SHORT)) ==
        Sum(ps, LiveNotional)
    ensures Sum(ps, LiveNotional) == Sum(ps, Notional)
  {
    if ps != [] { SidesAddUp(ps[..|ps| - 1]); }
  }

  lemma OpenIsDirectional(items: seq<Item>, kill: bool, cfg: Config)
    ensures var open := DeriveFacts(items, kill, cfg).open;
      forall i :: 0 <= i < |open| ==> open[i].state == OPEN && open[i].direction != FLAT
  {
    var ps := ToPositions(items, kill, cfg);
    var sorted := Sort(ps);
    SelectedIsOpen(sorted);
    forall p | p in sorted ensures p.state == OPEN ==> p.direction != FLAT {
      assert p in multiset(sorted);
      var i :| 0 <= i < |ps| && ps[i] == p;
      assert p == ToPosition(items[i], kill, cfg);
    }
  }

  lemma GrossIsSum(items: seq<Item>, kill: bool, cfg: Config)
    ensures var f := DeriveFacts(items, kill, cfg);
      f.grossExposure == Sum(f.open, Notional) && f.grossExposure == Sum(f.open, LiveNotional)
      && f.grossExposure == Sum(f.positions, LiveNotional)
  {
    OpenIsDirectional(items, kill, cfg);
    SidesAddUp(DeriveFacts(items, kill, cfg).open);
    OnlyOpenIsLive(DeriveFacts(items, kill, cfg).positions);
  }

  lemma {:induction false} OnesAreLength(ps: seq<Position>)
    ensures Sum(ps, One) == |ps|
  {
    if ps != [] { OnesAreLength(ps[..|ps| - 1]); }
  }

  /** Whatever the key, the groups share out the gross exposure and the positions among them, open book or all. */
  lemma GroupsShareOut<K(!new)>(items: seq<Item>, kill: bool, cfg: Config, key: Position -> K, openOnly: bool)
    ensures var f := DeriveFacts(items, kill, cfg);
      var ps := if openOnly then f.open else f.positions;
      && SumOver(KeysOf(ps, key), k => TotalOf(ps, key, LiveNotional, k)) == f.grossExposure
      && SumOver(KeysOf(ps, key), k => TotalOf(ps, key, One, k)) == |ps|
  {
    var f := DeriveFacts(items, kill, cfg);
    var ps := if openOnly then f.open else f.positions;
    GrossIsSum(items, kill, cfg);
    TotalsAddUp(ps, key, LiveNotional);
    TotalsAddUp(ps, key, One);
    OnesAreLength(ps);
  }

  // ------------------------------------------------------------------ concentration

  lemma {:induction false} PricedTotals(ps: seq<Position>, s: Name)
    ensures TotalOf(Select(ps, IsPriced), SymbolOf, Notional, s) == SymbolNotional(ps, s)
    ensures Sum(Select(ps, IsPriced), Notional) == Sum(ps, Notional)
  {
    if ps != [] {
      var front, p := ps[..|ps| - 1], ps[|ps| - 1];
      PricedTotals(front, s);
      assert ps == front + [p];
      PricedAppend(front, p);
      var priced := Select(front, IsPriced);
      assert (priced + [p])[..|priced|] == priced;
    }
  }

  lemma {:induction false} TotalIsSumOver(keys: seq<Name>, ps: seq<Position>, total: Name -> int)
    requires forall s :: s in keys ==> total(s) == SymbolNotional(ps, s)
    ensures Total(Values(keys, ps)) == SumOver(keys, total)
  {
    if keys != [] {
      var front := keys[..|keys| - 1];
      TotalIsSumOver(front, ps, total);
      assert Values(keys, ps)[..|keys| - 1] == Values(front, ps);
      assert keys[|keys| - 1] in keys;
    }
  }

  /** The notionals of the symbols add up to the gross exposure. */
  lemma SymbolsAddUp(items: seq<Item>, kill: bool, cfg: Config)
    ensures var f := DeriveFacts(items, kill, cfg); Total(SymbolNotionals(f.open)) == f.grossExposure
  {
    var open := DeriveFacts(items, kill, cfg).open;
    var priced := Select(open, IsPriced);
    var total := s => TotalOf(priced, SymbolOf, Notional, s);
    GrossIsSum(items, kill, cfg);
    TotalsAddUp(priced, SymbolOf, Notional);
    forall s ensures total(s) == SymbolNotional(open, s) { PricedTotals(open, s); }
    PricedTotals(open, 0);
    TotalIsSumOver(PricedSymbols(open), open, total);
  }

  lemma CastProduct(a: int, b: int)
    ensures (a * b) as real == a as real * b as real
  {}

  lemma CompareScaled(a: real, b: real, c: real)
    requires c > 0.0 && a * c <= b * c
    ensures a <= b
  {}

  lemma EqualScaled(a: real, b: real, c: real)
    requires a == b
    ensures a * c == b * c
  {}

  lemma InverseBound(inverse: real, index: real, m: real, gg: real, x: real)
    requires m > 0.0 && gg > 0.0 && inverse * m == 1.0 && index * gg == x && gg <= m * x
    ensures inverse <= index
    ensures index == inverse <==> gg == m * x
  {
    var c := m * gg;
    assert c > 0.0;
    EqualScaled(inverse * m, 1.0, gg);
    assert inverse * c == gg;
    EqualScaled(index * gg, x, m);
    assert index * c == m * x;
    CompareScaled(inverse, index, c);
    if gg == m * x { CompareScaled(index, inverse, c); }
  }

  lemma PositiveProduct(a: real, b: real) returns (c: real)
    requires a > 0.0 && b > 0.0
    ensures c == a * b && c > 0.0
  {
    c := a * b;
  }

  lemma ShareBounds(share: real, index: real, g: real, gg: real, x: real, t: real)
    requires g > 0.0 && gg > 0.0 && gg == g * g && share * g == t && index * gg == x
    requires t * t <= x && x <= t * g && x <= gg
    ensures share * share <= index <= share && index <= 1.0
  {
    EqualScaled(share * g, t, share * g);
    EqualScaled(share * g, t, t);
    assert share * share * gg == t * t;
    EqualScaled(share * g, t, g);
    assert share * gg == t * g;
    CompareScaled(share * share, index, gg);
    CompareScaled(index, share, gg);
    CompareScaled(index, 1.0, gg);
  }

  lemma Quotient(a: real, b: real)
    requires b > 0.0
    ensures a / b * b == a
  {}

  lemma RealRatioBounds(g: real, gg: real, x: real, m: real, t: real, equal: bool)
    requires g > 0.0 && gg > 0.0 && gg == g * g && m > 0.0 && gg <= m * x && (gg == m * x <==> equal)
    requires x <= gg && t * t <= x && x <= t * g
    ensures var index, share := x / gg, t / g;
      && 1.0 / m <= index <= 1.0
      && (index == 1.0 / m <==> equal)
      && share * share <= index <= share
  {
    Quotient(x, gg);
    Quotient(t, g);
    Quotient(1.0, m);
    InverseBound(1.0 / m, x / gg, m, gg, x);
    ShareBounds(t / g, x / gg, g, gg, x, t);
  }

  /**
   * The index q / s^2 of n notionals with total s lies between 1/n, reached exactly when all are equal,
   * and 1; and between the square of the top share and that share.
   */
  ghost predicate RatiosWithin(s: int, q: int, n: int, top: int, equal: bool)
    requires s > 0 && n > 0
  {
    var index, share := q as real / (s as real * s as real), top as real / s as real;
    && 1.0 / n as real <= index <= 1.0
    && (index == 1.0 / n as real <==> equal)
    && share * share <= index <= share
  }

  lemma RatioBounds(s: int, q: int, n: int, top: int, equal: bool)
    requires s > 0 && n > 0 && s * s <= n * q && (s * s == n * q <==> equal)
    requires q <= s * s && top * top <= q && q <= top * s
    ensures RatiosWithin(s, q, n, top, equal)
  {
    CastProduct(s, s);
    CastProduct(n, q);
    CastProduct(top, top);
    CastProduct(top, s);
    var gg := PositiveProduct(s as real, s as real);
    RealRatioBounds(s as real, gg, q as real, n as real, top as real, equal);
  }

  ghost predicate WithinBounds(ns: seq<int>, gross: int, top: int) {
    gross > 0 && |ns| > 0 && RatiosWithin(gross, Squares(ns), |ns|, top, AllEqual(ns))
  }

  lemma WholeBounds(ns: seq<int>, top: int) returns (s: int, q: int)
    requires NonNegative(ns) && top in ns && forall i :: 0 <= i < |ns| ==> ns[i] <= top
    ensures s == Total(ns) && q == Squares(ns)
    ensures s * s <= |ns| * q && (s * s == |ns| * q <==> AllEqual(ns))
    ensures q <= s * s && top * top <= q && q <= top * s
  {
    SpreadOut(ns);
    Concentrated(ns);
    LargestBounds(ns, top);
    s, q := Total(ns), Squares(ns);
  }

  lemma IndexBounds(ns: seq<int>, top: int)
    requires NonNegative(ns) && Total(ns) > 0 && top in ns && forall i :: 0 <= i < |ns| ==> ns[i] <= top
    ensures WithinBounds(ns, Total(ns), top)
  {
    var s, q := WholeBounds(ns, top);
    RatioBounds(s, q, |ns|, top, AllEqual(ns));
  }

  lemma BoundsFor(open: seq<Position>, gross: int, top: Name)
    requires gross > 0 && Total(SymbolNotionals(open)) == gross
    requires NonNegative(SymbolNotionals(open)) && IsTop(top, PricedSymbols(open), open)
    ensures WithinBounds(SymbolNotionals(open), gross, SymbolNotional(open, top))
  {
    TopValue(open, top);
    IndexBounds(SymbolNotionals(open), SymbolNotional(open, top));
  }

  lemma TopValue(open: seq<Position>, top: Name)
    requires IsTop(top, PricedSymbols(open), open)
    ensures var ns := SymbolNotionals(open);
      SymbolNotional(open, top) in ns && forall i :: 0 <= i < |ns| ==> ns[i] <= SymbolNotional(open, top)
  {
    var keys, ns := PricedSymbols(open), SymbolNotionals(open);
    var i :| 0 <= i < |keys| && keys[i] == top;
    assert ns[i] == SymbolNotional(open, top);
    forall j | 0 <= j < |ns| ensures ns[j] <= SymbolNotional(open, top) {
      assert keys[j] in keys;
    }
  }

  /** The bounds, for the facts of any input with non-negative notionals and positive gross exposure. */
  lemma ConcentrationBounds(items: seq<Item>, kill: bool, cfg: Config, top: Name)
    requires var f := DeriveFacts(items, kill, cfg);
      f.grossExposure > 0 && NonNegative(SymbolNotionals(f.open)) && IsTop(top, PricedSymbols(f.open), f.open)
    ensures var f := DeriveFacts(items, kill, cfg);
      WithinBounds(SymbolNotionals(f.open), f.grossExposure, SymbolNotional(f.open, top))
  {
    var f := DeriveFacts(items, kill, cfg);
    SymbolsAddUp(items, kill, cfg);
    BoundsFor(f.open, f.grossExposure, top);
  }

  lemma {:induction false} SomePositive(ns: seq<int>) returns (i: nat)
    requires Total(ns) > 0
    ensures i < |ns| && ns[i] > 0
  {
    var n := |ns| - 1;
    if ns[n] > 0 { i := n; } else { i := SomePositive(ns[..n]); }
  }

  /** Among any keys one is the top one. */
  lemma {:induction false} TopExists(keys: seq<Name>, ps: seq<Position>) returns (top: Name)
    requires keys != []
    ensures IsTop(top, keys, ps)
  {
    var front, last := keys[..|keys| - 1], keys[|keys| - 1];
    assert forall k :: k in keys <==> k in front || k == last;
    if front == [] {
      top := last;
    } else {
      top := TopExists(front, ps);
      var n, m := SymbolNotional(ps, last), SymbolNotional(ps, top);
      if n > m || (n == m && last < top) { top := last; }
    }
  }

  /** With positive gross exposure there is a top symbol, and its notional is positive. */
  lemma TopIsFound(items: seq<Item>, kill: bool, cfg: Config) returns (top: Name)
    requires DeriveFacts(items, kill, cfg).grossExposure > 0
    ensures var open := DeriveFacts(items, kill, cfg).open;
      IsTop(top, PricedSymbols(open), open) && SymbolNotional(open, top) > 0
  {
    var open := DeriveFacts(items, kill, cfg).open;
    SymbolsAddUp(items, kill, cfg);
    var i := SomePositive(SymbolNotionals(open));
    assert PricedSymbols(open)[i] in PricedSymbols(open);
    top := TopExists(PricedSymbols(open), open);
  }
}
