/** What the groups, the symbol aggregates and the concentration score hold, in terms of the positions. */
module ExposureFacts {
  import opened Wrappers
  import opened Decimal
  import opened Grouping
  import opened Concentration
  import opened Portfolio
  import opened PortfolioFacts
  import opened PortfolioViews
  import opened Exposure

  lemma {:induction false} TotalIsSum<T, K>(xs: seq<T>, key: T -> K, w: T -> int, k: K, v: T -> int)
    requires forall i :: 0 <= i < |xs| ==> v(xs[i]) == if key(xs[i]) == k then w(xs[i]) else 0
    ensures TotalOf(xs, key, w, k) == Sum(xs, v)
  {
    if xs != [] { TotalIsSum(xs[..|xs| - 1], key, w, k, v); }
  }

  /** A count of the elements with a key is positive exactly when there is one. */
  lemma {:induction false} CountIff<T(!new), K>(xs: seq<T>, key: T -> K, w: T -> int, k: K)
    requires forall x :: w(x) == 0 || w(x) == 1
    ensures TotalOf(xs, key, w, k) >= 0
    ensures TotalOf(xs, key, w, k) > 0 <==> exists x :: x in xs && key(x) == k && w(x) == 1
  {
    if xs != [] {
      var front, last := xs[..|xs| - 1], xs[|xs| - 1];
      CountIff(front, key, w, k);
      assert forall x :: x in xs <==> x in front || x == last;
      assert last in xs;
    }
  }

  // ------------------------------------------------------------------ groups

  /** A group holds the notionals of its open positions, and says so if one of them has none. */
  lemma GroupIs<K>(ps: seq<Position>, key: Position -> K, k: K)
    ensures var t := TallyOf(ps, key, k);
      && t.notional == Sum(ps, (p: Position) => AmountIf(key(p) == k && p.state == OPEN, p.notional))
      && t.count == Sum(ps, (p: Position) => OneIf(key(p) == k))
      && (t.missing <==> exists p :: p in ps && key(p) == k && p.state == OPEN && p.notional == None)
  {
    TotalIsSum(ps, key, LiveNotional, k, (p: Position) => AmountIf(key(p) == k && p.state == OPEN, p.notional));
    TotalIsSum(ps, key, One, k, (p: Position) => OneIf(key(p) == k));
    CountIff(ps, key, Missing, k);
  }

  // ------------------------------------------------------------------ symbols

  /** Gross and risk add up; net adds what is not short and takes away what is. */
  lemma AggregateIs(ps: seq<Position>, s: Name)
    ensures var a := AggregateOf(ps, s);
      && a.gross == Sum(ps, (p: Position) => AmountIf(p.symbol == s, p.notional))
      && a.net == Sum(ps, (p: Position) => AmountIf(p.symbol == s && p.direction != SHORT, p.notional))
                - Sum(ps, (p: Position) => AmountIf(p.symbol == s && p.direction == SHORT, p.notional))
      && a.risk == Sum(ps, (p: Position) => AmountIf(p.symbol == s, p.maxLoss))
      && (a.grossHasSource <==> exists p :: p in ps && p.symbol == s && p.notional != None)
      && (a.riskHasSource <==> exists p :: p in ps && p.symbol == s && p.maxLoss != None)
  {
    TotalIsSum(ps, SymbolOf, Notional, s, (p: Position) => AmountIf(p.symbol == s, p.notional));
    TotalIsSum(ps, SymbolOf, Loss, s, (p: Position) => AmountIf(p.symbol == s, p.maxLoss));
    NetIs(ps, s);
    CountIff(ps, SymbolOf, Priced, s);
    CountIff(ps, SymbolOf, Risked, s);
  }

  lemma NetIs(ps: seq<Position>, s: Name)
    ensures TotalOf(ps, SymbolOf, Signed, s)
      == Sum(ps, (p: Position) => AmountIf(p.symbol == s && p.direction != SHORT, p.notional))
       - Sum(ps, (p: Position) => AmountIf(p.symbol == s && p.direction == SHORT, p.notional))
  {
    var bought := (p: Position) => AmountIf(p.symbol == s && p.direction != SHORT, p.notional);
    var sold := (p: Position) => AmountIf(p.symbol == s && p.direction == SHORT, p.notional);
    TotalIsSum(ps, SymbolOf, Signed, s, (p: Position) => bought(p) - sold(p));
    SumDifference(ps, bought, sold, (p: Position) => bought(p) - sold(p));
  }

  lemma {:induction false} SidesDiffer(ps: seq<Position>)
    requires forall i :: 0 <= i < |ps| ==> ps[i].direction != FLAT
    ensures Sum(ps, Signed) == Sum(ps, (p: Position) => Sided(p, LONG)) - Sum(ps, (p: Position) => Sided(p, SHORT))
  {
    if ps != [] { SidesDiffer(ps[..|ps| - 1]); }
  }

  lemma {:induction false} SumOverSame<K>(ks: seq<K>, a: K -> int, b: K -> int)
    requires forall k :: k in ks ==> a(k) == b(k)
    ensures SumOver(ks, a) == SumOver(ks, b)
  {
    if ks != [] {
      assert ks[|ks| - 1] in ks;
      SumOverSame(ks[..|ks| - 1], a, b);
    }
  }

  /** The aggregates of the symbols add up to the gross and the net exposure and to the risk in use. */
  lemma AggregatesAddUp(items: seq<Item>, kill: bool, cfg: Config)
    ensures var f := DeriveFacts(items, kill, cfg);
      var symbols := KeysOf(f.open, SymbolOf);
      && SumOver(symbols, s => AggregateOf(f.open, s).gross) == f.grossExposure
      && SumOver(symbols, s => AggregateOf(f.open, s).net) == f.netExposure
      && SumOver(symbols, s => AggregateOf(f.open, s).risk) == f.riskUsed
  {
    var f := DeriveFacts(items, kill, cfg);
    var symbols := KeysOf(f.open, SymbolOf);
    GrossIsSum(items, kill, cfg);
    OpenIsDirectional(items, kill, cfg);
    SidesDiffer(f.open);
    TotalsAddUp(f.open, SymbolOf, Notional);
    TotalsAddUp(f.open, SymbolOf, Signed);
    TotalsAddUp(f.open, SymbolOf, Loss);
    SumOverSame(symbols, s => TotalOf(f.open, SymbolOf, Notional, s), s => AggregateOf(f.open, s).gross);
    SumOverSame(symbols, s => TotalOf(f.open, SymbolOf, Signed, s), s => AggregateOf(f.open, s).net);
    SumOverSame(symbols, s => TotalOf(f.open, SymbolOf, Loss, s), s => AggregateOf(f.open, s).risk);
  }

  /** A symbol whose positions are all at -1 or below has no best one; any other has its first most ready position. */
  lemma BestIff(ps: seq<Position>, s: Name)
    ensures BestOf(ps, s) == Best(-1.0, -1.0) <==> forall p :: p in ps && p.symbol == s ==> p.readiness <= -1.0
    ensures BestOf(ps, s) != Best(-1.0, -1.0) ==>
      exists i :: 0 <= i < |ps| && FirstBest(BestOf(ps, s), ps, s, i)
  {
    BestIsFirst(ps, s);
  }

  // ------------------------------------------------------------------ the score

  lemma {:induction false} SquaresAreNonNegative(ns: seq<int>)
    ensures Squares(ns) >= 0
  {
    if ns != [] {
      var n := ns[|ns| - 1];
      SquaresAreNonNegative(ns[..|ns| - 1]);
      assert n * n >= 0;
    }
  }

  lemma RatioIsNonNegative(q: real, g: real)
    requires q >= 0.0 && g > 0.0
    ensures q / g >= 0.0
  {
  }

  lemma ScoreNear(x: real, score: real)
    requires score == Round(x * 100.0 * 100.0) as real / 100.0
    ensures AbsReal(score - 100.0 * x) <= 0.005
  {
    RoundIsNearest(x * 100.0 * 100.0, 0);
  }

  /**
   * The score is the sum of the squared shares of gross exposure, in percent and never above 100, to the nearest
   * hundredth; and 0 without gross exposure.
   */
  lemma ScoreIs(ns: seq<int>, gross: int)
    ensures gross <= 0 ==> Score(ns, gross) == 0.0
    ensures gross > 0 ==>
      var index := Squares(ns) as real / (gross as real * gross as real);
      index >= 0.0 && AbsReal(Score(ns, gross) - 100.0 * MinReal(index, 1.0)) <= 0.005
  {
    if gross > 0 {
      var g := PositiveProduct(gross as real, gross as real);
      SquaresAreNonNegative(ns);
      RatioIsNonNegative(Squares(ns) as real, g);
      var index := Squares(ns) as real / g;
      assert index == Index(ns, gross) && index >= 0.0;
      assert Clamp01(index) == MinReal(index, 1.0);
      ScoreNear(Clamp01(index), Score(ns, gross));
    }
  }
}
