/** The map-accumulating loops of heat.ts, warnings.ts, exposure.ts and allocation.ts, and why they agree. */
module PortfolioViews {
  import opened Wrappers
  import opened Decimal
  import opened Grouping
  import opened Concentration
  import opened Portfolio

  function SymbolOf(p: Position): Name { p.symbol }

  predicate IsPriced(p: Position) { p.notional.Some? }

  /** The symbols with a priced position, in the order a Map would first see them. */
  function PricedSymbols(ps: seq<Position>): seq<Name> { KeysOf(Select(ps, IsPriced), SymbolOf) }

  function SymbolNotional(ps: seq<Position>, s: Name): int { TotalOf(ps, SymbolOf, Notional, s) }

  /** A Map from symbols to notionals, with its keys in insertion order, after the loop has seen ps. */
  ghost predicate Tallied(keys: seq<Name>, totals: map<Name, int>, ps: seq<Position>) {
    && keys == PricedSymbols(ps)
    && (forall s :: s in totals <==> s in keys)
    && (forall s :: s in totals ==> totals[s] == SymbolNotional(ps, s))
  }

  lemma PricedAppend(ps: seq<Position>, p: Position)
    ensures Select(ps + [p], IsPriced) == if IsPriced(p) then Select(ps, IsPriced) + [p] else Select(ps, IsPriced)
    ensures forall s :: SymbolNotional(ps + [p], s) == SymbolNotional(ps, s) + if p.symbol == s then Notional(p) else 0
  {
    assert (ps + [p])[..|ps|] == ps;
  }

  lemma {:induction false} NoNotionalUnpriced(ps: seq<Position>, s: Name)
    requires s !in PricedSymbols(ps)
    ensures SymbolNotional(ps, s) == 0
  {
    if ps != [] {
      var front, p := ps[..|ps| - 1], ps[|ps| - 1];
      assert ps == front + [p];
      PricedAppend(front, p);
      var priced := Select(front, IsPriced);
      assert (priced + [p])[..|priced|] == priced;
      NoNotionalUnpriced(front, s);
    }
  }

  lemma TallySkips(keys: seq<Name>, totals: map<Name, int>, ps: seq<Position>, p: Position)
    requires Tallied(keys, totals, ps) && p.notional.None?
    ensures Tallied(keys, totals, ps + [p])
  {
    PricedAppend(ps, p);
  }

  lemma TallyCounts(keys: seq<Name>, totals: map<Name, int>, ps: seq<Position>, p: Position)
    requires Tallied(keys, totals, ps) && p.notional.Some?
    ensures var had := if p.symbol in totals then totals[p.symbol] else 0;
      Tallied(if p.symbol in keys then keys else keys + [p.symbol],
              totals[p.symbol := had + p.notional.value], ps + [p])
  {
    PricedAppend(ps, p);
    var priced := Select(ps, IsPriced);
    assert (priced + [p])[..|priced|] == priced;
    if p.symbol !in keys { NoNotionalUnpriced(ps, p.symbol); }
  }

  /** The loop that heat.ts and warnings.ts each write out. */
  method NotionalsBySymbol(open: seq<Position>) returns (keys: seq<Name>, bySymbol: map<Name, int>)
    ensures Tallied(keys, bySymbol, open)
  {
    keys, bySymbol := [], map[];
    for i := 0 to |open|
      invariant Tallied(keys, bySymbol, open[..i])
    {
      var p := open[i];
      assert open[..i + 1] == open[..i] + [p];
      if p.notional.None? {
        TallySkips(keys, bySymbol, open[..i], p);
      } else {
        TallyCounts(keys, bySymbol, open[..i], p);
        var had := if p.symbol in bySymbol then bySymbol[p.symbol] else 0;
        keys := if p.symbol in keys then keys else keys + [p.symbol];
        bySymbol := bySymbol[p.symbol := had + p.notional.value];
      }
    }
    assert open[..|open|] == open;
  }

  /** The notionals of the priced symbols. */
  function Values(keys: seq<Name>, ps: seq<Position>): (ns: seq<int>)
    ensures |ns| == |keys| && forall i :: 0 <= i < |keys| ==> ns[i] == SymbolNotional(ps, keys[i])
  {
    seq(|keys|, i requires 0 <= i < |keys| => SymbolNotional(ps, keys[i]))
  }

  function SymbolNotionals(ps: seq<Position>): seq<int> { Values(PricedSymbols(ps), ps) }

  // ------------------------------------------------------------------ heat.ts: the concentration index

  /** The Herfindahl index of the shares of gross exposure. */
  function Index(ns: seq<int>, gross: int): real
    requires gross > 0
  {
    Squares(ns) as real / (gross as real * gross as real)
  }

  function Clamp01(x: real): real { if x < 0.0 then 0.0 else if x > 1.0 then 1.0 else x }

  function Score(ns: seq<int>, gross: int): real {
    if gross <= 0 then 0.0 else Round(Clamp01(Index(ns, gross)) * 100.0 * 100.0) as real / 100.0
  }

  lemma ShareSquared(squares: int, n: int, gross: int)
    requires gross > 0
    ensures squares as real / (gross as real * gross as real)
      + (n as real / gross as real) * (n as real / gross as real)
      == (squares + n * n) as real / (gross as real * gross as real)
  {
    var g, x := gross as real, n as real;
    assert g * g > 0.0;
    assert (x / g) * (x / g) == x * x / (g * g) by {
      var q := x / g;
      assert q * g == x;
      assert q * q * (g * g) == x * x by { assert q * q * (g * g) == (q * g) * (q * g); }
    }
    assert (n * n) as real == x * x;
  }

  lemma IndexGrows(ns: seq<int>, i: nat, gross: int, share: real)
    requires i < |ns| && gross > 0 && share == ns[i] as real / gross as real
    ensures Index(ns[..i + 1], gross) == Index(ns[..i], gross) + share * share
  {
    ShareSquared(Squares(ns[..i]), ns[i], gross);
    assert ns[..i + 1][..i] == ns[..i];
  }

  method ConcentrationScore(open: seq<Position>, gross: int) returns (score: real)
    ensures score == Score(SymbolNotionals(open), gross)
  {
    if gross <= 0 {
      return 0.0;
    }
    var keys, bySymbol := NotionalsBySymbol(open);
    ghost var ns := SymbolNotionals(open);
    var hhi := 0.0;
    for i := 0 to |keys|
      invariant hhi == Index(ns[..i], gross)
    {
      var share := bySymbol[keys[i]] as real / gross as real;
      IndexGrows(ns, i, gross, share);
      hhi := hhi + share * share;
    }
    assert ns[..|ns|] == ns;
    score := Round(Clamp01(hhi) * 100.0 * 100.0) as real / 100.0;
  }

  // ------------------------------------------------------------------ warnings.ts: the top symbol

  /** s has the highest notional and, among equals, the first name. */
  ghost predicate IsTop(s: Name, keys: seq<Name>, ps: seq<Position>) {
    s in keys && forall k :: k in keys ==>
      SymbolNotional(ps, k) < SymbolNotional(ps, s) || (SymbolNotional(ps, k) == SymbolNotional(ps, s) && s <= k)
  }

  lemma TopIsUnique(s: Name, t: Name, keys: seq<Name>, others: seq<Name>, ps: seq<Position>)
    requires IsTop(s, keys, ps) && IsTop(t, others, ps) && forall k :: k in keys <==> k in others
    ensures s == t
  {}

  /** One dollar below zero, in cents: where the running maximum of the loop starts. */
  const START := -100

  method TopSymbolSharePct(open: seq<Position>, gross: int) returns (symbol: Option<Name>, pct: real)
    ensures gross <= 0 ==> symbol == None && pct == 0.0
    ensures gross > 0 && symbol.Some? ==>
      IsTop(symbol.value, PricedSymbols(open), open) && SymbolNotional(open, symbol.value) > START
      && pct == Percent(SymbolNotional(open, symbol.value) as real, gross as real)
    ensures gross > 0 && symbol.None? ==>
      (forall k :: k in PricedSymbols(open) ==> SymbolNotional(open, k) <= START)
      && pct == Percent(START as real, gross as real)
  {
    if gross <= 0 {
      return None, 0.0;
    }
    var keys, bySymbol := NotionalsBySymbol(open);
    symbol := None;
    var notional := START;
    for i := 0 to |keys|
      invariant symbol.None? ==> notional == START && forall j :: 0 <= j < i ==> SymbolNotional(open, keys[j]) <= START
      invariant symbol.Some? ==> symbol.value in keys && notional == SymbolNotional(open, symbol.value) > START
      invariant symbol.Some? ==> forall j :: 0 <= j < i ==>
        || SymbolNotional(open, keys[j]) < notional
        || (SymbolNotional(open, keys[j]) == notional && symbol.value <= keys[j])
    {
      var s, n := keys[i], bySymbol[keys[i]];
      if n > notional || (n == notional && symbol.Some? && s < symbol.value) {
        notional := n;
        symbol := Some(s);
      }
    }
    pct := Percent(notional as real, gross as real);
  }
}
