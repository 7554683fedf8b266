/** Bounds on the Herfindahl index of a list of notionals. */
module Concentration {

  function Total(ns: seq<int>): int { if ns == [] then 0 else Total(ns[..|ns| - 1]) + ns[|ns| - 1] }

  function Squares(ns: seq<int>): int {
    if ns == [] then 0 else Squares(ns[..|ns| - 1]) + ns[|ns| - 1] * ns[|ns| - 1]
  }

  /** The sum of the squared distances from a. */
  function Distances(ns: seq<int>, a: int): int {
    if ns == [] then 0 else Distances(ns[..|ns| - 1], a) + (ns[|ns| - 1] - a) * (ns[|ns| - 1] - a)
  }

  lemma SquareOfDifference(x: int, a: int)
    ensures (x - a) * (x - a) == x * x - 2 * a * x + a * a
    ensures (x - a) * (x - a) >= 0
    ensures (x - a) * (x - a) == 0 <==> x == a
  {
    if x > a { Positive(x - a); }
    if x < a {
      Positive(a - x);
      assert (x - a) * (x - a) == (a - x) * (a - x);
    }
  }

  lemma Positive(d: int)
    requires d > 0
    ensures d * d > 0
  {}

  /** One more term in the expanded sum of squared distances. */
  lemma ExpandOne(q: int, t: int, n: int, x: int, a: int)
    ensures (q - 2 * a * t + n * (a * a)) + (x - a) * (x - a) == (q + x * x) - 2 * a * (t + x) + (n + 1) * (a * a)
  {
    SquareOfDifference(x, a);
    assert 2 * a * (t + x) == 2 * a * t + 2 * a * x;
    assert (n + 1) * (a * a) == n * (a * a) + a * a;
  }

  lemma {:induction false} DistancesAre(ns: seq<int>, a: int)
    ensures Distances(ns, a) == Squares(ns) - 2 * a * Total(ns) + |ns| * (a * a)
  {
    if ns != [] {
      var front, x := ns[..|ns| - 1], ns[|ns| - 1];
      DistancesAre(front, a);
      ExpandOne(Squares(front), Total(front), |front|, x, a);
    }
  }

  lemma {:induction false} DistancesVanish(ns: seq<int>, a: int)
    ensures Distances(ns, a) >= 0
    ensures Distances(ns, a) == 0 <==> forall i :: 0 <= i < |ns| ==> ns[i] == a
  {
    if ns != [] {
      var front, x := ns[..|ns| - 1], ns[|ns| - 1];
      DistancesVanish(front, a);
      SquareOfDifference(x, a);
      assert forall i :: 0 <= i < |front| ==> ns[i] == front[i];
    }
  }

  ghost predicate AllEqual(ns: seq<int>) { forall i, j :: 0 <= i < |ns| && 0 <= j < |ns| ==> ns[i] == ns[j] }

  /** One more term: n Q - S S grows by the squared distances from the new term. */
  lemma GapGrows(n: int, q: int, s: int, a: int)
    ensures (n + 1) * (q + a * a) - (s + a) * (s + a) == (n * q - s * s) + (q - 2 * a * s + n * (a * a))
  {
    assert (n + 1) * (q + a * a) == n * q + n * (a * a) + q + a * a;
    assert (s + a) * (s + a) == s * s + 2 * a * s + a * a;
  }

  /** Cauchy-Schwarz, with equality exactly when all notionals are the same. */
  lemma {:induction false} SpreadOut(ns: seq<int>)
    ensures Total(ns) * Total(ns) <= |ns| * Squares(ns)
    ensures Total(ns) * Total(ns) == |ns| * Squares(ns) <==> AllEqual(ns)
  {
    if ns != [] {
      var front, a := ns[..|ns| - 1], ns[|ns| - 1];
      SpreadOut(front);
      DistancesAre(front, a);
      DistancesVanish(front, a);
      GapGrows(|front|, Squares(front), Total(front), a);
      assert forall i :: 0 <= i < |front| ==> ns[i] == front[i];
    }
  }

  ghost predicate NonNegative(ns: seq<int>) { forall i :: 0 <= i < |ns| ==> ns[i] >= 0 }

  lemma Product(a: int, b: int)
    requires a >= 0 && b >= 0
    ensures a * b >= 0
  {}

  lemma {:induction false} Concentrated(ns: seq<int>)
    requires NonNegative(ns)
    ensures 0 <= Total(ns) && 0 <= Squares(ns) <= Total(ns) * Total(ns)
  {
    if ns != [] {
      var front, a := ns[..|ns| - 1], ns[|ns| - 1];
      Concentrated(front);
      Product(a, Total(front));
      Product(a, a);
      assert (Total(front) + a) * (Total(front) + a) == Total(front) * Total(front) + 2 * (a * Total(front)) + a * a;
    }
  }

  /** Between the square of the largest share and that share. */
  lemma {:induction false} LargestBounds(ns: seq<int>, top: int)
    requires NonNegative(ns) && top >= 0 && forall i :: 0 <= i < |ns| ==> ns[i] <= top
    ensures Squares(ns) <= top * Total(ns)
    ensures top in ns ==> top * top <= Squares(ns)
  {
    if ns != [] {
      var front, a := ns[..|ns| - 1], ns[|ns| - 1];
      LargestBounds(front, top);
      Product(a, top - a);
      assert a * (top - a) == top * a - a * a;
      assert top * (Total(front) + a) == top * Total(front) + top * a;
      Concentrated(front);
      assert top in ns ==> top in front || a == top;
      Product(a, a);
    }
  }
}
