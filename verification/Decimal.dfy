/** Options and the decimal rounding every package of the repository shares. */
module Wrappers {
  datatype Option<+T> = None | Some(value: T)
}

/**
 * `round(x, dp)` is `Number(x.toFixed(dp))`. A value is held as a multiple of the
 * grid step (10^-dp), so rounding to the grid is rounding to an integer: to the
 * nearest one and, on a tie, to the one of larger magnitude, because `toFixed`
 * (section 21.1.3.3 of ECMA-262) strips the sign before it picks the larger integer.
 */
module Decimal {

  function Round(x: real): int {
    if x >= 0.0 then (x + 0.5).Floor else -((-x + 0.5).Floor)
  }

  function AbsReal(x: real): real { if x < 0.0 then -x else x }

  function MinReal(x: real, y: real): real { if x <= y then x else y }

  function Min(x: int, y: int): int { if x <= y then x else y }

  function Max(x: int, y: int): int { if x >= y then x else y }

  /** Nearest integer; and no other integer is nearer. */
  lemma RoundIsNearest(x: real, n: int)
    ensures AbsReal(Round(x) as real - x) <= 0.5
    ensures AbsReal(Round(x) as real - x) <= AbsReal(n as real - x)
    ensures AbsReal(n as real - x) == AbsReal(Round(x) as real - x) && n != Round(x)
            ==> if x >= 0.0 then n < Round(x) else n > Round(x)
  {
    var f := (AbsReal(x) + 0.5).Floor;
    assert f as real <= AbsReal(x) + 0.5 < f as real + 1.0;
    var m := if x >= 0.0 then n else -n;
    if m <= f - 1 {
      assert m as real <= f as real - 1.0;
    } else if m >= f + 1 {
      assert m as real >= f as real + 1.0;
    }
  }

  lemma RoundOfInteger(n: int)
    ensures Round(n as real) == n
  {
    RoundIsNearest(n as real, n);
  }

  /** The bracket that determines a rounded value. */
  lemma RoundBracket(x: real, n: int)
    requires (n as real) - 0.5 < x < (n as real) + 0.5
    ensures Round(x) == n
  {
    RoundIsNearest(x, n);
  }

  lemma RoundMonotone(x: real, y: real)
    requires x <= y
    ensures Round(x) <= Round(y)
  {
    assert x >= 0.0 ==> (x + 0.5).Floor <= (y + 0.5).Floor;
    assert y < 0.0 ==> (-y + 0.5).Floor <= (-x + 0.5).Floor;
  }

  /** Rounding commutes with adding a whole number of steps above zero. */
  lemma RoundShift(n: int, x: real)
    requires n >= 0 && x >= 0.0
    ensures Round(n as real + x) == n + Round(x)
  {
    assert (n as real + x + 0.5).Floor == n + (x + 0.5).Floor;
  }

  /** A quotient compares with a bound as the numerator compares with the scaled bound. */
  lemma DivideCompare(a: real, b: real, c: real)
    requires b > 0.0
    ensures a / b * b == a
    ensures a < c * b <==> a / b < c
    ensures a == c * b <==> a / b == c
  {
    var q := a / b;
    assert q * b == a;
    if q < c {
      assert (c - q) * b > 0.0;
    } else if q > c {
      assert (q - c) * b > 0.0;
    }
  }

  lemma ProductOfNonNegatives(a: real, b: real)
    requires a >= 0.0 && b >= 0.0
    ensures a * b >= 0.0
  {
  }
}
