/** The parts of JavaScript's `Math` object the engine relies on.
    Numbers are real numbers; `Math.sqrt`, `Math.cos` and `Math.sin` are supplied by
    the caller as a `MathLib` and constrained only by `Lawful`; every `Math.random()`
    draw is a value of type `Unit`. */
module Numerics {

  /** Math.PI, as the double-precision constant JavaScript uses. */
  const PI: real := 3.141592653589793

  /** A value returned by Math.random(): a number in [0, 1). */
  type Unit = r: real | 0.0 <= r < 1.0

  /** The transcendental functions of JavaScript's Math object. */
  datatype MathLib = MathLib(sqrt: real -> real, cos: real -> real, sin: real -> real)

  /** Square roots of positive numbers are positive (so dividing by one is defined).
      Kept apart from `Lawful`, which includes it, because normalising a vector and
      every step that does (the ribbon's snap and pull, its update, the frame) need
      only this much. */
  ghost predicate RootsPositive(m: MathLib) {
    forall x :: 0.0 < x ==> 0.0 < m.sqrt(x)
  }

  /** The only facts about sqrt, cos and sin that the model uses. */
  ghost predicate Lawful(m: MathLib) {
    && RootsPositive(m)
    && (forall x :: 0.0 <= x ==> 0.0 <= m.sqrt(x) && m.sqrt(x) * m.sqrt(x) == x)
    && (forall t :: -1.0 <= m.cos(t) <= 1.0)
    && (forall t :: -1.0 <= m.sin(t) <= 1.0)
  }

  /** JavaScript's Math.round: the nearest integer, halves rounded up. */
  function Round(x: real): (n: int)
    ensures x - 0.5 < n as real <= x + 0.5
  {
    (x + 0.5).Floor
  }

  /** Math.abs. */
  function Abs(x: real): (a: real)
    ensures 0.0 <= a && (a == x || a == -x)
  {
    if x < 0.0 then -x else x
  }

  /** A sum of two squares is never negative, and is zero only when both are zero. */
  lemma SumOfSquares(x: real, y: real)
    ensures 0.0 <= x * x + y * y
    ensures x * x + y * y == 0.0 <==> x == 0.0 && y == 0.0
  {
    SquareNonNegative(x);
    SquareNonNegative(y);
    if x * x + y * y == 0.0 {
      var a, b := x * x, y * y;
      assert a == 0.0 && b == 0.0;
      ProductZero(x, x);
      ProductZero(y, y);
    }
  }

  lemma SquareNonNegative(x: real)
    ensures 0.0 <= x * x
  {
    if x < 0.0 {
      assert x * x == (-x) * (-x);
    }
  }

  lemma ProductZero(a: real, b: real)
    requires a * b == 0.0
    ensures a == 0.0 || b == 0.0
  {
    if a != 0.0 {
      assert b == (a * b) / a;
    }
  }

  /** A factor in [-1, 1] does not enlarge a non-negative magnitude k. */
  lemma UnitScaled(a: real, k: real)
    requires -1.0 <= a <= 1.0 && 0.0 <= k
    ensures -k <= a * k <= k
  {
    if 0.0 <= a {
      assert a * k <= 1.0 * k;
    } else {
      assert (-a) * k <= 1.0 * k;
    }
  }

  /** A random draw scaled by a non-negative bound lies in [0, bound], and below the
      bound when the bound is positive. */
  lemma ScaledUnit(r: Unit, bound: real)
    ensures 0.0 <= bound ==> 0.0 <= r * bound <= bound
    ensures 0.0 < bound ==> r * bound < bound
  {
    if 0.0 < bound {
      assert r * bound < 1.0 * bound;
    }
  }
}
