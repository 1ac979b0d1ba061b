/** Vector2D: an immutable pair of reals. Every operation of the original clones its
    receiver and returns the adjusted copy, which is exactly value semantics. */
module Vectors {
  import opened Numerics

  datatype Vector2D = Vector2D(x: real, y: real) {

    /** The copy `clone()` returns; with value semantics it is the vector itself. */
    function Clone(): Vector2D {
      this
    }

    /** x*x + y*y, the square of the Euclidean length. */
    function SquareLength(): real {
      x * x + y * y
    }

    /** The Euclidean length: the square root of SquareLength() (see LengthSquared). */
    function Length(m: MathLib): real {
      m.sqrt(SquareLength())
    }

    function Add(v: Vector2D): Vector2D {
      Vector2D(x + v.x, y + v.y)
    }

    function Subtract(v: Vector2D): (r: Vector2D)
      ensures r == Sub(this, v)
    {
      Vector2D(x - v.x, y - v.y)
    }

    function Multiply(factor: real): Vector2D {
      Vector2D(x * factor, y * factor)
    }

    /** Division by a number; the original yields Infinity or NaN for a zero factor,
        which reals cannot represent, so a zero factor is excluded. */
    function Divide(factor: real): (r: Vector2D)
      requires factor != 0.0
      ensures r.Multiply(factor) == this
    {
      Vector2D(x / factor, y / factor)
    }

    /** The unit vector in this direction; a vector of squared length 0 is returned
        unchanged instead of being divided by zero (see NormalizedIsUnit). */
    function Normalize(m: MathLib): (r: Vector2D)
      requires RootsPositive(m)
      ensures this == Zero ==> r == Zero
    {
      SquareLengthZero(this);
      var squareLength := SquareLength();
      if squareLength == 0.0 then
        this
      else
        Multiply(1.0 / m.sqrt(squareLength))
    }
  }

  const Zero: Vector2D := Vector2D(0.0, 0.0)

  /** `Vector2D.sub(v0, v1)`: the componentwise difference. */
  function Sub(v0: Vector2D, v1: Vector2D): Vector2D {
    Vector2D(v0.x - v1.x, v0.y - v1.y)
  }

  /** `Vector2D.squareDistance(v0, v1)`. */
  function SquareDistance(v0: Vector2D, v1: Vector2D): (r: real)
    ensures r == Sub(v0, v1).SquareLength()
  {
    var x := v0.x - v1.x;
    var y := v0.y - v1.y;
    assert Sub(v0, v1) == Vector2D(x, y);
    x * x + y * y
  }

  /** A squared length is never negative, and it is zero only for the zero vector. */
  lemma SquareLengthZero(v: Vector2D)
    ensures 0.0 <= v.SquareLength()
    ensures v.SquareLength() == 0.0 <==> v == Zero
  {
    SumOfSquares(v.x, v.y);
  }

  /** A squared distance is never negative, and it is zero only between equal points. */
  lemma SquareDistanceZero(v0: Vector2D, v1: Vector2D)
    ensures 0.0 <= SquareDistance(v0, v1)
    ensures SquareDistance(v0, v1) == 0.0 <==> v0 == v1
  {
    var x, y := v0.x - v1.x, v0.y - v1.y;
    assert SquareDistance(v0, v1) == x * x + y * y;
    SumOfSquares(x, y);
  }

  /** `Vector2D.distance(v0, v1)` (see DistanceSquared). */
  function Distance(v0: Vector2D, v1: Vector2D, m: MathLib): real {
    m.sqrt(SquareDistance(v0, v1))
  }

  /** The length is the non-negative number whose square is the squared length. */
  lemma LengthSquared(v: Vector2D, m: MathLib)
    requires Lawful(m)
    ensures 0.0 <= v.Length(m) && v.Length(m) * v.Length(m) == v.SquareLength()
  {
    SquareLengthZero(v);
  }

  /** The distance is the non-negative number whose square is the squared distance,
      and it is the length of the difference. */
  lemma DistanceSquared(v0: Vector2D, v1: Vector2D, m: MathLib)
    requires Lawful(m)
    ensures var r := Distance(v0, v1, m);
      0.0 <= r && r * r == SquareDistance(v0, v1) && r == Sub(v0, v1).Length(m)
  {
    SquareDistanceZero(v0, v1);
  }

  lemma ScaledSquareLength(v: Vector2D, k: real)
    ensures (v.x * k) * (v.x * k) + (v.y * k) * (v.y * k) == k * k * v.SquareLength()
  {
  }

  lemma UnitAfterScaling(v: Vector2D, m: MathLib)
    requires Lawful(m) && v.SquareLength() != 0.0
    ensures var s := m.sqrt(v.SquareLength());
      s != 0.0 &&
      var u := Vector2D(v.x * (1.0 / s), v.y * (1.0 / s));
      u.x * u.x + u.y * u.y == 1.0 && Vector2D(u.x * s, u.y * s) == v
  {
    var l := v.SquareLength();
    SquareLengthZero(v);
    var s := m.sqrt(l);
    var f := 1.0 / s;
    assert f * s == 1.0;
    ScaledSquareLength(v, f);
    calc {
      f * f * l;
      f * f * (s * s);
      (f * s) * (f * s);
      1.0;
    }
    assert v.x * f * s == v.x * (f * s);
    assert v.y * f * s == v.y * (f * s);
  }

  /** The distance between two points does not depend on their order. */
  lemma DistanceSymmetric(v0: Vector2D, v1: Vector2D, m: MathLib)
    requires Lawful(m)
    ensures SquareDistance(v0, v1) == SquareDistance(v1, v0)
    ensures Distance(v0, v1, m) == Distance(v1, v0, m)
  {
    var dx, dy := v0.x - v1.x, v0.y - v1.y;
    assert dx * dx == (-dx) * (-dx);
    assert dy * dy == (-dy) * (-dy);
  }

  /** A non-zero vector normalizes to a vector of length 1 that, scaled back by the
      original length, gives the original vector. */
  lemma NormalizedIsUnit(v: Vector2D, m: MathLib)
    requires Lawful(m) && v != Zero
    ensures v.Normalize(m).SquareLength() == 1.0
    ensures v.Normalize(m).Multiply(v.Length(m)) == v
  {
    SquareLengthZero(v);
    UnitAfterScaling(v, m);
  }

  /** Adding and then subtracting the same vector gives back the original. */
  lemma AddThenSubtract(v: Vector2D, w: Vector2D)
    ensures v.Add(w).Subtract(w) == v
  {
  }

  /** Vector addition is commutative. */
  lemma AddCommutes(v: Vector2D, w: Vector2D)
    ensures v.Add(w) == w.Add(v)
  {
  }

  /** Scaling by a non-zero factor and dividing by it again gives back the original. */
  lemma MultiplyThenDivide(v: Vector2D, k: real)
    requires k != 0.0
    ensures v.Multiply(k).Divide(k) == v
  {
  }
}
