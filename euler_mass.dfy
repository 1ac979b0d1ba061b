/** EulerMass: a point mass that accumulates forces and then takes one explicit Euler
    step, with a drag term proportional to the square of its speed. */
module PointMass {
  import opened Numerics
  import opened Vectors

  /** Everything an EulerMass holds, as a value. */
  datatype MassState = MassState(position: Vector2D, velocity: Vector2D, force: Vector2D, mass: real, drag: real)

  /** The state of `new EulerMass(x, y, mass, drag)`. */
  function Spawned(x: real, y: real, mass: real, drag: real): (s: MassState)
    ensures s.position == Vector2D(x, y) && s.mass == mass && s.drag == drag
    ensures s.velocity == Zero && s.force == Zero
  {
    MassState(Vector2D(x, y), Zero, Zero, mass, drag)
  }

  /** The state after `addForce(v)`. */
  function Pushed(s: MassState, v: Vector2D): MassState {
    s.(force := s.force.Add(v))
  }

  /** The state after `addForce` with each of `vs` in turn. */
  function PushedAll(s: MassState, vs: seq<Vector2D>): MassState
    decreases |vs|
  {
    if vs == [] then s else PushedAll(Pushed(s, vs[0]), vs[1..])
  }

  /** The sum of a sequence of vectors. */
  function Total(vs: seq<Vector2D>): Vector2D
    decreases |vs|
  {
    if vs == [] then Zero else vs[0].Add(Total(vs[1..]))
  }

  /** `currentForce()`: the accumulated force minus a drag force along the velocity
      whose magnitude is drag * mass * speed * speed. */
  function NetForce(s: MassState, m: MathLib): Vector2D {
    var speed := s.velocity.Length(m);
    var dragVelocity := s.velocity.Multiply(s.drag * s.mass * speed);
    s.force.Subtract(dragVelocity)
  }

  /** The drag removed from the accumulated force has magnitude drag * mass * speed^2:
      its square is (drag * mass)^2 * |velocity|^4. */
  lemma DragIsQuadratic(s: MassState, m: MathLib)
    requires Lawful(m)
    ensures var k := s.drag * s.mass; var l := s.velocity.SquareLength();
      Sub(s.force, NetForce(s, m)).SquareLength() == k * k * (l * l)
  {
    LengthSquared(s.velocity, m);
    DragFacts(s.force, s.velocity, s.drag * s.mass, s.velocity.Length(m));
  }

  lemma DragFacts(f: Vector2D, v: Vector2D, k: real, speed: real)
    requires speed * speed == v.SquareLength()
    ensures var l := v.SquareLength();
      Sub(f, f.Subtract(v.Multiply(k * speed))).SquareLength() == k * k * (l * l)
  {
    var d := v.Multiply(k * speed);
    SubtractBack(f, d);
    DragMagnitude(v, k, speed);
  }

  lemma SubtractBack(f: Vector2D, d: Vector2D)
    ensures Sub(f, f.Subtract(d)) == d
  {
  }

  /** A mass at rest feels exactly the force accumulated on it: drag needs motion. */
  lemma RestingForce(s: MassState, m: MathLib)
    requires s.velocity == Zero
    ensures NetForce(s, m) == s.force
  {
    NoDragAtRest(s.force, s.velocity, s.drag * s.mass * s.velocity.Length(m));
  }

  lemma NoDragAtRest(f: Vector2D, v: Vector2D, c: real)
    ensures v == Zero ==> f.Subtract(v.Multiply(c)) == f
  {
  }

  lemma DragMagnitude(v: Vector2D, k: real, speed: real)
    requires speed * speed == v.SquareLength()
    ensures var l := v.SquareLength();
      v.Multiply(k * speed).SquareLength() == k * k * (l * l)
  {
    var l := v.SquareLength();
    assert v.Multiply(k * speed).SquareLength() == (k * speed) * (k * speed) * l;
    SquareOfScaledRoot(k, speed, l);
  }

  lemma SquareOfScaledRoot(k: real, s: real, l: real)
    requires s * s == l
    ensures (k * s) * (k * s) * l == k * k * (l * l)
  {
    assert (k * s) * (k * s) == (k * k) * (s * s);
  }

  /** The state after `integrate(dt)`: one explicit Euler step that consumes the
      accumulated force. */
  function Integrated(s: MassState, dt: real, m: MathLib): (r: MassState)
    requires s.mass != 0.0
    ensures r.force == Zero
    ensures r.mass == s.mass && r.drag == s.drag
  {
    var acceleration := NetForce(s, m).Divide(s.mass).Multiply(dt);
    var deltaPosition := s.velocity.Multiply(dt);
    MassState(s.position.Add(deltaPosition), s.velocity.Add(acceleration), Zero, s.mass, s.drag)
  }

  /** The Euler step is Newton's second law over dt: the position moves by
      velocity * dt and mass times the change of velocity is net force * dt. */
  lemma EulerStep(s: MassState, dt: real, m: MathLib)
    requires s.mass != 0.0
    ensures var r := Integrated(s, dt, m);
      && Sub(r.position, s.position) == s.velocity.Multiply(dt)
      && Sub(r.velocity, s.velocity).Multiply(s.mass) == NetForce(s, m).Multiply(dt)
  {
    var f := NetForce(s, m);
    ScaledQuotient(s.velocity.x, f.x, s.mass, dt);
    ScaledQuotient(s.velocity.y, f.y, s.mass, dt);
  }

  lemma ScaledQuotient(v: real, a: real, k: real, dt: real)
    requires k != 0.0
    ensures (v + a / k * dt - v) * k == a * dt
  {
    assert a / k * dt * k == a * dt;
  }

  /** Repeated `addForce` calls sum their arguments into the accumulator and change
      nothing else. */
  lemma {:induction false} PushedAllSums(s: MassState, vs: seq<Vector2D>)
    ensures PushedAll(s, vs) == s.(force := s.force.Add(Total(vs)))
    decreases |vs|
  {
    if vs != [] {
      PushedAllSums(Pushed(s, vs[0]), vs[1..]);
    }
  }

  /** A mass at rest with nothing accumulated stays where it is. */
  lemma RestIsFixed(s: MassState, dt: real, m: MathLib)
    requires s.mass != 0.0
    requires s.velocity == Zero && s.force == Zero
    ensures Integrated(s, dt, m) == s
  {
    RestingForce(s, m);
    StillStep(s.position, s.velocity, NetForce(s, m), s.mass, dt);
  }

  lemma StillStep(p: Vector2D, v: Vector2D, f: Vector2D, k: real, dt: real)
    requires v == Zero && f == Zero && k != 0.0
    ensures p.Add(v.Multiply(dt)) == p && v.Add(f.Divide(k).Multiply(dt)) == v
  {
  }

  class EulerMass {
    var position: Vector2D
    const mass: real
    const drag: real
    var force: Vector2D
    var velocity: Vector2D

    function State(): MassState
      reads this
    {
      MassState(position, velocity, force, mass, drag)
    }

    constructor(x: real, y: real, mass: real, drag: real)
      ensures State() == Spawned(x, y, mass, drag)
    {
      this.position := Vector2D(x, y);
      this.mass := mass;
      this.drag := drag;
      this.force := Vector2D(0.0, 0.0);
      this.velocity := Vector2D(0.0, 0.0);
    }

    method AddForce(v: Vector2D)
      modifies this
      ensures State() == Pushed(old(State()), v)
    {
      force := force.Add(v);
    }

    function CurrentForce(m: MathLib): Vector2D
      reads this
    {
      NetForce(State(), m)
    }

    method Integrate(dt: real, m: MathLib)
      requires mass != 0.0
      modifies this
      ensures State() == Integrated(old(State()), dt, m)
    {
      var acceleration := CurrentForce(m).Divide(mass).Multiply(dt);
      var deltaPosition := velocity.Multiply(dt);
      position := position.Add(deltaPosition);
      velocity := velocity.Add(acceleration);
      force := Vector2D(0.0, 0.0);
    }
  }
}
