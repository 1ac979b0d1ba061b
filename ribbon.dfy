/** ConfettiRibbon: a chain of point masses hanging from a head that falls and sways.
    Each update moves the head, pins the first particle to it, pulls every other
    particle towards its predecessor, integrates them, and then puts each one back
    at exactly `particleDistance` from its (already corrected) predecessor. When the
    head has fallen far enough below the container the whole ribbon is rebuilt
    above it. The container's size is passed in where the original reads it from
    its parent Confetti. */
module Ribbon {
  import opened Numerics
  import opened Vectors
  import opened PointMass
  import opened Palette
  import opened Optional

  const VELOCITY_INHERIT_INITIAL_MAX: real := 2.0
  const TIME_INITIAL_MAX: real := 10.0
  const OSCILLATION_SPEED_VARIANCE: real := 2.0
  const OSCILLATION_SPEED_MINIMUM: real := 1.5
  const OSCILLATION_DISTANCE_VARIANCE: real := 40.0
  const OSCILLATION_DISTANCE_MINIMUM: real := 40.0
  const Y_VELOCITY_VARIANCE: real := 40.0
  const Y_VELOCITY_MINIMUM: real := 80.0

  /** The optional part of the constructor's configuration. */
  datatype RibbonConfig = RibbonConfig(
    particleCount: Option<nat>, particleMass: Option<real>, particleDrag: Option<real>,
    particleDistance: Option<real>, thickness: Option<real>, angle: Option<real>)

  /** The configuration Confetti passes: nothing but the parent and the colours. */
  const DEFAULT_CONFIG := RibbonConfig(None, None, None, None, None, None)

  /** The configuration after the constructor's defaults are applied. */
  datatype RibbonSettings = RibbonSettings(
    particleCount: nat, particleMass: real, particleDrag: real,
    particleDistance: real, thickness: real, angle: real)

  /** The constructor's destructuring defaults: 30 particles of mass 1 and drag
      0.05, 8 apart, a ribbon 8 thick at 45 degrees. Given values are kept. */
  function Resolve(c: RibbonConfig): (st: RibbonSettings)
    ensures c == DEFAULT_CONFIG ==> st == RibbonSettings(30, 1.0, 0.05, 8.0, 8.0, PI / 4.0)
    ensures c.particleCount.Some? ==> st.particleCount == c.particleCount.value
    ensures c.particleMass.Some? ==> st.particleMass == c.particleMass.value
    ensures c.particleDrag.Some? ==> st.particleDrag == c.particleDrag.value
    ensures c.particleDistance.Some? ==> st.particleDistance == c.particleDistance.value
    ensures c.thickness.Some? ==> st.thickness == c.thickness.value
    ensures c.angle.Some? ==> st.angle == c.angle.value
  {
    RibbonSettings(
      c.particleCount.GetOr(30), c.particleMass.GetOr(1.0), c.particleDrag.GetOr(0.05),
      c.particleDistance.GetOr(8.0), c.thickness.GetOr(8.0), c.angle.GetOr(PI / 4.0))
  }

  /** The `Math.random()` draws of `reset`, in the order it makes them; `colors` is
      the draw behind `fetchColors()`. */
  datatype RibbonDraws = RibbonDraws(
    x: Unit, y: Unit, colors: Unit, time: Unit, oscillationSpeed: Unit,
    oscillationDistance: Unit, velocityInherit: Unit, yVelocity: Unit)

  /** The fields of a ConfettiRibbon that `reset` and `update` change, as a value;
      the particles are given by their states. */
  datatype RibbonState = RibbonState(
    currPosition: Vector2D, prevPosition: Vector2D, frontColor: string, backColor: string,
    time: real, velocityInherit: real, oscillationSpeed: real, oscillationDistance: real,
    yVelocity: real, particles: seq<MassState>)

  /** The particles have the configured number, mass and drag. */
  ghost predicate Fits(st: RibbonSettings, ps: seq<MassState>) {
    && |ps| == st.particleCount
    && forall i :: 0 <= i < |ps| ==> ps[i].mass == st.particleMass && ps[i].drag == st.particleDrag
  }

  /** The head has not moved since the last step: the previous position, the head
      and the first particle coincide, and no particle holds an unspent force. */
  ghost predicate Settled(s: RibbonState) {
    && |s.particles| > 0
    && s.prevPosition == s.currPosition
    && s.particles[0].position == s.currPosition
    && s.particles[0].velocity == Zero
    && forall i :: 0 <= i < |s.particles| ==> s.particles[i].force == Zero
  }

  /** Every particle is either exactly `d` away from its predecessor or on top of it. */
  ghost predicate Spaced(ps: seq<MassState>, d: real) {
    forall i :: 0 < i < |ps| ==>
      ps[i].position == ps[i - 1].position ||
      SquareDistance(ps[i].position, ps[i - 1].position) == d * d
  }

  /** The particles `reset` lays out straight down from the head at (x, y). */
  function Chain(x: real, y: real, st: RibbonSettings): (ps: seq<MassState>)
    ensures |ps| == st.particleCount
    ensures forall i :: 0 <= i < |ps| ==>
      ps[i] == Spawned(x, y - i as real * st.particleDistance, st.particleMass, st.particleDrag)
  {
    seq(st.particleCount, i => Link(x, y, st, i))
  }

  /** Particle i of the laid-out chain, i * particleDistance below the head. */
  function Link(x: real, y: real, st: RibbonSettings, i: int): MassState {
    Spawned(x, y - i as real * st.particleDistance, st.particleMass, st.particleDrag)
  }

  /** The laid-out chain fits the settings, starts at the head, is at rest and has
      its neighbours exactly `particleDistance` apart. */
  lemma ChainShape(x: real, y: real, st: RibbonSettings)
    ensures var ps := Chain(x, y, st);
      && Fits(st, ps)
      && (0 < |ps| ==> ps[0].position == Vector2D(x, y))
      && (forall i :: 0 <= i < |ps| ==> ps[i].velocity == Zero && ps[i].force == Zero)
      && Spaced(ps, st.particleDistance)
  {
    var ps := Chain(x, y, st);
    if 0 < |ps| {
      assert ps[0].position == Vector2D(x, y - 0 as real * st.particleDistance);
    }
    ChainSpaced(x, y, st);
  }

  lemma ChainSpaced(x: real, y: real, st: RibbonSettings)
    ensures Spaced(Chain(x, y, st), st.particleDistance)
  {
    var ps, k := Chain(x, y, st), st.particleDistance;
    forall i | 0 < i < |ps|
      ensures SquareDistance(ps[i].position, ps[i - 1].position) == k * k
    {
      ChainStep(x, y, st, i);
    }
  }

  lemma ChainStep(x: real, y: real, st: RibbonSettings, i: nat)
    requires 0 < i < st.particleCount
    ensures var ps := Chain(x, y, st);
      SquareDistance(ps[i].position, ps[i - 1].position) == st.particleDistance * st.particleDistance
  {
    var ps := Chain(x, y, st);
    ChainGap(y, i, st.particleDistance);
    StepDown(ps[i].position, ps[i - 1].position, st.particleDistance);
  }

  lemma ChainGap(y: real, i: nat, k: real)
    requires 0 < i
    ensures (y - (i - 1) as real * k) - (y - i as real * k) == k
  {
    assert (i - 1) as real * k == i as real * k - 1.0 * k;
  }

  /** Two points one above the other, k apart vertically, are k apart. */
  lemma StepDown(a: Vector2D, b: Vector2D, k: real)
    requires a.x == b.x && b.y - a.y == k
    ensures SquareDistance(a, b) == k * k
  {
    assert Sub(a, b) == Vector2D(0.0, -k);
  }

  /** The state `reset()` leaves in a width x height container: the head and the
      previous position coincide, the colours come from the palette and the
      particles hang straight down from the head. */
  function Restarted(st: RibbonSettings, width: real, height: real, d: RibbonDraws, palette: seq<ColorPair>): (s: RibbonState)
    requires |palette| > 0
    ensures s.prevPosition == s.currPosition
    ensures ColorPair(s.frontColor, s.backColor) in palette
    ensures s.particles == Chain(s.currPosition.x, s.currPosition.y, st)
  {
    var x := d.x * width;
    var y := -1.0 * d.y * height * 2.0;
    var colors := PickColors(palette, d.colors);
    RibbonState(
      currPosition := Vector2D(x, y),
      prevPosition := Vector2D(x, y),
      frontColor := colors.front,
      backColor := colors.back,
      time := d.time * TIME_INITIAL_MAX,
      velocityInherit := d.velocityInherit * VELOCITY_INHERIT_INITIAL_MAX,
      oscillationSpeed := d.oscillationSpeed * OSCILLATION_SPEED_VARIANCE + OSCILLATION_SPEED_MINIMUM,
      oscillationDistance := d.oscillationDistance * OSCILLATION_DISTANCE_VARIANCE + OSCILLATION_DISTANCE_MINIMUM,
      yVelocity := d.yVelocity * Y_VELOCITY_VARIANCE + Y_VELOCITY_MINIMUM,
      particles := Chain(x, y, st))
  }

  /** A reset places the head in the top-left [0, width) x (-2 height, 0] band above
      the container and draws every motion parameter from its documented range. */
  lemma RestartedRanges(st: RibbonSettings, width: real, height: real, d: RibbonDraws, palette: seq<ColorPair>)
    requires |palette| > 0
    ensures 0.0 < width ==> 0.0 <= Restarted(st, width, height, d, palette).currPosition.x < width
    ensures 0.0 < height ==> -2.0 * height < Restarted(st, width, height, d, palette).currPosition.y <= 0.0
    ensures var s := Restarted(st, width, height, d, palette);
      && 0.0 <= s.time < 10.0
      && 1.5 <= s.oscillationSpeed < 3.5
      && 40.0 <= s.oscillationDistance < 80.0
      && 0.0 <= s.velocityInherit < 2.0
      && 80.0 <= s.yVelocity < 120.0
  {
    var s := Restarted(st, width, height, d, palette);
    assert s.currPosition.x == d.x * width;
    assert s.currPosition.y == -1.0 * d.y * height * 2.0;
    ScaledUnit(d.x, width);
    assert 0.0 < width ==> 0.0 <= d.x * width < width;
    RaisedAbove(d.y, height);
    assert 0.0 < height ==> -2.0 * height < -1.0 * d.y * height * 2.0 <= 0.0;
  }

  /** `-1 * random * height * 2` lies in (-2 height, 0] for a positive height. */
  lemma RaisedAbove(r: Unit, h: real)
    ensures 0.0 < h ==> -2.0 * h < -1.0 * r * h * 2.0 <= 0.0
  {
    ScaledUnit(r, h);
    assert -1.0 * r * h * 2.0 == -2.0 * (r * h);
  }

  /** A freshly reset ribbon fits its settings, is settled (when it has particles)
      and has its particles spaced exactly `particleDistance` apart. */
  lemma RestartedIsSettled(st: RibbonSettings, width: real, height: real, d: RibbonDraws, palette: seq<ColorPair>)
    requires |palette| > 0
    ensures var s := Restarted(st, width, height, d, palette);
      && Fits(st, s.particles)
      && (0 < st.particleCount ==> Settled(s))
      && Spaced(s.particles, st.particleDistance)
  {
    var s := Restarted(st, width, height, d, palette);
    ChainShape(s.currPosition.x, s.currPosition.y, st);
  }

  /** A rule that computes a particle's new position, or the force on it, from its
      predecessor's position and its own. */
  type Rule = (Vector2D, Vector2D) -> Vector2D

  /** The position a particle at `p` is put at so that it hangs `d` from `prev`:
      `p.subtract(prev).normalize().multiply(d).add(prev)`. */
  function Snap(prev: Vector2D, p: Vector2D, d: real, m: MathLib): Vector2D
    requires RootsPositive(m)
  {
    p.Subtract(prev).Normalize(m).Multiply(d).Add(prev)
  }

  function SnapRule(d: real, m: MathLib): Rule
    requires RootsPositive(m)
  {
    (prev, p) => Snap(prev, p, d, m)
  }

  /** The force of the first loop of `update`: a pull of strength k towards the
      predecessor, `normalize(sub(prev, p)).multiply(k)`. */
  function Pull(prev: Vector2D, p: Vector2D, k: real, m: MathLib): Vector2D
    requires RootsPositive(m)
  {
    Sub(prev, p).Normalize(m).Multiply(k)
  }

  function PullRule(k: real, m: MathLib): Rule
    requires RootsPositive(m)
  {
    (prev, p) => Pull(prev, p, k, m)
  }

  /** A particle is snapped to exactly `d` from its predecessor, or onto it when the
      two coincided. */
  lemma SnapDistance(prev: Vector2D, p: Vector2D, d: real, m: MathLib)
    requires Lawful(m)
    ensures p == prev ==> Snap(prev, p, d, m) == prev
    ensures p != prev ==> SquareDistance(Snap(prev, p, d, m), prev) == d * d
  {
    var u := p.Subtract(prev);
    if p == prev {
      assert u == Zero;
    } else {
      assert u != Zero by {
        assert u.x == p.x - prev.x && u.y == p.y - prev.y;
      }
      NormalizedIsUnit(u, m);
      SnapOffset(prev, u.Normalize(m), d);
    }
  }

  lemma SnapOffset(prev: Vector2D, n: Vector2D, d: real)
    requires n.SquareLength() == 1.0
    ensures SquareDistance(n.Multiply(d).Add(prev), prev) == d * d
  {
    var q := n.Multiply(d);
    assert Sub(q.Add(prev), prev) == q;
    ScaledSquareLength(n, d);
  }

  /** A particle on top of its predecessor feels no pull. */
  lemma NoPullWhenTogether(p: Vector2D, k: real, m: MathLib)
    requires RootsPositive(m)
    ensures Pull(p, p, k, m) == Zero
  {
    assert Sub(p, p) == Zero;
  }

  /** Otherwise the pull has magnitude |k| (its square is k * k). */
  lemma PullStrength(prev: Vector2D, p: Vector2D, k: real, m: MathLib)
    requires Lawful(m) && prev != p
    ensures Pull(prev, p, k, m).SquareLength() == k * k
  {
    var u := Sub(prev, p);
    assert u != Zero by {
      assert u.x == prev.x - p.x && u.y == prev.y - p.y;
    }
    NormalizedIsUnit(u, m);
    ScaledSquareLength(u.Normalize(m), k);
  }

  /** The first loop of `update`: every particle but the first receives the force
      `pull` computes from its predecessor's position and its own. */
  function Pulled(ps: seq<MassState>, pull: Rule): (r: seq<MassState>)
    ensures |r| == |ps|
    ensures forall i :: 0 <= i < |ps| ==> r[i] == ps[i].(force := r[i].force)
    ensures 0 < |ps| ==> r[0] == ps[0]
  {
    seq(|ps|, i requires 0 <= i < |ps| => PulledAt(ps, pull, i))
  }

  /** The force the first loop adds to particle i > 0 is `pull` of its predecessor's
      position and its own, on top of what the particle already held. */
  lemma PulledForces(ps: seq<MassState>, pull: Rule)
    ensures forall i :: 0 < i < |ps| ==>
      Pulled(ps, pull)[i].force == ps[i].force.Add(pull(ps[i - 1].position, ps[i].position))
  {
    forall i | 0 < i < |ps|
      ensures Pulled(ps, pull)[i].force == ps[i].force.Add(pull(ps[i - 1].position, ps[i].position))
    {
      assert Pulled(ps, pull)[i] == PulledAt(ps, pull, i);
    }
  }

  function PulledAt(ps: seq<MassState>, pull: Rule, i: nat): (p: MassState)
    requires i < |ps|
    ensures p == ps[i].(force := p.force)
  {
    if i == 0 then ps[0] else Pushed(ps[i], pull(ps[i - 1].position, ps[i].position))
  }

  /** The second loop of `update`: every particle but the first takes an Euler step. */
  function IntegratedTail(ps: seq<MassState>, dt: real, m: MathLib): (r: seq<MassState>)
    requires forall i :: 0 < i < |ps| ==> ps[i].mass != 0.0
    ensures |r| == |ps|
    ensures 0 < |ps| ==> r[0] == ps[0]
    ensures forall i :: 0 < i < |ps| ==> r[i].force == Zero
    ensures forall i :: 0 <= i < |ps| ==> r[i].mass == ps[i].mass && r[i].drag == ps[i].drag
  {
    seq(|ps|, i requires 0 <= i < |ps| =>
      if i == 0 then ps[0] else Integrated(ps[i], dt, m))
  }

  /** The third loop of `update`: particle i (from 1 on) is put where `place` says,
      given its predecessor's already corrected position; one after the other. */
  function Constrained(ps: seq<MassState>, place: Rule): (r: seq<MassState>)
    ensures |r| == |ps|
    ensures 0 < |ps| ==> r[0] == ps[0]
    decreases |ps|
  {
    if |ps| <= 1 then ps
    else
      var front := Constrained(ps[..|ps| - 1], place);
      var last := ps[|ps| - 1];
      front + [last.(position := place(front[|front| - 1].position, last.position))]
  }

  /** Correcting a prefix of the chain gives the prefix of the corrected chain. */
  lemma {:induction false} ConstrainedPrefix(ps: seq<MassState>, place: Rule, k: nat)
    requires k <= |ps|
    ensures Constrained(ps, place)[..k] == Constrained(ps[..k], place)
    decreases |ps|
  {
    if k < |ps| && 1 < |ps| {
      var front := ps[..|ps| - 1];
      ConstrainedPrefix(front, place, k);
      assert front[..k] == ps[..k];
    } else if k == |ps| {
      assert ps[..k] == ps;
    }
  }

  /** The corrected chain, particle by particle: only positions change, and each
      one is placed relative to the corrected predecessor. */
  lemma {:induction false} ConstrainedAt(ps: seq<MassState>, place: Rule, i: nat)
    requires 0 < i < |ps|
    ensures var r := Constrained(ps, place);
      r[i] == ps[i].(position := place(r[i - 1].position, ps[i].position))
  {
    var r := Constrained(ps, place);
    ConstrainedPrefix(ps, place, i + 1);
    var q := ps[..i + 1];
    assert q[..|q| - 1] == ps[..i];
    ConstrainedPrefix(ps, place, i);
    assert r[..i + 1][i - 1] == r[i - 1];
  }

  /** After the correction pass the chain is spaced. */
  lemma ConstrainedSpaced(ps: seq<MassState>, d: real, m: MathLib)
    requires Lawful(m)
    ensures Spaced(Constrained(ps, SnapRule(d, m)), d)
  {
    var r := Constrained(ps, SnapRule(d, m));
    forall i | 0 < i < |r|
      ensures r[i].position == r[i - 1].position ||
              SquareDistance(r[i].position, r[i - 1].position) == d * d
    {
      ConstrainedAt(ps, SnapRule(d, m), i);
      SnapDistance(r[i - 1].position, ps[i].position, d, m);
    }
  }

  /** What a step may assume: the particles fit the settings, there is at least one,
      and their mass allows division. */
  ghost predicate Steppable(st: RibbonSettings, s: RibbonState) {
    Fits(st, s.particles) && 0 < st.particleCount && st.particleMass != 0.0
  }

  /** The head after one step of `update`: the oscillation clock advances by
      dt * oscillationSpeed, then the head sways by cos(time) * oscillationDistance * dt
      and falls by yVelocity * dt. */
  function Head(s: RibbonState, dt: real, m: MathLib): (h: Vector2D)
    ensures h.y == s.currPosition.y + s.yVelocity * dt
  {
    var time := s.time + dt * s.oscillationSpeed;
    Vector2D(s.currPosition.x + m.cos(time) * s.oscillationDistance * dt, s.currPosition.y + s.yVelocity * dt)
  }

  /** The strength of the pull: the distance the head moved, per unit of time, times
      velocityInherit. */
  function Inheritance(s: RibbonState, head: Vector2D, dt: real, m: MathLib): real
    requires dt != 0.0
  {
    (Distance(s.prevPosition, head, m) / dt) * s.velocityInherit
  }

  /** The particles after the first particle is moved to the head, the pull is
      applied and the tail is integrated. */
  function Loosened(st: RibbonSettings, s: RibbonState, head: Vector2D, dt: real, m: MathLib): (ps: seq<MassState>)
    requires Steppable(st, s) && dt != 0.0 && RootsPositive(m)
    ensures Fits(st, ps)
    ensures ps[0] == s.particles[0].(position := head)
    ensures forall i :: 0 < i < |ps| ==> ps[i].force == Zero
  {
    var pinned := s.particles[0 := s.particles[0].(position := head)];
    var pulled := Pulled(pinned, PullRule(Inheritance(s, head, dt, m), m));
    IntegratedTail(pulled, dt, m)
  }

  /** The head part of `update(dt)`: the clock advances, the head moves and the
      previous position catches up with it. The particles are not touched. */
  function Swung(s: RibbonState, dt: real, m: MathLib): (t: RibbonState)
    ensures t.time == s.time + dt * s.oscillationSpeed
    ensures t.particles == s.particles
  {
    var head := Head(s, dt, m);
    s.(time := s.time + dt * s.oscillationSpeed, currPosition := head, prevPosition := head)
  }

  /** `update(dt)` up to, but not including, the check for a reset. */
  function Moved(st: RibbonSettings, s: RibbonState, dt: real, m: MathLib): (t: RibbonState)
    requires Steppable(st, s) && dt != 0.0 && RootsPositive(m)
  {
    var swung := Swung(s, dt, m);
    swung.(particles := Constrained(Loosened(st, s, swung.currPosition, dt, m), SnapRule(st.particleDistance, m)))
  }

  /** How far below the container the head may fall before the ribbon is rebuilt. */
  function ResetLine(st: RibbonSettings, height: real): real {
    height + st.particleDistance * st.particleCount as real
  }

  /** The state after `update(dt)`: the moved ribbon, or a rebuilt one when the head
      ended below the reset line. */
  function Stepped(st: RibbonSettings, s: RibbonState, dt: real, width: real, height: real,
                   d: RibbonDraws, palette: seq<ColorPair>, m: MathLib): (t: RibbonState)
    requires Steppable(st, s) && dt != 0.0 && RootsPositive(m) && |palette| > 0
  {
    var moved := Moved(st, s, dt, m);
    if moved.currPosition.y > ResetLine(st, height) then Restarted(st, width, height, d, palette)
    else moved
  }

  /** One step lowers the head by exactly yVelocity * dt; the previous position, the head and the first particle
      then coincide. */
  lemma MovedHead(st: RibbonSettings, s: RibbonState, dt: real, m: MathLib)
    requires Steppable(st, s) && dt != 0.0 && RootsPositive(m)
    ensures var t := Moved(st, s, dt, m);
      && t.currPosition.y == s.currPosition.y + s.yVelocity * dt
      && t.prevPosition == t.currPosition
      && t.particles[0] == s.particles[0].(position := t.currPosition)
  {
    var ps := Loosened(st, s, Head(s, dt, m), dt, m);
    assert Constrained(ps, SnapRule(st.particleDistance, m))[0] == ps[0];
  }

  /** A step advances the clock by exactly dt * oscillationSpeed and changes only the
      clock, the head, the previous position and the particles: the colours,
      velocityInherit, oscillationSpeed, oscillationDistance and yVelocity are kept. */
  lemma MovedKeepsParameters(st: RibbonSettings, s: RibbonState, dt: real, m: MathLib)
    requires Steppable(st, s) && dt != 0.0 && RootsPositive(m)
    ensures var t := Moved(st, s, dt, m);
      && t.time == s.time + dt * s.oscillationSpeed
      && t.frontColor == s.frontColor && t.backColor == s.backColor
      && t.velocityInherit == s.velocityInherit && t.oscillationSpeed == s.oscillationSpeed
      && t.oscillationDistance == s.oscillationDistance && t.yVelocity == s.yVelocity
  {
    var sw := Swung(s, dt, m);
    var ps := Constrained(Loosened(st, s, sw.currPosition, dt, m), SnapRule(st.particleDistance, m));
    assert Moved(st, s, dt, m) == sw.(particles := ps);
  }

  /** After a step the count, masses and drags are kept and no particle but the
      first holds a force: each one spent its pull in the Euler step. */
  lemma MovedParticles(st: RibbonSettings, s: RibbonState, dt: real, m: MathLib)
    requires Steppable(st, s) && dt != 0.0 && RootsPositive(m)
    ensures var t := Moved(st, s, dt, m);
      && Fits(st, t.particles)
      && forall i :: 0 < i < |t.particles| ==> t.particles[i].force == Zero
  {
    var ps := Loosened(st, s, Head(s, dt, m), dt, m);
    var place := SnapRule(st.particleDistance, m);
    var r := Constrained(ps, place);
    forall i | 0 < i < |r|
      ensures r[i] == ps[i].(position := r[i].position)
    {
      ConstrainedAt(ps, place, i);
    }
  }

  /** `update` keeps the ribbon settled, fitting and spaced: whether or not it
      rebuilds the chain, the head, the previous position and the first particle
      coincide, no force is left over, and neighbours are `particleDistance` apart. */
  lemma SteppedKeepsShape(st: RibbonSettings, s: RibbonState, dt: real, width: real, height: real,
                          d: RibbonDraws, palette: seq<ColorPair>, m: MathLib)
    requires Steppable(st, s) && Settled(s) && dt != 0.0 && Lawful(m) && |palette| > 0
    ensures var t := Stepped(st, s, dt, width, height, d, palette, m);
      Fits(st, t.particles) && Settled(t) && Spaced(t.particles, st.particleDistance)
  {
    var moved := Moved(st, s, dt, m);
    if moved.currPosition.y > ResetLine(st, height) {
      RestartedIsSettled(st, width, height, d, palette);
    } else {
      MovedHead(st, s, dt, m);
      MovedParticles(st, s, dt, m);
      ConstrainedSpaced(Loosened(st, s, Head(s, dt, m), dt, m), st.particleDistance, m);
    }
  }

  /** The rebuild happens exactly when the head, lowered by yVelocity * dt, passes
      the reset line. */
  lemma ResetExactlyBelowLine(st: RibbonSettings, s: RibbonState, dt: real, width: real, height: real,
                              d: RibbonDraws, palette: seq<ColorPair>, m: MathLib)
    requires Steppable(st, s) && dt != 0.0 && RootsPositive(m) && |palette| > 0
    ensures Stepped(st, s, dt, width, height, d, palette, m) ==
      if s.currPosition.y + s.yVelocity * dt > ResetLine(st, height)
      then Restarted(st, width, height, d, palette) else Moved(st, s, dt, m)
  {
    MovedHead(st, s, dt, m);
  }

  /** `sideFacing(particle, nextParticle, p1)`: the cross product that tells which
      side of the ribbon faces the viewer. */
  function SideFacing(a: Vector2D, b: Vector2D, c: Vector2D): real {
    (a.x - b.x) * (c.y - b.y) - (a.y - b.y) * (c.x - b.x)
  }

  /** Measured at the offset end of a segment, the facing is the cross product of
      the segment's direction with the offset: it does not depend on where the
      segment is, only on how it is turned. */
  lemma FacingIsCross(a: Vector2D, b: Vector2D, off: Vector2D)
    ensures var u := Sub(a, b);
      SideFacing(a, b, b.Add(off)) == u.x * off.y - u.y * off.x
  {
    var c := b.Add(off);
    assert c.y - b.y == off.y && c.x - b.x == off.x;
  }

  /** Turning a segment around flips the side it shows: of the two orientations of a
      segment that is not a point, exactly one shows the front when the offset is not
      parallel to it. */
  lemma ReversedSegmentFlipsSide(a: Vector2D, b: Vector2D, off: Vector2D)
    ensures SideFacing(b, a, a.Add(off)) == -SideFacing(a, b, b.Add(off))
  {
    FacingIsCross(a, b, off);
    FacingIsCross(b, a, off);
    var u, w := Sub(a, b), Sub(b, a);
    assert w.x == -u.x && w.y == -u.y;
    assert w.x * off.y == -(u.x * off.y);
    assert w.y * off.x == -(u.y * off.x);
  }

  /** Two particles on top of each other show the back colour. */
  lemma CoincidentShowsBack(a: Vector2D, c: Vector2D)
    ensures SideFacing(a, a, c) == 0.0
  {
    assert (a.x - a.x) * (c.y - a.y) == 0.0;
    assert (a.y - a.y) * (c.x - a.x) == 0.0;
  }

  /** The halfway point used by the triangle paths. */
  function Midpoint(a: Vector2D, b: Vector2D): Vector2D {
    Vector2D((a.x + b.x) * 0.5, (a.y + b.y) * 0.5)
  }

  /** What one pass of the drawing loop fills: a colour and the closed paths it
      fills (and strokes) in that colour. */
  datatype Shape = Shape(color: string, paths: seq<seq<Vector2D>>)

  /** The shape drawn for the segment from particle i to particle i + 1 of a ribbon
      offset by `off`: two triangles for the first segment (`drawFirstParticle`) and
      for the last one (`drawMiddleParticle`), one quadrilateral in between
      (`drawLastParticle`). */
  function SegmentShape(ps: seq<MassState>, i: nat, off: Vector2D, front: string, back: string): (sh: Shape)
    requires i + 1 < |ps|
    ensures SideFacing(ps[i].position, ps[i + 1].position, ps[i + 1].position.Add(off)) < 0.0 ==> sh.color == front
    ensures SideFacing(ps[i].position, ps[i + 1].position, ps[i + 1].position.Add(off)) >= 0.0 ==> sh.color == back
    ensures |sh.paths| == if i == 0 || i == |ps| - 2 then 2 else 1
    ensures forall k :: 0 <= k < |sh.paths| ==> |sh.paths[k]| == if i == 0 || i == |ps| - 2 then 3 else 4
    ensures i == 0 ==> forall k :: 0 <= k < |sh.paths| ==>
      sh.paths[k][2] == Midpoint(ps[1].position, ps[1].position.Add(off))
    ensures 0 < i == |ps| - 2 ==> forall k :: 0 <= k < |sh.paths| ==>
      sh.paths[k][2] == Midpoint(ps[i].position, ps[i].position.Add(off))
  {
    var a, b := ps[i].position, ps[i + 1].position;
    var p0, p1 := a.Add(off), b.Add(off);
    var color := if SideFacing(a, b, p1) < 0.0 then front else back;
    if i == 0 then Shape(color, FirstPaths(a, b, p0, p1))
    else if i == |ps| - 2 then Shape(color, MiddlePaths(a, b, p0, p1))
    else Shape(color, LastPaths(a, b, p0, p1))
  }

  /** `drawFirstParticle`: two triangles meeting halfway along the offset edge at
      the next particle. */
  function FirstPaths(a: Vector2D, b: Vector2D, p0: Vector2D, p1: Vector2D): seq<seq<Vector2D>> {
    [[a, b, Midpoint(b, p1)], [p1, p0, Midpoint(b, p1)]]
  }

  /** `drawMiddleParticle`: two triangles meeting halfway along the offset edge at
      the particle itself. */
  function MiddlePaths(a: Vector2D, b: Vector2D, p0: Vector2D, p1: Vector2D): seq<seq<Vector2D>> {
    [[a, b, Midpoint(a, p0)], [p1, p0, Midpoint(a, p0)]]
  }

  /** `drawLastParticle`: the quadrilateral between the segment and its offset copy. */
  function LastPaths(a: Vector2D, b: Vector2D, p0: Vector2D, p1: Vector2D): seq<seq<Vector2D>> {
    [[a, b, p1, p0]]
  }

  /** Everything `draw` fills, segment by segment. */
  function Drawn(s: RibbonState, off: Vector2D): (shapes: seq<Shape>)
    ensures |shapes| == if |s.particles| == 0 then 0 else |s.particles| - 1
  {
    var n := if |s.particles| == 0 then 0 else |s.particles| - 1;
    seq(n, i requires 0 <= i < n => SegmentShape(s.particles, i, off, s.frontColor, s.backColor))
  }

  /** The ribbon object: its settings are fixed by the constructor; its head, clock,
      colours and particles change with every `reset` and `update`. The particles
      are EulerMass objects, updated in place. */
  class ConfettiRibbon {
    const particleCount: nat
    const particleMass: real
    const particleDrag: real
    const particleDistance: real
    const thickness: real
    const angle: real
    const xOff: real
    const yOff: real

    var currPosition: Vector2D
    var prevPosition: Vector2D
    var frontColor: string
    var backColor: string
    var time: real
    var velocityInherit: real
    var oscillationSpeed: real
    var oscillationDistance: real
    var yVelocity: real
    var particles: seq<EulerMass>

    function Settings(): RibbonSettings {
      RibbonSettings(particleCount, particleMass, particleDrag, particleDistance, thickness, angle)
    }

    /** The states of the particle objects, in order. The ensures restate the body;
        they are there only so that callers verify without unfolding it. */
    function States(): (r: seq<MassState>)
      reads this, particles
      ensures |r| == |particles|
      ensures forall i :: 0 <= i < |particles| ==> r[i] == particles[i].State()
    {
      seq(|particles|, i reads this, particles requires 0 <= i < |particles| => particles[i].State())
    }

    function State(): RibbonState
      reads this, particles
    {
      RibbonState(currPosition, prevPosition, frontColor, backColor, time, velocityInherit,
                  oscillationSpeed, oscillationDistance, yVelocity, States())
    }

    /** The particle objects, as a set. */
    ghost function Repr(): set<EulerMass>
      reads this
    {
      set p | p in particles
    }

    /** The particle objects are distinct and fit the settings. */
    ghost predicate Valid()
      reads this, particles
    {
      && (forall i, j :: 0 <= i < j < |particles| ==> particles[i] != particles[j])
      && Fits(Settings(), States())
    }

    constructor(config: RibbonConfig, width: real, height: real, d: RibbonDraws, palette: seq<ColorPair>, m: MathLib)
      requires |palette| > 0
      ensures Settings() == Resolve(config)
      ensures xOff == m.cos(angle) * thickness && yOff == m.sin(angle) * thickness
      ensures Valid() && fresh(Repr())
      ensures State() == Restarted(Settings(), width, height, d, palette)
    {
      var st := Resolve(config);
      particleCount := st.particleCount;
      particleMass := st.particleMass;
      particleDrag := st.particleDrag;
      particleDistance := st.particleDistance;
      thickness := st.thickness;
      angle := st.angle;
      xOff := m.cos(st.angle) * st.thickness;
      yOff := m.sin(st.angle) * st.thickness;
      new;
      Reset(width, height, d, palette);
    }

    /** `reset()`: a new head, clock, motion parameters and colours from the draws,
        and a fresh chain of particles hanging straight down from the head. */
    method Reset(width: real, height: real, d: RibbonDraws, palette: seq<ColorPair>)
      requires |palette| > 0
      modifies this
      ensures Valid()
      ensures forall i :: 0 <= i < |particles| ==> fresh(particles[i])
      ensures State() == Restarted(Settings(), width, height, d, palette)
    {
      var x, y := Redraw(width, height, d, palette);
      particles := NewChain(x, y);
      assert States() == Chain(x, y, Settings());
      ChainShape(x, y, Settings());
    }

    /** The first part of `reset()`: a new head, colours, clock and motion
        parameters from the draws; returns the head's coordinates. */
    method Redraw(width: real, height: real, d: RibbonDraws, palette: seq<ColorPair>) returns (x: real, y: real)
      requires |palette| > 0
      modifies this
      ensures var r := Restarted(Settings(), width, height, d, palette);
        && currPosition == r.currPosition == Vector2D(x, y) && prevPosition == r.prevPosition
        && frontColor == r.frontColor && backColor == r.backColor && time == r.time
        && velocityInherit == r.velocityInherit && oscillationSpeed == r.oscillationSpeed
        && oscillationDistance == r.oscillationDistance && yVelocity == r.yVelocity
    {
      x := d.x * width;
      y := -1.0 * d.y * height * 2.0;
      currPosition := Vector2D(x, y);
      prevPosition := currPosition.Clone();
      var colors := PickColors(palette, d.colors);
      frontColor := colors.front;
      backColor := colors.back;
      time := d.time * TIME_INITIAL_MAX;
      oscillationSpeed := d.oscillationSpeed * OSCILLATION_SPEED_VARIANCE + OSCILLATION_SPEED_MINIMUM;
      oscillationDistance := d.oscillationDistance * OSCILLATION_DISTANCE_VARIANCE + OSCILLATION_DISTANCE_MINIMUM;
      velocityInherit := d.velocityInherit * VELOCITY_INHERIT_INITIAL_MAX;
      yVelocity := d.yVelocity * Y_VELOCITY_VARIANCE + Y_VELOCITY_MINIMUM;
    }

    /** `update(dt)`: the head moves, the first particle is pinned to it, the other
        particles are pulled, integrated and put back at `particleDistance` from
        their predecessors; a head below the reset line rebuilds the ribbon. */
    method Update(dt: real, width: real, height: real, d: RibbonDraws, palette: seq<ColorPair>, m: MathLib)
      requires Valid() && 0 < particleCount && particleMass != 0.0
      requires dt != 0.0 && RootsPositive(m) && |palette| > 0
      modifies this, particles
      ensures Valid() && fresh(Repr() - old(Repr()))
      ensures State() == Stepped(Settings(), old(State()), dt, width, height, d, palette, m)
    {
      Move(dt, m);
      if currPosition.y > ResetLine(Settings(), height) {
        Reset(width, height, d, palette);
      }
    }

    /** `update(dt)` up to the check for a reset. */
    method Move(dt: real, m: MathLib)
      requires Valid() && 0 < particleCount && particleMass != 0.0
      requires dt != 0.0 && RootsPositive(m)
      modifies this, particles
      ensures Valid() && particles == old(particles)
      ensures State() == Moved(Settings(), old(State()), dt, m)
    {
      var strength := MoveHead(dt, m);
      MoveChain(strength, dt, m);
    }

    /** The head part of `update(dt)`; returns the strength of the pull,
        (dDistance / dt) * velocityInherit, where dDistance is how far the head moved. */
    method MoveHead(dt: real, m: MathLib) returns (strength: real)
      requires dt != 0.0
      modifies this
      ensures particles == old(particles) && States() == old(States())
      ensures State() == Swung(old(State()), dt, m)
      ensures strength == Inheritance(old(State()), currPosition, dt, m)
    {
      ghost var s := State();
      time := time + dt * oscillationSpeed;
      currPosition := currPosition.(x := currPosition.x + m.cos(time) * oscillationDistance * dt);
      currPosition := currPosition.(y := currPosition.y + yVelocity * dt);
      var dx := prevPosition.x - currPosition.x;
      var dy := prevPosition.y - currPosition.y;
      assert dx * dx + dy * dy == SquareDistance(s.prevPosition, currPosition);
      var dDistance := m.sqrt(dx * dx + dy * dy);
      prevPosition := currPosition.Clone();
      strength := (dDistance / dt) * velocityInherit;
    }

    /** The particle part of `update(dt)`: the first particle is pinned to the head,
        then the three loops run. */
    method MoveChain(strength: real, dt: real, m: MathLib)
      requires Valid() && 0 < particleCount && particleMass != 0.0 && RootsPositive(m)
      modifies particles
      ensures Valid()
      ensures var pinned := old(States())[0 := old(States())[0].(position := currPosition)];
        States() == Constrained(IntegratedTail(Pulled(pinned, PullRule(strength, m)), dt, m),
                                SnapRule(particleDistance, m))
    {
      ghost var before := States();
      particles[0].position := currPosition;
      ghost var pinned := States();
      assert pinned == before[0 := before[0].(position := currPosition)];
      InheritForces(strength, m);
      IntegrateTail(dt, m);
      ghost var integrated := States();
      assert integrated == IntegratedTail(Pulled(pinned, PullRule(strength, m)), dt, m);
      ConstrainChain(m);
    }

    /** The first loop of `update`: every particle but the first receives a pull of
        strength k towards its predecessor. */
    method InheritForces(k: real, m: MathLib)
      requires Valid() && RootsPositive(m)
      modifies particles
      ensures Valid()
      ensures States() == Pulled(old(States()), PullRule(k, m))
    {
      ghost var before := States();
      var index := 1;
      while index < |particles|
        invariant 1 <= index <= |particles| + 1
        invariant forall j :: 0 <= j < |particles| ==>
          particles[j].State() == if j < index then Pulled(before, PullRule(k, m))[j] else before[j]
      {
        var directionForce := Sub(particles[index - 1].position, particles[index].position).Normalize(m).Multiply(k);
        particles[index].AddForce(directionForce);
        index := index + 1;
      }
    }

    /** The second loop of `update`: every particle but the first takes an Euler step. */
    method IntegrateTail(dt: real, m: MathLib)
      requires Valid() && forall i :: 0 < i < |particles| ==> particles[i].mass != 0.0
      modifies particles
      ensures Valid()
      ensures States() == IntegratedTail(old(States()), dt, m)
    {
      ghost var before := States();
      var index := 1;
      while index < |particles|
        invariant 1 <= index <= |particles| + 1
        invariant forall j :: 0 <= j < |particles| ==>
          particles[j].State() == if j < index then IntegratedTail(before, dt, m)[j] else before[j]
      {
        particles[index].Integrate(dt, m);
        index := index + 1;
      }
    }

    /** The third loop of `update`: every particle but the first is put back at
        `particleDistance` from its (already corrected) predecessor. */
    method ConstrainChain(m: MathLib)
      requires Valid() && RootsPositive(m)
      modifies particles
      ensures Valid()
      ensures States() == Constrained(old(States()), SnapRule(particleDistance, m))
    {
      ghost var before := States();
      var index := 1;
      while index < |particles|
        invariant 1 <= index <= |particles| + 1
        invariant forall j :: 0 <= j < |particles| ==>
          particles[j].State() == if j < index then Constrained(before, SnapRule(particleDistance, m))[j] else before[j]
      {
        ConstrainedAt(before, SnapRule(particleDistance, m), index);
        particles[index].position := particles[index].position
          .Subtract(particles[index - 1].position)
          .Normalize(m)
          .Multiply(particleDistance)
          .Add(particles[index - 1].position);
        index := index + 1;
      }
    }

    /** `draw(context)`: the shapes it fills, in order, one per segment. */
    method Draw() returns (shapes: seq<Shape>)
      ensures shapes == Drawn(State(), Vector2D(xOff, yOff))
    {
      ghost var all := Drawn(State(), Vector2D(xOff, yOff));
      shapes := [];
      var index := 0;
      while index < |particles| - 1
        invariant 0 <= index <= |all| && shapes == all[..index]
      {
        var particle, nextParticle := particles[index], particles[index + 1];
        var offsetVector := Vector2D(xOff, yOff);
        var p0 := particle.position.Add(offsetVector);
        var p1 := nextParticle.position.Add(offsetVector);
        var color := if SideFacing(particle.position, nextParticle.position, p1) < 0.0 then frontColor else backColor;
        var paths;
        if index == 0 {
          paths := FirstPaths(particle.position, nextParticle.position, p0, p1);
        } else if index == |particles| - 2 {
          paths := MiddlePaths(particle.position, nextParticle.position, p0, p1);
        } else {
          paths := LastPaths(particle.position, nextParticle.position, p0, p1);
        }
        shapes := shapes + [Shape(color, paths)];
        index := index + 1;
      }
    }

    /** The particle objects `reset` creates, laid out below (x, y). */
    method NewChain(x: real, y: real) returns (chain: seq<EulerMass>)
      ensures forall j :: 0 <= j < |chain| ==> fresh(chain[j])
      ensures forall j, k :: 0 <= j < k < |chain| ==> chain[j] != chain[k]
      ensures |chain| == particleCount
      ensures forall j :: 0 <= j < |chain| ==> chain[j].State() == Chain(x, y, Settings())[j]
    {
      chain := [];
      var i: nat := 0;
      while i < particleCount
        invariant i <= particleCount && |chain| == i
        invariant forall j :: 0 <= j < i ==> fresh(chain[j])
        invariant forall j, k :: 0 <= j < k < i ==> chain[j] != chain[k]
        invariant forall j :: 0 <= j < i ==> chain[j].State() == Link(x, y, Settings(), j)
      {
        var p := new EulerMass(x, y - i as real * particleDistance, particleMass, particleDrag);
        chain := chain + [p];
        i := i + 1;
      }
    }
  }
}
