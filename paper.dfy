/** ConfettiPaper: a small square that falls at a constant speed, sways sideways,
    spins about its vertical axis, and jumps back to the top of the container once
    it has fallen below it. The container's size is passed in where the original
    reads it from its parent Confetti. */
module Paper {
  import opened Numerics
  import opened Vectors
  import opened Palette

  const DEG_360_IN_RAD: real := 2.0 * PI
  const DEG_90_IN_RAD: real := PI / 2.0
  const DEG_45_IN_RAD: real := PI / 4.0

  const ROTATION_SPEED_VARIANCE: real := 600.0
  const ROTATION_SPEED_MINIMUM: real := 800.0
  const OSCILLATION_SPEED_VARIANCE: real := 1.5
  const OSCILLATION_SPEED_MINIMUM: real := 0.5
  const X_VELOCITY: real := 40.0
  const Y_VELOCITY_VARIANCE: real := 60.0
  const Y_VELOCITY_MINIMUM: real := 50.0

  /** The `Math.random()` draws of the constructor, in the order it makes them; the
      last one is the draw behind `fetchColors()`. */
  datatype PaperDraws = PaperDraws(
    x: Unit, y: Unit, angle: Unit, rotation: Unit, rotationSpeed: Unit,
    oscillationSpeed: Unit, yVelocity: Unit, time: Unit, colors: Unit)

  /** Every field of a ConfettiPaper, as a value. */
  datatype PaperState = PaperState(
    position: Vector2D, time: real, rotation: real, cosRotation: real,
    rotationSpeed: real, angle: real, oscillationSpeed: real,
    xVelocity: real, yVelocity: real, corners: seq<Vector2D>, size: real,
    frontColor: string, backColor: string)

  /** `computeCorners(angle)`: the four unit vectors at angle + 45, 135, 225 and
      315 degrees, the corners of a square of half-diagonal 1. */
  function ComputeCorners(angle: real, m: MathLib): (corners: seq<Vector2D>)
    ensures |corners| == 4
    ensures Lawful(m) ==> forall i :: 0 <= i < 4 ==>
      -1.0 <= corners[i].x <= 1.0 && -1.0 <= corners[i].y <= 1.0
  {
    seq(4, i => Vector2D(
      m.cos(angle + (i as real * DEG_90_IN_RAD + DEG_45_IN_RAD)),
      m.sin(angle + (i as real * DEG_90_IN_RAD + DEG_45_IN_RAD))))
  }

  /** The state `new ConfettiPaper(...)` builds in a width x height container. */
  function Launched(width: real, height: real, d: PaperDraws, palette: seq<ColorPair>, m: MathLib): (s: PaperState)
    requires |palette| > 0
    ensures 0.0 < width ==> 0.0 <= s.position.x < width
    ensures 0.0 < height ==> 0.0 <= s.position.y < height
    ensures 800.0 <= s.rotationSpeed < 1400.0
    ensures 0.5 <= s.oscillationSpeed < 2.0
    ensures 50.0 <= s.yVelocity < 110.0
    ensures 0.0 <= s.time < 1.0
    ensures s.cosRotation == 1.0 && s.xVelocity == 40.0 && s.size == 5.0
    ensures |s.corners| == 4 && s.corners == ComputeCorners(s.angle, m)
    ensures ColorPair(s.frontColor, s.backColor) in palette
  {
    ScaledUnit(d.x, width);
    ScaledUnit(d.y, height);
    var angle := d.angle * DEG_360_IN_RAD;
    var colors := PickColors(palette, d.colors);
    PaperState(
      position := Vector2D(d.x * width, d.y * height),
      time := d.time,
      rotation := d.rotation * DEG_360_IN_RAD,
      cosRotation := 1.0,
      rotationSpeed := d.rotationSpeed * ROTATION_SPEED_VARIANCE + ROTATION_SPEED_MINIMUM,
      angle := angle,
      oscillationSpeed := d.oscillationSpeed * OSCILLATION_SPEED_VARIANCE + OSCILLATION_SPEED_MINIMUM,
      xVelocity := X_VELOCITY,
      yVelocity := d.yVelocity * Y_VELOCITY_VARIANCE + Y_VELOCITY_MINIMUM,
      corners := ComputeCorners(angle, m),
      size := 5.0,
      frontColor := colors.front,
      backColor := colors.back)
  }

  /** The state after `update(dt)` in a width x height container; `r` is the draw
      for the new horizontal position, used only when the paper wraps to the top. */
  function Stepped(s: PaperState, dt: real, width: real, height: real, r: Unit, m: MathLib): PaperState {
    var time := s.time + dt;
    var rotation := s.rotation + s.rotationSpeed * dt;
    var cosRotation := m.cos((rotation * PI) / 180.0);
    var x := Swayed(s.position.x, time, s.oscillationSpeed, s.xVelocity, dt, m);
    var y := s.position.y + s.yVelocity * dt;
    var position := if y > height then Vector2D(r * width, 0.0) else Vector2D(x, y);
    s.(position := position, time := time, rotation := rotation, cosRotation := cosRotation)
  }

  /** An update advances the clock by dt and the rotation by rotationSpeed * dt,
      keeps the cosine of the rotation in [-1, 1], and changes nothing but the
      position, the clock, the rotation and its cosine. */
  lemma SteppedFrame(s: PaperState, dt: real, width: real, height: real, r: Unit, m: MathLib)
    ensures var t := Stepped(s, dt, width, height, r, m);
      && t.time == s.time + dt
      && t.rotation == s.rotation + s.rotationSpeed * dt
      && (Lawful(m) ==> -1.0 <= t.cosRotation <= 1.0)
      && t.(position := s.position, time := s.time, rotation := s.rotation, cosRotation := s.cosRotation) == s
  {
  }

  /** The sideways sway of one update: x moves by cos(time * oscillationSpeed) *
      xVelocity * dt. */
  function Swayed(x: real, time: real, oscillationSpeed: real, xVelocity: real, dt: real, m: MathLib): real {
    x + m.cos(time * oscillationSpeed) * xVelocity * dt
  }

  /** Falling below the container sends the paper back to its top edge at a random
      horizontal position; otherwise it has fallen by exactly yVelocity * dt. */
  lemma WrapToTop(s: PaperState, dt: real, width: real, height: real, r: Unit, m: MathLib)
    ensures var t := Stepped(s, dt, width, height, r, m);
      var y := s.position.y + s.yVelocity * dt;
      && (y > height ==> t.position.y == 0.0 && t.position.x == r * width)
      && (y > height && 0.0 < width ==> 0.0 <= t.position.x < width)
      && (y <= height ==> t.position.y == y)
  {
    ScaledUnit(r, width);
  }

  /** Whatever the step, the paper ends no lower than the bottom of a container of
      non-negative height. */
  lemma StaysInContainer(s: PaperState, dt: real, width: real, height: real, r: Unit, m: MathLib)
    requires 0.0 <= height
    ensures Stepped(s, dt, width, height, r, m).position.y <= height
  {
    WrapToTop(s, dt, width, height, r, m);
  }

  /** `computeCornerDrawPositions()`: each corner scaled by the size, its vertical
      part squashed by cosRotation, placed around the position. */
  function CornerDrawPositions(s: PaperState): (points: seq<Vector2D>)
    ensures |points| == |s.corners|
  {
    seq(|s.corners|, i requires 0 <= i < |s.corners| =>
      Vector2D(s.position.x + s.corners[i].x * s.size,
               s.position.y + s.corners[i].y * s.size * s.cosRotation))
  }

  /** The drawn quad lies within `size` of the position horizontally whenever the
      corners are unit-bounded. */
  lemma DrawnWithinWidth(s: PaperState, i: nat)
    requires i < |s.corners| && 0.0 <= s.size
    requires -1.0 <= s.corners[i].x <= 1.0
    ensures s.position.x - s.size <= CornerDrawPositions(s)[i].x <= s.position.x + s.size
  {
    var c := s.corners[i];
    assert CornerDrawPositions(s)[i].x == s.position.x + c.x * s.size;
    OffsetX(s.position, c, s.size, CornerDrawPositions(s)[i]);
  }

  /** The drawn quad lies within `size` of the position vertically whenever the
      corners are unit-bounded and |cosRotation| <= 1. */
  lemma DrawnWithinHeight(s: PaperState, i: nat)
    requires i < |s.corners| && 0.0 <= s.size && -1.0 <= s.cosRotation <= 1.0
    requires -1.0 <= s.corners[i].y <= 1.0
    ensures s.position.y - s.size <= CornerDrawPositions(s)[i].y <= s.position.y + s.size
  {
    var c := s.corners[i];
    assert CornerDrawPositions(s)[i].y == s.position.y + c.y * s.size * s.cosRotation;
    OffsetY(s.position, c, s.size, s.cosRotation, CornerDrawPositions(s)[i]);
  }

  lemma OffsetX(p: Vector2D, c: Vector2D, k: real, q: Vector2D)
    requires -1.0 <= c.x <= 1.0 && 0.0 <= k && q.x == p.x + c.x * k
    ensures p.x - k <= q.x <= p.x + k
  {
    UnitScaled(c.x, k);
  }

  lemma OffsetY(p: Vector2D, c: Vector2D, k: real, b: real, q: Vector2D)
    requires -1.0 <= c.y <= 1.0 && -1.0 <= b <= 1.0 && 0.0 <= k && q.y == p.y + c.y * k * b
    ensures p.y - k <= q.y <= p.y + k
  {
    BoundedProduct(c.y, b, k);
  }

  /** |a * k * b| <= k when |a|, |b| <= 1 and k >= 0. */
  lemma BoundedProduct(a: real, b: real, k: real)
    requires -1.0 <= a <= 1.0 && -1.0 <= b <= 1.0 && 0.0 <= k
    ensures -k <= a * k * b <= k
  {
    var ab := a * b;
    if 0.0 <= b {
      UnitScaled(a, b);
    } else {
      UnitScaled(a, -b);
      assert a * (-b) == -ab;
    }
    assert a * k * b == ab * k;
    UnitScaled(ab, k);
  }

  /** The fill colour `draw` picks: the front colour while the paper faces the
      viewer (cosRotation > 0), the back colour otherwise. */
  function FillColor(s: PaperState): (c: string)
    ensures s.cosRotation > 0.0 ==> c == s.frontColor
    ensures s.cosRotation <= 0.0 ==> c == s.backColor
  {
    if s.cosRotation > 0.0 then s.frontColor else s.backColor
  }

  /** What `draw` paints: a closed polygon through the corner positions, filled. */
  datatype Quad = Quad(fill: string, outline: seq<Vector2D>)

  class ConfettiPaper {
    var position: Vector2D
    const rotationSpeed: real
    const angle: real
    var cosRotation: real
    var rotation: real
    const size: real
    const oscillationSpeed: real
    const xVelocity: real
    const yVelocity: real
    const corners: seq<Vector2D>
    var time: real
    const frontColor: string
    const backColor: string

    function State(): PaperState
      reads this
    {
      PaperState(position, time, rotation, cosRotation, rotationSpeed, angle,
        oscillationSpeed, xVelocity, yVelocity, corners, size, frontColor, backColor)
    }

    constructor(width: real, height: real, d: PaperDraws, palette: seq<ColorPair>, m: MathLib)
      requires |palette| > 0
      ensures State() == Launched(width, height, d, palette, m)
    {
      position := Vector2D(d.x * width, d.y * height);
      cosRotation := 1.0;
      angle := d.angle * DEG_360_IN_RAD;
      rotation := d.rotation * DEG_360_IN_RAD;
      rotationSpeed := d.rotationSpeed * ROTATION_SPEED_VARIANCE + ROTATION_SPEED_MINIMUM;
      oscillationSpeed := d.oscillationSpeed * OSCILLATION_SPEED_VARIANCE + OSCILLATION_SPEED_MINIMUM;
      xVelocity := X_VELOCITY;
      yVelocity := d.yVelocity * Y_VELOCITY_VARIANCE + Y_VELOCITY_MINIMUM;
      time := d.time;
      corners := ComputeCorners(d.angle * DEG_360_IN_RAD, m);
      var colors := PickColors(palette, d.colors);
      frontColor := colors.front;
      backColor := colors.back;
      size := 5.0;
    }

    method Update(dt: real, width: real, height: real, r: Unit, m: MathLib)
      modifies this
      ensures State() == Stepped(old(State()), dt, width, height, r, m)
    {
      time := time + dt;
      rotation := rotation + rotationSpeed * dt;
      cosRotation := m.cos((rotation * PI) / 180.0);
      var x := Swayed(position.x, time, oscillationSpeed, xVelocity, dt, m);
      var y := position.y + yVelocity * dt;
      if y > height {
        position := Vector2D(r * width, 0.0);
      } else {
        position := Vector2D(x, y);
      }
    }

    method Draw() returns (q: Quad)
      ensures q.fill == FillColor(State())
      ensures q.outline == CornerDrawPositions(State())
      ensures |q.outline| == |corners|
    {
      var fill := if cosRotation > 0.0 then frontColor else backColor;
      q := Quad(fill, CornerDrawPositions(State()));
    }
  }
}
