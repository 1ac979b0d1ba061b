/** ZoomCircle: a circle in the middle of the canvas whose radius pulses with
    |cos(time)|; every rendered frame advances `time` by 0.05 and requests the next
    frame. The canvas, its 2-D context and `window.devicePixelRatio` become
    constructor parameters; `hasContext` says whether `getContext('2d')` gave one. */
module Zoom {
  import opened Numerics
  import opened Optional
  import opened Scheduling

  /** The amount `render` adds to `time` per frame. */
  const TIME_STEP: real := 0.05

  /** The radius `render` draws for a canvas `canvasWidth` pixels wide at `time`:
      half the width scaled by |cos(time)|. */
  function Radius(canvasWidth: real, time: real, m: MathLib): real {
    (canvasWidth / 2.0) * Abs(m.cos(time))
  }

  /** The circle never leaves the canvas horizontally: its radius lies between 0 and
      half the canvas width. */
  lemma RadiusBounds(canvasWidth: real, time: real, m: MathLib)
    requires Lawful(m) && 0.0 <= canvasWidth
    ensures 0.0 <= Radius(canvasWidth, time, m) <= canvasWidth / 2.0
  {
    var h, c := canvasWidth / 2.0, Abs(m.cos(time));
    assert -1.0 <= m.cos(time) <= 1.0;
    HalfScaled(h, c);
    assert Radius(canvasWidth, time, m) == h * c;
  }

  lemma HalfScaled(h: real, c: real)
    requires 0.0 <= h && 0.0 <= c <= 1.0
    ensures 0.0 <= h * c <= h
  {
    assert h * c <= h * 1.0;
  }

  class ZoomCircle {
    const hasContext: bool
    const canvasWidth: real
    const canvasHeight: real
    const ratio: real
    const width: real
    const height: real
    var time: real
    var animationFrameRequestId: Option<nat>

    /** The request id and the scheduler's state, as a value. */
    function Frames(scheduler: FrameScheduler): Scheduling.Frames
      reads this, scheduler
    {
      Scheduling.Frames(animationFrameRequestId, scheduler.issued, scheduler.cancelled)
    }

    /** `new ZoomCircle(canvas)`: the clock at 0 and no frame requested. */
    constructor(canvasWidth: real, canvasHeight: real, offsetWidth: real, offsetHeight: real,
                devicePixelRatio: real, hasContext: bool)
      ensures time == 0.0 && animationFrameRequestId.None?
      ensures this.canvasWidth == canvasWidth && this.canvasHeight == canvasHeight
      ensures ratio == devicePixelRatio && width == offsetWidth && height == offsetHeight
      ensures this.hasContext == hasContext
    {
      this.hasContext := hasContext;
      this.canvasWidth := canvasWidth;
      this.canvasHeight := canvasHeight;
      ratio := devicePixelRatio;
      width := offsetWidth;
      height := offsetHeight;
      time := 0.0;
      animationFrameRequestId := None;
    }

    /** `start()`: request the first frame. */
    method Start(scheduler: FrameScheduler)
      modifies this, scheduler
      ensures Frames(scheduler) == Started(old(Frames(scheduler)))
      ensures time == old(time)
    {
      var id := scheduler.Request();
      animationFrameRequestId := Some(id);
    }

    /** `stop()`: cancel the held request when its id is truthy. */
    method Stop(scheduler: FrameScheduler)
      modifies scheduler
      ensures Frames(scheduler) == Stopped(old(Frames(scheduler)))
    {
      if animationFrameRequestId.Some? && animationFrameRequestId.value != 0 {
        scheduler.Cancel(animationFrameRequestId.value);
      }
    }

    /** `render()`: without a context nothing happens; otherwise the circle of
        radius `Radius(canvasWidth, time)` is drawn (and returned), the clock
        advances by 0.05 and the next frame is requested. */
    method Render(scheduler: FrameScheduler, m: MathLib) returns (drawn: Option<real>)
      modifies this, scheduler
      ensures !hasContext ==> drawn.None? && time == old(time) && Frames(scheduler) == old(Frames(scheduler))
      ensures hasContext ==> && drawn == Some(Radius(canvasWidth, old(time), m))
                             && time == old(time) + TIME_STEP
                             && Frames(scheduler) == Started(old(Frames(scheduler)))
    {
      if !hasContext {
        return None;
      }
      drawn := Some(Radius(canvasWidth, time, m));
      time := time + TIME_STEP;
      var id := scheduler.Request();
      animationFrameRequestId := Some(id);
    }
  }
}
