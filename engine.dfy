/** Confetti: the pattern that owns a population of ConfettiPaper and one of
    ConfettiRibbon objects, sizes them from its options, and on every rendered frame
    updates each of them by a fixed `duration` and requests the next frame. The
    canvas is given by its offset size, `window.devicePixelRatio` and whether
    `getContext('2d')` returned a context; the random draws of the constructor and of
    a frame are parameters. */
module Engine {
  import opened Numerics
  import opened Vectors
  import opened Optional
  import opened Palette
  import opened Scheduling
  import Paper
  import Ribbon
  import PointMass

  const SPEED: real := 50.0
  const DEFAULT_CONFETTI_PAPERS: nat := 50
  const DEFAULT_CONFETTI_RIBBONS: nat := 10

  /** `new Array(n)` accepts a length n only when ToUint32(n) is n: a whole number
      in [0, 2^32). */
  const ARRAY_LENGTH_LIMIT: nat := 0x1_0000_0000

  /** A length `new Array` accepts. */
  type ArrayLength = n: nat | n < ARRAY_LENGTH_LIMIT
  const DEFAULT_SCALE_CONFETTI_COUNT: bool := true

  /** `ConfettiOptions`: every field may be left out. */
  datatype ConfettiOptions = ConfettiOptions(
    speed: Option<real>, duration: Option<real>, confettiPaperCount: Option<real>,
    scaleConfettiCount: Option<bool>, confettiRibbonCount: Option<ArrayLength>,
    colorPairs: Option<seq<ColorPair>>)

  /** `new Confetti(canvas)` with the default `{}`. */
  const NO_OPTIONS := ConfettiOptions(None, None, None, None, None, None)

  /** The settings every ribbon gets: Confetti passes no ribbon configuration. */
  const RIBBON_SETTINGS := Ribbon.Resolve(Ribbon.DEFAULT_CONFIG)

  function Speed(o: ConfettiOptions): real {
    o.speed.GetOr(SPEED)
  }

  /** `options.duration ?? 1.0 / speed`. */
  function Duration(o: ConfettiOptions): real
    requires o.duration.Some? || Speed(o) != 0.0
  {
    match o.duration
    case Some(d) => d
    case None => 1.0 / Speed(o)
  }

  function ColorPairs(o: ConfettiOptions): seq<ColorPair> {
    o.colorPairs.GetOr(COLORS)
  }

  /** `options.confettiPaperCount ?? 50`: any number. */
  function RequestedPapers(o: ConfettiOptions): real {
    o.confettiPaperCount.GetOr(DEFAULT_CONFETTI_PAPERS as real)
  }

  /** `options.scaleConfettiCount ?? true`. */
  predicate ScalesPapers(o: ConfettiOptions) {
    o.scaleConfettiCount.GetOr(DEFAULT_SCALE_CONFETTI_COUNT)
  }

  /** The requested counts for which `new Array(count)` gets a valid length, a
      whole number in [0, 2^32), after the rounding that scaling applies; for any
      other count it throws a RangeError. Math.round of a number in [-0.5, 0) is -0,
      which is the length 0. */
  predicate PaperCountValid(o: ConfettiOptions, ratio: real)
    requires 0.0 < ratio
  {
    var count := RequestedPapers(o);
    if ScalesPapers(o) then 0 <= Round(count / ratio) < ARRAY_LENGTH_LIMIT
    else 0.0 <= count < ARRAY_LENGTH_LIMIT as real && count.Floor as real == count
  }

  /** The number of papers: the requested count (50 by default), divided by the pixel
      ratio and rounded when scaling is on (the default). */
  function PaperCount(o: ConfettiOptions, ratio: real): nat
    requires 0.0 < ratio && PaperCountValid(o, ratio)
  {
    var count := RequestedPapers(o);
    if ScalesPapers(o) then Round(count / ratio) else count.Floor
  }

  function RibbonCount(o: ConfettiOptions): nat {
    o.confettiRibbonCount.GetOr(DEFAULT_CONFETTI_RIBBONS)
  }

  /** Without options: speed 50, so each frame advances the simulation by 1/50;
      10 ribbons; the default palette; and 50 papers on a display of ratio 1, 25 on
      one of ratio 2. */
  lemma Defaults()
    ensures Speed(NO_OPTIONS) == 50.0 && Duration(NO_OPTIONS) == 0.02
    ensures RibbonCount(NO_OPTIONS) == 10 && ColorPairs(NO_OPTIONS) == COLORS
    ensures PaperCountValid(NO_OPTIONS, 1.0) && PaperCount(NO_OPTIONS, 1.0) == 50
    ensures PaperCountValid(NO_OPTIONS, 2.0) && PaperCount(NO_OPTIONS, 2.0) == 25
  {
    assert Round(50.0) == 50;
    assert Round(25.0) == 25;
  }

  /** A frame lasts 1/speed unless a duration is given; given values are kept. */
  lemma DurationIsInverseSpeed(o: ConfettiOptions)
    requires o.duration.Some? || Speed(o) != 0.0
    ensures o.duration.None? ==> Duration(o) * Speed(o) == 1.0
    ensures o.duration.Some? ==> Duration(o) == o.duration.value
  {
  }

  /** With scaling on, the paper count is the requested count per device pixel,
      rounded to the nearest integer; with scaling off it is the requested count. */
  lemma PaperCountScales(o: ConfettiOptions, ratio: real)
    requires 0.0 < ratio && PaperCountValid(o, ratio)
    ensures var count := RequestedPapers(o);
      var n := PaperCount(o, ratio) as real;
      if o.scaleConfettiCount == Some(false) then n == count
      else count / ratio - 0.5 < n <= count / ratio + 0.5
  {
  }

  /** With scaling on, exactly the requested counts in [-ratio / 2, (2^32 - 1/2) * ratio)
      give a valid length, fractional or not. */
  lemma PaperCountDomain(o: ConfettiOptions, ratio: real)
    requires 0.0 < ratio
    requires ScalesPapers(o)
    ensures PaperCountValid(o, ratio) <==>
      -0.5 * ratio <= RequestedPapers(o) < (ARRAY_LENGTH_LIMIT as real - 0.5) * ratio
  {
    var count := RequestedPapers(o);
    var n := Round(count / ratio);
    assert count / ratio - 0.5 < n as real <= count / ratio + 0.5;
    assert 0 <= n <==> -0.5 <= count / ratio;
    assert n < ARRAY_LENGTH_LIMIT <==> count / ratio < ARRAY_LENGTH_LIMIT as real - 0.5;
    ScaledBound(count, ratio, -0.5);
    ScaledBound(count, ratio, ARRAY_LENGTH_LIMIT as real - 0.5);
  }

  /** For a positive ratio, count / ratio reaches c exactly when count reaches
      c * ratio. */
  lemma ScaledBound(count: real, ratio: real, c: real)
    requires 0.0 < ratio
    ensures c <= count / ratio <==> c * ratio <= count
  {
    var q := count / ratio;
    assert q * ratio == count;
    if q < c {
      assert (c - q) * ratio > 0.0;
    } else {
      assert (q - c) * ratio >= 0.0;
    }
  }

  /** Counts whose length would reach 2^32 are refused, with scaling off and on. */
  lemma OversizedPaperCounts()
    ensures !PaperCountValid(NO_OPTIONS.(confettiPaperCount := Some(4294967296.0), scaleConfettiCount := Some(false)), 1.0)
    ensures PaperCountValid(NO_OPTIONS.(confettiPaperCount := Some(4294967295.0), scaleConfettiCount := Some(false)), 1.0)
    ensures !PaperCountValid(NO_OPTIONS.(confettiPaperCount := Some(8589934592.0)), 2.0)
    ensures PaperCountValid(NO_OPTIONS.(confettiPaperCount := Some(8589934590.0)), 2.0)
  {
    assert Round(8589934592.0 / 2.0) == 4294967296;
    assert Round(8589934590.0 / 2.0) == 4294967295;
  }

  /** A fractional count is rounded, not rejected: 2.5 papers at ratio 1 are 3, and
      -0.4 rounds to -0, no papers. */
  lemma FractionalPaperCounts()
    ensures var o := NO_OPTIONS.(confettiPaperCount := Some(2.5));
      PaperCountValid(o, 1.0) && PaperCount(o, 1.0) == 3
    ensures var o := NO_OPTIONS.(confettiPaperCount := Some(-0.4));
      PaperCountValid(o, 1.0) && PaperCount(o, 1.0) == 0
  {
    assert Round(2.5) == 3;
    assert Round(-0.4) == 0;
  }

  /** Papers, each launched in the width x height container with its own draws. */
  method NewPapers(width: real, height: real, draws: seq<Paper.PaperDraws>, palette: seq<ColorPair>, m: MathLib)
    returns (papers: seq<Paper.ConfettiPaper>)
    requires |palette| > 0 || |draws| == 0
    ensures |papers| == |draws|
    ensures forall i :: 0 <= i < |papers| ==> fresh(papers[i])
    ensures forall i, j :: 0 <= i < j < |papers| ==> papers[i] != papers[j]
    ensures forall i :: 0 <= i < |papers| ==> papers[i].State() == Paper.Launched(width, height, draws[i], palette, m)
  {
    papers := [];
    while |papers| < |draws|
      invariant |papers| <= |draws|
      invariant forall i :: 0 <= i < |papers| ==> fresh(papers[i])
      invariant forall i, j :: 0 <= i < j < |papers| ==> papers[i] != papers[j]
      invariant forall i :: 0 <= i < |papers| ==> papers[i].State() == Paper.Launched(width, height, draws[i], palette, m)
    {
      var paper := new Paper.ConfettiPaper(width, height, draws[|papers|], palette, m);
      papers := papers + [paper];
    }
  }

  /** Ribbons with the default configuration, each reset with its own draws. */
  method NewRibbons(width: real, height: real, draws: seq<Ribbon.RibbonDraws>, palette: seq<ColorPair>, m: MathLib)
    returns (ribbons: seq<Ribbon.ConfettiRibbon>)
    requires |palette| > 0 || |draws| == 0
    ensures |ribbons| == |draws|
    ensures forall i :: 0 <= i < |ribbons| ==> fresh(ribbons[i]) && fresh(ribbons[i].Repr())
    ensures Disjoint(ribbons)
    ensures forall i :: 0 <= i < |ribbons| ==>
      && ribbons[i].Valid() && ribbons[i].Settings() == RIBBON_SETTINGS
      && ribbons[i].State() == Ribbon.Restarted(RIBBON_SETTINGS, width, height, draws[i], palette)
  {
    ribbons := [];
    while |ribbons| < |draws|
      invariant |ribbons| <= |draws|
      invariant forall i :: 0 <= i < |ribbons| ==> fresh(ribbons[i]) && fresh(ribbons[i].Repr())
      invariant Disjoint(ribbons)
      invariant forall i :: 0 <= i < |ribbons| ==>
        && ribbons[i].Valid() && ribbons[i].Settings() == RIBBON_SETTINGS
        && ribbons[i].State() == Ribbon.Restarted(RIBBON_SETTINGS, width, height, draws[i], palette)
    {
      var ribbon := new Ribbon.ConfettiRibbon(Ribbon.DEFAULT_CONFIG, width, height, draws[|ribbons|], palette, m);
      ribbons := ribbons + [ribbon];
    }
  }

  /** The particle objects of a sequence of ribbons. */
  ghost function AllParticles(ribbons: seq<Ribbon.ConfettiRibbon>): (ps: set<PointMass.EulerMass>)
    reads ribbons
    ensures forall i :: 0 <= i < |ribbons| ==> ribbons[i].Repr() <= ps
  {
    if ribbons == [] then {} else ribbons[0].Repr() + AllParticles(ribbons[1..])
  }

  /** A ribbon whose own fields and particle objects were left alone by a step of
      another ribbon keeps its state, its particles and its validity. */
  twostate lemma KeptApart(a: Ribbon.ConfettiRibbon)
    requires unchanged(a) && unchanged(old(a.Repr()))
    ensures a.State() == old(a.State()) && a.Repr() == old(a.Repr())
    ensures old(a.Valid()) ==> a.Valid()
  {
  }

  /** Distinct ribbons whose particle objects are distinct. */
  ghost predicate Disjoint(ribbons: seq<Ribbon.ConfettiRibbon>)
    reads ribbons
  {
    forall i, j :: 0 <= i < j < |ribbons| ==>
      ribbons[i] != ribbons[j] && ribbons[i].Repr() !! ribbons[j].Repr()
  }

  /** What one frame of `render()` paints, in order: the quad of every paper, then
      the shapes of every ribbon. */
  datatype Picture = Picture(papers: seq<Paper.Quad>, ribbons: seq<seq<Ribbon.Shape>>)

  /** The shapes `draw` fills for a ribbon in its current state. */
  function RibbonPicture(r: Ribbon.ConfettiRibbon): seq<Ribbon.Shape>
    reads r, r.particles
  {
    Ribbon.Drawn(r.State(), Vector2D(r.xOff, r.yOff))
  }

  class Confetti {
    const hasContext: bool
    const ratio: real
    const width: real
    const height: real
    const speed: real
    const duration: real
    const colorPairs: seq<ColorPair>
    const confettiPapers: seq<Paper.ConfettiPaper>
    const confettiRibbons: seq<Ribbon.ConfettiRibbon>
    var animationFrameRequestId: Option<nat>

    /** The populations are made of distinct objects, every ribbon is a valid
        default ribbon, and no two ribbons share a particle. */
    ghost predicate Valid()
      reads confettiRibbons, AllParticles(confettiRibbons)
    {
      && (forall i, j :: 0 <= i < j < |confettiPapers| ==> confettiPapers[i] != confettiPapers[j])
      && Disjoint(confettiRibbons)
      && forall i :: 0 <= i < |confettiRibbons| ==>
           confettiRibbons[i].Settings() == RIBBON_SETTINGS && confettiRibbons[i].Valid()
    }

    /** What `draw` fills for every ribbon, in order. The ensures restate the body;
        they are there only so that `Render` verifies without unfolding it. */
    function RibbonPictures(): (pictures: seq<seq<Ribbon.Shape>>)
      requires Valid()
      reads confettiRibbons, AllParticles(confettiRibbons)
      ensures |pictures| == |confettiRibbons|
      ensures forall i :: 0 <= i < |confettiRibbons| ==> pictures[i] == RibbonPicture(confettiRibbons[i])
    {
      seq(|confettiRibbons|, i requires 0 <= i < |confettiRibbons| reads confettiRibbons, AllParticles(confettiRibbons) =>
        RibbonPicture(confettiRibbons[i]))
    }

    /** The request id and the scheduler's state, as a value. */
    function Frames(scheduler: FrameScheduler): Scheduling.Frames
      reads this, scheduler
    {
      Scheduling.Frames(animationFrameRequestId, scheduler.issued, scheduler.cancelled)
    }

    /** `new Confetti(canvas, options)`. */
    constructor(offsetWidth: real, offsetHeight: real, devicePixelRatio: real, hasContext: bool,
                options: ConfettiOptions, paperDraws: seq<Paper.PaperDraws>,
                ribbonDraws: seq<Ribbon.RibbonDraws>, m: MathLib)
      requires 0.0 < devicePixelRatio && PaperCountValid(options, devicePixelRatio)
      requires options.duration.Some? || Speed(options) != 0.0
      requires |ColorPairs(options)| > 0 || (PaperCount(options, devicePixelRatio) == 0 && RibbonCount(options) == 0)
      requires |paperDraws| == PaperCount(options, devicePixelRatio)
      requires |ribbonDraws| == RibbonCount(options)
      ensures Valid() && animationFrameRequestId.None?
      ensures speed == Speed(options) && duration == Duration(options)
      ensures ratio == devicePixelRatio && this.hasContext == hasContext
      ensures width == offsetWidth * devicePixelRatio && height == offsetHeight * devicePixelRatio
      ensures colorPairs == ColorPairs(options)
      ensures |confettiPapers| == PaperCount(options, devicePixelRatio)
      ensures |confettiRibbons| == RibbonCount(options)
      ensures forall i :: 0 <= i < |confettiPapers| ==>
        confettiPapers[i].State() == Paper.Launched(width, height, paperDraws[i], colorPairs, m)
      ensures forall i :: 0 <= i < |confettiRibbons| ==>
        confettiRibbons[i].State() == Ribbon.Restarted(RIBBON_SETTINGS, width, height, ribbonDraws[i], colorPairs)
    {
      this.hasContext := hasContext;
      speed := Speed(options);
      duration := Duration(options);
      ratio := devicePixelRatio;
      width := offsetWidth * devicePixelRatio;
      height := offsetHeight * devicePixelRatio;
      colorPairs := ColorPairs(options);
      var papers := NewPapers(offsetWidth * devicePixelRatio, offsetHeight * devicePixelRatio,
                              paperDraws, ColorPairs(options), m);
      confettiPapers := papers;
      var ribbons := NewRibbons(offsetWidth * devicePixelRatio, offsetHeight * devicePixelRatio,
                                ribbonDraws, ColorPairs(options), m);
      confettiRibbons := ribbons;
      animationFrameRequestId := None;
    }

    /** `start()`: request the first frame. */
    method Start(scheduler: FrameScheduler)
      modifies this, scheduler
      ensures Frames(scheduler) == Started(old(Frames(scheduler)))
    {
      var id := scheduler.Request();
      animationFrameRequestId := Some(id);
    }

    /** `stop()`: cancel the held request when its id is truthy; the id is kept. */
    method Stop(scheduler: FrameScheduler)
      modifies scheduler
      ensures Frames(scheduler) == Stopped(old(Frames(scheduler)))
    {
      if animationFrameRequestId.Some? && animationFrameRequestId.value != 0 {
        scheduler.Cancel(animationFrameRequestId.value);
      }
    }

    /** `render()`: without a context nothing changes and no frame is requested;
        otherwise every paper and then every ribbon is updated by `duration`, each
        with its own draws, and the next frame is requested. */
    method Render(scheduler: FrameScheduler, paperDraws: seq<Unit>, ribbonDraws: seq<Ribbon.RibbonDraws>, m: MathLib)
      returns (drawn: Option<Picture>)
      requires Valid() && RootsPositive(m)
      requires hasContext ==> (duration != 0.0 && |colorPairs| > 0) || |confettiRibbons| == 0
      requires |paperDraws| == |confettiPapers| && |ribbonDraws| == |confettiRibbons|
      modifies this, scheduler, confettiPapers, confettiRibbons, AllParticles(confettiRibbons)
      ensures Valid()
      ensures !hasContext ==>
        && drawn.None?
        && Frames(scheduler) == old(Frames(scheduler))
        && (forall i :: 0 <= i < |confettiPapers| ==> confettiPapers[i].State() == old(confettiPapers[i].State()))
        && (forall i :: 0 <= i < |confettiRibbons| ==> confettiRibbons[i].State() == old(confettiRibbons[i].State()))
      ensures hasContext ==>
        && Frames(scheduler) == Started(old(Frames(scheduler)))
        && drawn.Some?
        && |drawn.value.papers| == |confettiPapers| && |drawn.value.ribbons| == |confettiRibbons|
        && (forall i :: 0 <= i < |confettiPapers| ==>
              && drawn.value.papers[i].fill == Paper.FillColor(confettiPapers[i].State())
              && drawn.value.papers[i].outline == Paper.CornerDrawPositions(confettiPapers[i].State()))
        && (forall i :: 0 <= i < |confettiRibbons| ==> drawn.value.ribbons[i] == RibbonPicture(confettiRibbons[i]))
        && (forall i :: 0 <= i < |confettiPapers| ==>
              confettiPapers[i].State() == Paper.Stepped(old(confettiPapers[i].State()), duration, width, height, paperDraws[i], m))
        && (forall i :: 0 <= i < |confettiRibbons| ==>
              confettiRibbons[i].State() == Ribbon.Stepped(RIBBON_SETTINGS, old(confettiRibbons[i].State()),
                                                           duration, width, height, ribbonDraws[i], colorPairs, m))
    {
      if !hasContext {
        return None;
      }
      var quads := UpdatePapers(paperDraws, m);
      UpdateRibbons(ribbonDraws, m);
      drawn := Some(Picture(quads, RibbonPictures()));
      RequestFrame(scheduler);
    }

    /** The first loop of `render()`: `update(duration)` and then `draw` on every
        paper. */
    method UpdatePapers(draws: seq<Unit>, m: MathLib) returns (quads: seq<Paper.Quad>)
      requires Valid() && |draws| == |confettiPapers|
      modifies confettiPapers
      ensures Valid()
      ensures forall i :: 0 <= i < |confettiRibbons| ==> confettiRibbons[i].State() == old(confettiRibbons[i].State())
      ensures forall i :: 0 <= i < |confettiPapers| ==>
        confettiPapers[i].State() == Paper.Stepped(old(confettiPapers[i].State()), duration, width, height, draws[i], m)
      ensures |quads| == |confettiPapers|
      ensures forall i :: 0 <= i < |confettiPapers| ==>
        quads[i].fill == Paper.FillColor(confettiPapers[i].State()) &&
        quads[i].outline == Paper.CornerDrawPositions(confettiPapers[i].State())
    {
      quads := [];
      var i := 0;
      while i < |confettiPapers|
        invariant 0 <= i <= |confettiPapers|
        invariant forall j :: 0 <= j < i ==>
          confettiPapers[j].State() == Paper.Stepped(old(confettiPapers[j].State()), duration, width, height, draws[j], m)
        invariant forall j :: i <= j < |confettiPapers| ==> confettiPapers[j].State() == old(confettiPapers[j].State())
        invariant |quads| == i
        invariant forall j :: 0 <= j < i ==>
          quads[j].fill == Paper.FillColor(confettiPapers[j].State()) &&
          quads[j].outline == Paper.CornerDrawPositions(confettiPapers[j].State())
      {
        confettiPapers[i].Update(duration, width, height, draws[i], m);
        var q := confettiPapers[i].Draw();
        quads := quads + [q];
        i := i + 1;
      }
    }

    /** The second loop of `render()`: `update(duration)` on every ribbon. */
    method UpdateRibbons(draws: seq<Ribbon.RibbonDraws>, m: MathLib)
      requires Valid() && RootsPositive(m)
      requires (duration != 0.0 && |colorPairs| > 0) || |confettiRibbons| == 0
      requires |draws| == |confettiRibbons|
      modifies confettiRibbons, AllParticles(confettiRibbons)
      ensures Valid()
      ensures forall i :: 0 <= i < |confettiPapers| ==> confettiPapers[i].State() == old(confettiPapers[i].State())
      ensures forall i :: 0 <= i < |confettiRibbons| ==>
        confettiRibbons[i].State() == Ribbon.Stepped(RIBBON_SETTINGS, old(confettiRibbons[i].State()),
                                                     duration, width, height, draws[i], colorPairs, m)
    {
      var i := 0;
      while i < |confettiRibbons|
        invariant 0 <= i <= |confettiRibbons|
        invariant Valid()
        invariant forall j :: 0 <= j < i ==>
          confettiRibbons[j].State() == Ribbon.Stepped(RIBBON_SETTINGS, old(confettiRibbons[j].State()),
                                                       duration, width, height, draws[j], colorPairs, m)
        invariant forall j :: i <= j < |confettiRibbons| ==>
          confettiRibbons[j].State() == old(confettiRibbons[j].State()) && confettiRibbons[j].Repr() == old(confettiRibbons[j].Repr())
        invariant forall j :: 0 <= j < |confettiPapers| ==> confettiPapers[j].State() == old(confettiPapers[j].State())
      {
        StepRibbon(i, draws[i], m);
        i := i + 1;
      }
    }

    /** One iteration of the ribbon loop: `update(duration)` on ribbon i; the other
        ribbons and the papers are left as they were. */
    method StepRibbon(i: nat, draw: Ribbon.RibbonDraws, m: MathLib)
      requires Valid() && RootsPositive(m) && duration != 0.0 && |colorPairs| > 0
      requires i < |confettiRibbons|
      modifies confettiRibbons[i], confettiRibbons[i].Repr()
      ensures Valid()
      ensures confettiRibbons[i].State() == Ribbon.Stepped(RIBBON_SETTINGS, old(confettiRibbons[i].State()),
                                                           duration, width, height, draw, colorPairs, m)
      ensures forall j :: 0 <= j < |confettiRibbons| && j != i ==>
        confettiRibbons[j].State() == old(confettiRibbons[j].State()) && confettiRibbons[j].Repr() == old(confettiRibbons[j].Repr())
      ensures forall j :: 0 <= j < |confettiPapers| ==> confettiPapers[j].State() == old(confettiPapers[j].State())
    {
      var r := confettiRibbons[i];
      r.Update(duration, width, height, draw, colorPairs, m);
      forall j | 0 <= j < |confettiRibbons| && j != i
        ensures confettiRibbons[j].State() == old(confettiRibbons[j].State()) && confettiRibbons[j].Repr() == old(confettiRibbons[j].Repr())
        ensures confettiRibbons[j].Valid()
      {
        KeptApart(confettiRibbons[j]);
      }
    }

    /** The tail of `render()`: request the next frame and keep its id. */
    method RequestFrame(scheduler: FrameScheduler)
      requires Valid()
      modifies this, scheduler
      ensures Valid()
      ensures Frames(scheduler) == Started(old(Frames(scheduler)))
      ensures forall i :: 0 <= i < |confettiPapers| ==> confettiPapers[i].State() == old(confettiPapers[i].State())
      ensures forall i :: 0 <= i < |confettiRibbons| ==> confettiRibbons[i].State() == old(confettiRibbons[i].State())
      ensures RibbonPictures() == old(RibbonPictures())
    {
      var id := scheduler.Request();
      animationFrameRequestId := Some(id);
    }
  }
}
