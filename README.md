# Confetti particle engine, modelled in Dafny

This project models the confetti particle engine of `react-active-background`.
The canvas background draws two populations:

- **Papers**: small squares that fall at a constant speed, sway sideways and spin. Once below the container they jump back to its top.
- **Ribbons**: chains of point masses hanging from a head that falls and sways. Each particle is pulled after its predecessor, takes an explicit Euler step and is then put back at exactly `particleDistance` from it. Once the head has fallen far enough, the ribbon is rebuilt above the container.

The `Confetti` pattern owns both populations. Its options set how many of each there are and which colour pairs they use. It drives `start`, `stop` and `render` through an animation-frame request id. `ZoomCircle` is a second pattern with the same request-id machinery, built around a single clock.

How the model is laid out:

- **Numbers.** Numbers are reals.
- **Math functions.** `Math.sqrt`, `Math.cos` and `Math.sin` come in as a `MathLib` value. The predicate `Lawful` states the only facts used about them:
  - square roots of non-negative numbers are non-negative and square back;
  - cosines and sines lie in [-1, 1].
- **Random draws.** Every `Math.random()` draw is a parameter of type `Unit`, which is [0, 1). The draws of one constructor, `reset` or `update` are bundled in the order the code makes them (`PaperDraws`, `RibbonDraws`).
- **The browser.** The container's size, `window.devicePixelRatio` and "did `getContext('2d')` return a context" are parameters. `requestAnimationFrame` and `cancelAnimationFrame` are a `FrameScheduler` object that hands out the ids 1, 2, 3, … and records cancellations.

Each file follows the form of its source:

- `vector.dfy`: `Vector2D` is a datatype. Every source method clones its receiver, so it has value semantics.
- `euler_mass.dfy`, `paper.dfy`, `ribbon.dfy`: `EulerMass`, `ConfettiPaper` and `ConfettiRibbon` are classes whose methods update their fields in place. A ribbon's particles are `EulerMass` objects, changed through the three index loops of `update`.
  - Each class also has a value snapshot, `State()`, and pure functions that say what the constructor and each operation produce (`Spawned`, `Integrated`, `Launched`, `Stepped`, `Restarted`, …).
  - The methods are proved to produce exactly those states.
  - The lemmas prove the engine's properties about the functions: the accumulator is cleared, the head is pinned, the chain is spaced, papers wrap to the top, values stay in their ranges.
- `scheduling.dfy`: the request-id state machine, as the value `Frames` and its transitions `Started` and `Stopped`.
- `engine.dfy`: `Confetti`. Its `Render` updates and draws every paper, then every ribbon, and returns what the frame paints.
- `zoom.dfy`: `ZoomCircle`.

Two places where the code does something other than its names suggest; the model follows the code:

- **Colour pick.** `getRandomColors` (src/ActiveBackground/Confetti.ts:120-125) reads like a uniform pick of a colour pair. It takes index `Math.round(r * (n - 1))`, however, and rounding gives the first and the last pair each a draw interval half as wide as an inner pair's. `Palette.FirstPairHalfWeight`, `Palette.LastPairHalfWeight` and `Palette.InnerPairFullWeight` state the exact intervals.
- **Segment routines.** In `ConfettiRibbon.draw`:
  - segment 0 uses `drawFirstParticle`;
  - the last segment (index `n - 2`) uses `drawMiddleParticle`;
  - every segment in between uses `drawLastParticle`.

  The names are swapped relative to what they draw, and the model keeps the code's assignment. A two-particle ribbon has a single segment, which is drawn by `drawFirstParticle`.

## Model

| member | source | states |
|---|---|---|
| Vectors.Vector2D.Subtract | src/ActiveBackground/Confetti/Vector.ts:52-58 | `v.subtract(w)` is the same vector as the static `Vector2D.sub(v, w)` |
| Vectors.Vector2D.Divide | src/ActiveBackground/Confetti/Vector.ts:68-74 | dividing by a non-zero factor is undone by multiplying by it |
| Vectors.Vector2D.Normalize | src/ActiveBackground/Confetti/Vector.ts:76-82 | a vector of squared length 0, i.e. (0, 0), is returned as it is, never divided by zero |
| Vectors.NormalizedIsUnit | src/ActiveBackground/Confetti/Vector.ts:84-85 | a non-zero vector normalizes to squared length 1, and scaling the result by the original length gives the vector back |
| Vectors.SquareDistance | src/ActiveBackground/Confetti/Vector.ts:18-22 | `squareDistance(v0, v1)` is the squared length of `sub(v0, v1)` |
| Vectors.SquareLengthZero | src/ActiveBackground/Confetti/Vector.ts:40-42 | a squared length is never negative, and it is 0 exactly for the zero vector |
| Vectors.SquareDistanceZero | src/ActiveBackground/Confetti/Vector.ts:18-22 | a squared distance is never negative, and it is 0 exactly between equal points |
| Vectors.LengthSquared | src/ActiveBackground/Confetti/Vector.ts:36-38 | `length` is the non-negative number whose square is `squareLength` |
| Vectors.DistanceSquared | src/ActiveBackground/Confetti/Vector.ts:14-16 | `distance` is non-negative, squares to `squareDistance` and equals the length of `sub(v0, v1)` |
| Vectors.DistanceSymmetric | src/ActiveBackground/Confetti/Vector.ts:14-22 | distance and squared distance do not depend on the order of the two points |
| Vectors.AddThenSubtract | src/ActiveBackground/Confetti/Vector.ts:44-58 | `v.add(w).subtract(w)` is `v` |
| Vectors.AddCommutes | src/ActiveBackground/Confetti/Vector.ts:44-50 | `v.add(w)` equals `w.add(v)` |
| Vectors.MultiplyThenDivide | src/ActiveBackground/Confetti/Vector.ts:60-74 | multiplying by a non-zero factor is undone by dividing by it |
| Vectors.Sub | src/ActiveBackground/Confetti/Vector.ts:24-26 | the static `sub(v0, v1)`, componentwise difference; `Vectors.Vector2D.Subtract` and `Vectors.SquareDistance` are stated in terms of it |
| Vectors.Distance | src/ActiveBackground/Confetti/Vector.ts:14-16 | `Math.sqrt` of the squared distance; `Vectors.DistanceSquared` and `Vectors.DistanceSymmetric` state its properties |
| Vectors.Vector2D.Clone | src/ActiveBackground/Confetti/Vector.ts:32-34 | a copy with the same coordinates; a `Vector2D` is a value, so it is the vector itself |
| Vectors.Vector2D.SquareLength | src/ActiveBackground/Confetti/Vector.ts:40-42 | x * x + y * y; `Vectors.SquareLengthZero` states it is non-negative and zero only at the origin |
| Vectors.Vector2D.Length | src/ActiveBackground/Confetti/Vector.ts:36-38 | `Math.sqrt` of the squared length; `Vectors.LengthSquared` states it is non-negative and squares back |
| Vectors.Vector2D.Add | src/ActiveBackground/Confetti/Vector.ts:44-50 | componentwise sum on a copy; `Vectors.AddCommutes` and `Vectors.AddThenSubtract` state its properties |
| Vectors.Vector2D.Multiply | src/ActiveBackground/Confetti/Vector.ts:60-66 | both coordinates times the factor, on a copy; `Vectors.MultiplyThenDivide` and `Vectors.Vector2D.Divide` state it is undone by a division |
| Numerics.Round | src/ActiveBackground/Confetti.ts:64 | `Math.round(x)` is an integer within half a unit of x, halves rounded up |
| Numerics.Abs | src/ActiveBackground/ZoomCircle.ts:46 | `Math.abs(x)` is non-negative and is x or -x |
| PointMass.Spawned | src/ActiveBackground/Confetti/EulerMass.ts:10-16 | a new mass sits at (x, y) with zero velocity and force, and the given mass and drag |
| PointMass.EulerMass.constructor | src/ActiveBackground/Confetti/EulerMass.ts:10-16 | the constructed object's fields are the spawned state |
| PointMass.EulerMass.AddForce | src/ActiveBackground/Confetti/EulerMass.ts:18-20 | `addForce(v)` adds v to the force accumulator and changes nothing else |
| PointMass.PushedAllSums | src/ActiveBackground/Confetti/EulerMass.ts:18-20 | repeated `addForce` calls add the sum of their arguments to the accumulator and change nothing else |
| PointMass.NetForce | src/ActiveBackground/Confetti/EulerMass.ts:22-26 | `currentForce()`: the accumulated force minus the velocity scaled by drag * mass * speed; `PointMass.DragIsQuadratic` and `PointMass.RestingForce` state its properties |
| PointMass.EulerMass.CurrentForce | src/ActiveBackground/Confetti/EulerMass.ts:22-26 | the net force of the object's current state (`PointMass.NetForce`) |
| PointMass.DragIsQuadratic | src/ActiveBackground/Confetti/EulerMass.ts:22-26 | `currentForce` removes a drag whose magnitude is drag * mass * speed squared (its square is (drag * mass)^2 * speed^4) |
| PointMass.RestingForce | src/ActiveBackground/Confetti/EulerMass.ts:22-26 | with zero velocity, `currentForce` is exactly the accumulated force |
| PointMass.Integrated | src/ActiveBackground/Confetti/EulerMass.ts:28-34 | after `integrate` the force accumulator is the zero vector, and mass and drag are unchanged |
| PointMass.EulerStep | src/ActiveBackground/Confetti/EulerMass.ts:28-32 | `integrate(dt)` moves the position by the pre-step velocity * dt, and mass times the change of velocity is `currentForce` * dt |
| PointMass.RestIsFixed | src/ActiveBackground/Confetti/EulerMass.ts:28-34 | a mass with zero velocity and nothing accumulated does not move |
| PointMass.EulerMass.Integrate | src/ActiveBackground/Confetti/EulerMass.ts:28-34 | the object's new state is the integrated state of its old one |
| Palette.ColorIndex | src/ActiveBackground/Confetti.ts:122 | `Math.round(random * (n - 1))` is a valid index of a non-empty palette |
| Palette.PickColors | src/ActiveBackground/Confetti.ts:120-125 | `getRandomColors` always yields a pair of the palette |
| Palette.SinglePair | src/ActiveBackground/Confetti.ts:120-125 | a one-pair palette always yields that pair |
| Palette.FirstPairHalfWeight | src/ActiveBackground/Confetti.ts:122 | the first pair is picked exactly when the draw is below 1/(2(n-1)), half the interval of an inner pair |
| Palette.LastPairHalfWeight | src/ActiveBackground/Confetti.ts:122 | the last pair is picked exactly when the draw is at least 1 - 1/(2(n-1)) |
| Palette.InnerPairFullWeight | src/ActiveBackground/Confetti.ts:122 | an inner pair i is picked exactly when the draw lies in [(i - 1/2)/(n-1), (i + 1/2)/(n-1)), an interval twice as wide as the first or last pair's |
| Paper.ComputeCorners | src/ActiveBackground/Confetti/ConfettiPaper.ts:110-116 | there are four corners, each with coordinates in [-1, 1] |
| Paper.Launched | src/ActiveBackground/Confetti/ConfettiPaper.ts:39-67 | a new paper starts inside the container, with rotationSpeed in [800, 1400), oscillationSpeed in [0.5, 2), yVelocity in [50, 110), time in [0, 1), cosRotation 1, xVelocity 40, size 5, the four corners of its angle, and a colour pair from the palette |
| Paper.ConfettiPaper.constructor | src/ActiveBackground/Confetti/ConfettiPaper.ts:39-67 | the constructed object's fields are the launched state |
| Paper.Stepped | src/ActiveBackground/Confetti/ConfettiPaper.ts:69-83 | the state after `update(dt)`; `Paper.SteppedFrame`, `Paper.WrapToTop` and `Paper.StaysInContainer` state its properties |
| Paper.Swayed | src/ActiveBackground/Confetti/ConfettiPaper.ts:74-75 | the sideways move x + cos(time * oscillationSpeed) * xVelocity * dt of an update that does not wrap (`Paper.WrapToTop`) |
| Paper.SteppedFrame | src/ActiveBackground/Confetti/ConfettiPaper.ts:69-83 | `update(dt)` advances time by dt and rotation by rotationSpeed * dt, keeps cosRotation in [-1, 1], and changes nothing but position, time, rotation and cosRotation (speeds, corners, size and colours are kept) |
| Paper.WrapToTop | src/ActiveBackground/Confetti/ConfettiPaper.ts:74-82 | when the fallen y passes the height, the paper goes to y = 0 and an x in [0, width); otherwise it has fallen by exactly yVelocity * dt |
| Paper.StaysInContainer | src/ActiveBackground/Confetti/ConfettiPaper.ts:78-82 | after `update`, y is at most the container height |
| Paper.ConfettiPaper.Update | src/ActiveBackground/Confetti/ConfettiPaper.ts:69-83 | the object's new state is the stepped state of its old one |
| Paper.FillColor | src/ActiveBackground/Confetti/ConfettiPaper.ts:86-90 | the front colour exactly when cosRotation > 0, otherwise the back colour |
| Paper.CornerDrawPositions | src/ActiveBackground/Confetti/ConfettiPaper.ts:100-107 | there is one drawn point per corner |
| Paper.DrawnWithinWidth | src/ActiveBackground/Confetti/ConfettiPaper.ts:100-107 | every drawn corner lies within `size` of the position horizontally |
| Paper.DrawnWithinHeight | src/ActiveBackground/Confetti/ConfettiPaper.ts:100-107 | every drawn corner lies within `size` of the position vertically, given that cosRotation lies in [-1, 1] |
| Paper.ConfettiPaper.Draw | src/ActiveBackground/Confetti/ConfettiPaper.ts:85-98 | `draw` fills the corner draw positions in the fill colour |
| Ribbon.Resolve | src/ActiveBackground/Confetti/ConfettiRibbon.ts:53-59 | with no configuration the ribbon has 30 particles of mass 1 and drag 0.05, 8 apart, is 8 thick and is at 45 degrees; every value that is given (count, mass, drag, distance, thickness, angle) is kept |
| Ribbon.Chain | src/ActiveBackground/Confetti/ConfettiRibbon.ts:101-109 | `reset` creates exactly particleCount particles, particle i at (x, y - i * particleDistance) with the configured mass and drag |
| Ribbon.ChainShape | src/ActiveBackground/Confetti/ConfettiRibbon.ts:101-109 | the laid-out chain starts at the head, is at rest and has neighbours exactly particleDistance apart |
| Ribbon.Restarted | src/ActiveBackground/Confetti/ConfettiRibbon.ts:79-110 | after `reset`, prevPosition equals the head, the colours are a pair of the palette and the particles hang from the head |
| Ribbon.RestartedRanges | src/ActiveBackground/Confetti/ConfettiRibbon.ts:80-99 | the head lies in [0, width) x (-2 height, 0], time in [0, 10), oscillationSpeed in [1.5, 3.5), oscillationDistance in [40, 80), velocityInherit in [0, 2), yVelocity in [80, 120) |
| Ribbon.RestartedIsSettled | src/ActiveBackground/Confetti/ConfettiRibbon.ts:79-110 | a reset ribbon fits its settings, has head, prevPosition and first particle together with no forces, and is spaced |
| Ribbon.ConfettiRibbon.constructor | src/ActiveBackground/Confetti/ConfettiRibbon.ts:53-77 | the settings are the resolved configuration, xOff = cos(angle) * thickness, yOff = sin(angle) * thickness, and the state is a reset one with new particle objects |
| Ribbon.ConfettiRibbon.Reset | src/ActiveBackground/Confetti/ConfettiRibbon.ts:79-110 | `reset` leaves the restarted state with new, distinct particle objects |
| Ribbon.ConfettiRibbon.Redraw | src/ActiveBackground/Confetti/ConfettiRibbon.ts:80-99 | the head, prevPosition, colours, clock and motion parameters are those of the restarted state |
| Ribbon.ConfettiRibbon.NewChain | src/ActiveBackground/Confetti/ConfettiRibbon.ts:101-109 | particleCount new, distinct particle objects whose states are the laid-out chain |
| Ribbon.Head | src/ActiveBackground/Confetti/ConfettiRibbon.ts:113-115 | the head falls by exactly yVelocity * dt |
| Ribbon.Swung | src/ActiveBackground/Confetti/ConfettiRibbon.ts:113-121 | the clock advances by exactly dt * oscillationSpeed, and moving the head does not touch the particles |
| Ribbon.MovedHead | src/ActiveBackground/Confetti/ConfettiRibbon.ts:113-124 | after the move the head has fallen by yVelocity * dt, and prevPosition and particle 0 coincide with it |
| Ribbon.MovedKeepsParameters | src/ActiveBackground/Confetti/ConfettiRibbon.ts:112-149 | a step advances the clock by exactly dt * oscillationSpeed and keeps the colours, velocityInherit, oscillationSpeed, oscillationDistance and yVelocity |
| Ribbon.Inheritance | src/ActiveBackground/Confetti/ConfettiRibbon.ts:117-131 | the pull strength (dDistance / dt) * velocityInherit, dDistance being how far the head moved; `Ribbon.ConfettiRibbon.MoveHead` returns it and `Ribbon.PullStrength` states the pull has this magnitude |
| Ribbon.Pull | src/ActiveBackground/Confetti/ConfettiRibbon.ts:126-131 | `normalize(sub(prev, p)).multiply(k)`; `Ribbon.NoPullWhenTogether` and `Ribbon.PullStrength` state its properties |
| Ribbon.Snap | src/ActiveBackground/Confetti/ConfettiRibbon.ts:143-147 | `p.subtract(prev).normalize().multiply(d).add(prev)`; `Ribbon.SnapDistance` states the result is d from prev, or on prev |
| Ribbon.Moved | src/ActiveBackground/Confetti/ConfettiRibbon.ts:112-149 | `update(dt)` before the reset check; `Ribbon.MovedHead`, `Ribbon.MovedKeepsParameters` and `Ribbon.MovedParticles` state its properties |
| Ribbon.Stepped | src/ActiveBackground/Confetti/ConfettiRibbon.ts:112-157 | the moved ribbon, or a reset one when the head passed the reset line; `Ribbon.ResetExactlyBelowLine` and `Ribbon.SteppedKeepsShape` state its properties |
| Ribbon.ConfettiRibbon.MoveHead | src/ActiveBackground/Confetti/ConfettiRibbon.ts:113-121 | the head part of `update` yields the swung state and returns the pull strength (dDistance / dt) * velocityInherit |
| Ribbon.Pulled | src/ActiveBackground/Confetti/ConfettiRibbon.ts:125-134 | the first loop keeps the count, changes only forces, and never touches particle 0 |
| Ribbon.PulledForces | src/ActiveBackground/Confetti/ConfettiRibbon.ts:125-134 | particle i > 0 gains exactly the pull computed from its predecessor's position and its own, added to the force it held |
| Ribbon.NoPullWhenTogether | src/ActiveBackground/Confetti/ConfettiRibbon.ts:126-131 | a particle on top of its predecessor receives no pull |
| Ribbon.PullStrength | src/ActiveBackground/Confetti/ConfettiRibbon.ts:126-131 | otherwise the pull has magnitude (dDistance / dt) * velocityInherit, up to sign |
| Ribbon.ConfettiRibbon.InheritForces | src/ActiveBackground/Confetti/ConfettiRibbon.ts:125-134 | the loop's result is the pulled chain |
| Ribbon.IntegratedTail | src/ActiveBackground/Confetti/ConfettiRibbon.ts:137-139 | the second loop leaves particle 0 as it was, every other particle with a zero force, and all masses and drags unchanged |
| Ribbon.ConfettiRibbon.IntegrateTail | src/ActiveBackground/Confetti/ConfettiRibbon.ts:137-139 | the loop's result is the integrated chain |
| Ribbon.Constrained | src/ActiveBackground/Confetti/ConfettiRibbon.ts:142-149 | the third loop keeps the count and particle 0 |
| Ribbon.ConstrainedAt | src/ActiveBackground/Confetti/ConfettiRibbon.ts:142-149 | particle i of the corrected chain differs from the input only in its position, computed from the already corrected particle i - 1 |
| Ribbon.SnapDistance | src/ActiveBackground/Confetti/ConfettiRibbon.ts:143-147 | a snapped particle is exactly particleDistance from its predecessor, or on it when the two coincided |
| Ribbon.ConstrainedSpaced | src/ActiveBackground/Confetti/ConfettiRibbon.ts:142-149 | after the correction pass every particle is particleDistance from its predecessor or on it |
| Ribbon.ConfettiRibbon.ConstrainChain | src/ActiveBackground/Confetti/ConfettiRibbon.ts:142-149 | the loop's result is the corrected chain |
| Ribbon.Loosened | src/ActiveBackground/Confetti/ConfettiRibbon.ts:124-139 | after pinning, pulling and integrating, particle 0 is at the head, the count, masses and drags are kept, and no other particle holds a force |
| Ribbon.MovedParticles | src/ActiveBackground/Confetti/ConfettiRibbon.ts:125-149 | after the three loops the count, masses and drags are kept and no particle but the first holds a force |
| Ribbon.ConfettiRibbon.MoveChain | src/ActiveBackground/Confetti/ConfettiRibbon.ts:124-149 | pinning and the three loops yield the corrected, integrated, pulled chain |
| Ribbon.ConfettiRibbon.Move | src/ActiveBackground/Confetti/ConfettiRibbon.ts:113-149 | `update` up to the reset check yields the moved state |
| Ribbon.ResetExactlyBelowLine | src/ActiveBackground/Confetti/ConfettiRibbon.ts:151-156 | the ribbon is rebuilt exactly when the lowered head passes height + particleDistance * particleCount |
| Ribbon.SteppedKeepsShape | src/ActiveBackground/Confetti/ConfettiRibbon.ts:112-157 | `update` keeps the ribbon fitting its settings, settled (head, prevPosition and particle 0 together, no force left) and spaced, whether or not it rebuilds |
| Ribbon.ConfettiRibbon.Update | src/ActiveBackground/Confetti/ConfettiRibbon.ts:112-157 | the object's new state is the stepped state of its old one; any new particle objects are fresh |
| Ribbon.FacingIsCross | src/ActiveBackground/Confetti/ConfettiRibbon.ts:262-268 | measured at the offset end of a segment, `sideFacing` is the cross product of the segment's direction with the offset |
| Ribbon.ReversedSegmentFlipsSide | src/ActiveBackground/Confetti/ConfettiRibbon.ts:262-268 | turning a segment around negates `sideFacing` |
| Ribbon.CoincidentShowsBack | src/ActiveBackground/Confetti/ConfettiRibbon.ts:262-268 | two coincident particles give `sideFacing` 0, hence the back colour |
| Ribbon.SideFacing | src/ActiveBackground/Confetti/ConfettiRibbon.ts:262-268 | the cross product (x1 - x2)(y3 - y2) - (y1 - y2)(x3 - x2); `Ribbon.FacingIsCross`, `Ribbon.ReversedSegmentFlipsSide` and `Ribbon.CoincidentShowsBack` state its properties |
| Ribbon.SegmentShape | src/ActiveBackground/Confetti/ConfettiRibbon.ts:160-259 | a segment is front-coloured exactly when `sideFacing` < 0; segments 0 and n - 2 draw two triangles (paths of three points), the others one quadrilateral (four points); segment 0's triangles meet halfway along the offset at the next particle, segment n - 2's (when it is not also segment 0) halfway along the offset at the particle itself |
| Ribbon.Drawn | src/ActiveBackground/Confetti/ConfettiRibbon.ts:159-184 | `draw` fills one shape per segment, n - 1 for n particles |
| Ribbon.ConfettiRibbon.Draw | src/ActiveBackground/Confetti/ConfettiRibbon.ts:159-184 | the drawing loop fills exactly the segment shapes of the current state |
| Scheduling.Started | src/ActiveBackground/Confetti.ts:89-91 | `start` stores a newly issued id and cancels nothing |
| Scheduling.Stopped | src/ActiveBackground/Confetti.ts:93-97 | `stop` keeps the stored id |
| Scheduling.StartedIsLive | src/ActiveBackground/Confetti.ts:89-91 | after `start` the stored request is live and not cancelled |
| Scheduling.StoppedIsNotLive | src/ActiveBackground/Confetti.ts:93-97 | after `stop` no live request remains |
| Scheduling.StopWhileIdle | src/ActiveBackground/Confetti.ts:86 | `stop` before any `start` (id still null) cancels nothing |
| Scheduling.StopTwice | src/ActiveBackground/Confetti.ts:93-97 | because `stop` does not clear the id, a second `stop` changes nothing more |
| Scheduling.StartThenStop | src/ActiveBackground/Confetti.ts:89-97 | stopping after starting cancels exactly the id that `start` obtained |
| Scheduling.Truthy | src/ActiveBackground/Confetti.ts:94 | JavaScript truthiness of the stored id: null and 0 are falsy; `Scheduling.Stopped` and `Scheduling.StopWhileIdle` depend on it |
| Scheduling.FrameScheduler.Request | src/ActiveBackground/Confetti.ts:90 | `requestAnimationFrame` returns a new positive id |
| Scheduling.FrameScheduler.Cancel | src/ActiveBackground/Confetti.ts:95 | `cancelAnimationFrame(id)` records id as cancelled |
| Engine.Defaults | src/ActiveBackground/Confetti.ts:19-29 | without options: speed 50, duration 1/50, 10 ribbons, the default palette, and 50 papers at ratio 1 and 25 at ratio 2 |
| Engine.Speed | src/ActiveBackground/Confetti.ts:51 | `options.speed ?? 50`; `Engine.Defaults` states the default |
| Engine.Duration | src/ActiveBackground/Confetti.ts:52 | `options.duration ?? 1.0 / speed`; `Engine.DurationIsInverseSpeed` states both cases |
| Engine.ColorPairs | src/ActiveBackground/Confetti.ts:58 | `options.colorPairs ?? COLORS`; `Engine.Defaults` states the default |
| Engine.PaperCount | src/ActiveBackground/Confetti.ts:60-65 | the requested paper count, any number, divided by the pixel ratio and rounded when scaling is on; `Engine.PaperCountScales` states both cases |
| Engine.RibbonCount | src/ActiveBackground/Confetti.ts:76-79 | `options.confettiRibbonCount ?? 10`, a length `new Array` accepts (a whole number below 2^32); `Engine.Defaults` states the default |
| Engine.DurationIsInverseSpeed | src/ActiveBackground/Confetti.ts:51-52 | a missing duration is 1/speed; a given one is kept |
| Engine.PaperCountScales | src/ActiveBackground/Confetti.ts:60-65 | with scaling on (the default) the paper count is round(count / ratio); with scaling off it is count |
| Engine.PaperCountDomain | src/ActiveBackground/Confetti.ts:60-69 | with scaling on, exactly the counts in [-ratio / 2, (2^32 - 1/2) * ratio) give a valid array length, fractional or not |
| Engine.OversizedPaperCounts | src/ActiveBackground/Confetti.ts:60-69 | a count whose length would reach 2^32 is refused: 2^32 with scaling off, 2^33 at ratio 2 with scaling on; 2^32 - 1 is accepted |
| Engine.FractionalPaperCounts | src/ActiveBackground/Confetti.ts:63-69 | a requested 2.5 papers at ratio 1 gives 3 papers, and -0.4 gives none |
| Engine.NewPapers | src/ActiveBackground/Confetti.ts:69-74 | one new, distinct, launched paper per draw |
| Engine.NewRibbons | src/ActiveBackground/Confetti.ts:79-84 | one new, valid, reset ribbon with default settings per draw, sharing no particle with another |
| Engine.Confetti.constructor | src/ActiveBackground/Confetti.ts:47-87 | speed, duration, width and height (offset size times ratio), palette, paper and ribbon counts as the options say, every entity launched or reset, and a null request id; an empty palette is accepted when there are no papers and no ribbons |
| Engine.Confetti.Start | src/ActiveBackground/Confetti.ts:89-91 | `start` stores the id the scheduler hands out |
| Engine.Confetti.Stop | src/ActiveBackground/Confetti.ts:93-97 | `stop` cancels only a truthy id and keeps it |
| Engine.Confetti.UpdatePapers | src/ActiveBackground/Confetti.ts:106-109 | every paper is stepped by `duration` with its own draw and then drawn, in order; the ribbons are untouched |
| Engine.Confetti.StepRibbon | src/ActiveBackground/Confetti.ts:112 | updating one ribbon leaves every other ribbon, and every paper, as it was |
| Engine.Confetti.UpdateRibbons | src/ActiveBackground/Confetti.ts:111-114 | every ribbon is stepped by `duration` with its own draws; the papers are untouched and the ribbons stay disjoint and valid |
| Engine.Confetti.RequestFrame | src/ActiveBackground/Confetti.ts:116 | requesting the next frame stores the new id and changes no paper or ribbon |
| Engine.Confetti.Render | src/ActiveBackground/Confetti.ts:99-117 | without a context nothing changes and nothing is requested, whatever the duration and palette; otherwise every paper and then every ribbon is stepped by `duration` and drawn, and a new request id is stored |
| Zoom.RadiusBounds | src/ActiveBackground/ZoomCircle.ts:43-47 | the radius (canvas.width / 2) * abs(cos(time)) lies in [0, canvas.width / 2] |
| Zoom.Radius | src/ActiveBackground/ZoomCircle.ts:46 | (canvas.width / 2) * abs(cos(time)); `Zoom.RadiusBounds` states its bounds |
| Zoom.ZoomCircle.constructor | src/ActiveBackground/ZoomCircle.ts:13-24 | a new circle has time 0 and a null request id |
| Zoom.ZoomCircle.Start | src/ActiveBackground/ZoomCircle.ts:26-28 | `start` stores the id the scheduler hands out |
| Zoom.ZoomCircle.Stop | src/ActiveBackground/ZoomCircle.ts:30-34 | `stop` cancels only a truthy id |
| Zoom.ZoomCircle.Render | src/ActiveBackground/ZoomCircle.ts:36-54 | without a context time and the request are unchanged; otherwise the circle of the current radius is drawn, time grows by exactly 0.05 and a new id is stored |

## Left out

- Canvas calls (`clearRect`, `beginPath`, `moveTo`, `lineTo`, `arc`, `stroke`, `fill`) are not modelled. Drawing is modelled as the colours and closed paths each `draw` fills; for `ZoomCircle`, as the radius of its circle.
- IEEE floating point is not modelled: rounding, NaN, Infinity and accuracy. Several operations therefore require what keeps reals defined:
  - a non-zero divisor in `divide`;
  - `dt != 0` in a ribbon update and `duration != 0` in `render`;
  - a non-zero particle mass;
  - a positive pixel ratio.
- The colour pick requires a non-empty palette. With an empty one the original reads `undefined` and throws a `TypeError` when destructuring it. The constructor and `render` accept an empty palette when there is nothing to colour.
- Ribbon.Head: the contract states only the fall by yVelocity * dt. The sideways move by cos(time) * oscillationDistance * dt, with the clock already advanced, is in its definition, and no bound on it is proved.
- Engine.PaperCount: requires a requested count for which `new Array` gets a valid length, a whole number below 2^32 after rounding (`PaperCountValid`). For any other count the original throws a RangeError, which is not modelled.
- Engine.RibbonCount: the option is a whole number in [0, 2^32) (`ArrayLength`). Any other value makes `new Array` throw a RangeError in the original, which is not modelled.
- Engine.Duration: requires a duration or a non-zero speed. With `speed: 0` and no duration the original computes `1.0 / 0`, which is Infinity, and the model has no Infinity.
- `Ribbon.ConfettiRibbon.Update` requires at least one particle, because the original throws a `TypeError` on `particles[0]` when there is none.
- `sqrt`, `cos` and `sin` are caller-supplied functions constrained only by `Lawful`. No trajectory is computed, so nothing is claimed about the particles' actual paths.
- `Math.random()` is a parameter; each draw is supplied by the caller in the source's call order.
- When animation frames fire is not modelled. The scheduler only hands out and cancels ids, and `render` is one call.
- The `parent` back-reference and the `fetchColors` closure are replaced by the container's width and height and the palette, passed to each operation.
- Ribbon.ConfettiRibbon.Update: the original makes `particles[0].position` the same object as `currPosition` and then mutates `currPosition.x`/`.y` in place. The model copies the value instead. The two agree at the end of every `update` and `reset`, which is all the model states.
- Engine.Confetti.Render: ribbon `draw` calls are interleaved with ribbon updates in the original. The model updates every ribbon and then reads every ribbon's picture. The result is the same, because `draw` changes nothing and no two ribbons share a particle.
- `src/ActiveBackground.tsx` (the React component) is not part of this model. Its backing-size expressions parse as `offsetHeight ?? (0 * devicePixelRatio)`, so the pixel ratio is never applied there. `src/hooks/useResizeObserver.ts` and `src/index.ts` are not part of this model either.
