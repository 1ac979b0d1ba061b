/** The animation-frame machinery shared by the Confetti and ZoomCircle patterns.
    The browser's `requestAnimationFrame` / `cancelAnimationFrame` pair is a
    FrameScheduler object that hands out the positive ids 1, 2, 3, ... and records
    the ids cancelled; when frames fire is not modelled. A pattern keeps the last id
    it was handed in `animationFrameRequestId`, which starts out null. */
module Scheduling {
  import opened Optional

  /** A pattern's request id together with the scheduler's state, as a value. */
  datatype Frames = Frames(requestId: Option<nat>, issued: nat, cancelled: set<nat>)

  /** Every id the pattern holds or the scheduler has cancelled was handed out. */
  ghost predicate Consistent(f: Frames) {
    && (f.requestId.Some? ==> f.requestId.value <= f.issued)
    && forall id :: id in f.cancelled ==> id <= f.issued
  }

  /** JavaScript's truthiness test `if (this.animationFrameRequestId)` on a number or
      null: null and 0 are falsy. */
  predicate Truthy(id: Option<nat>) {
    id.Some? && id.value != 0
  }

  /** The pattern holds a request that has not been cancelled. */
  predicate Live(f: Frames) {
    Truthy(f.requestId) && f.requestId.value !in f.cancelled
  }

  /** `start()` (and the tail of a full `render()`): request a frame and keep its id. */
  function Started(f: Frames): (g: Frames)
    ensures g.requestId.Some? && g.requestId.value == g.issued == f.issued + 1
    ensures g.cancelled == f.cancelled
  {
    var id := f.issued + 1;
    f.(requestId := Some(id), issued := id)
  }

  /** `stop()`: cancel the held id when it is truthy; the id itself is kept. */
  function Stopped(f: Frames): (g: Frames)
    ensures g.requestId == f.requestId && g.issued == f.issued
  {
    if Truthy(f.requestId) then f.(cancelled := f.cancelled + {f.requestId.value}) else f
  }

  /** Starting hands out an id nobody has cancelled: the new request is live. */
  lemma StartedIsLive(f: Frames)
    requires Consistent(f)
    ensures Live(Started(f)) && Consistent(Started(f))
  {
  }

  /** Stopping leaves no live request, whatever the state, and keeps consistency. */
  lemma StoppedIsNotLive(f: Frames)
    ensures !Live(Stopped(f))
    ensures Consistent(f) ==> Consistent(Stopped(f))
  {
  }

  /** `stop()` before any `start()` cancels nothing. */
  lemma StopWhileIdle(f: Frames)
    requires f.requestId.None?
    ensures Stopped(f) == f
  {
  }

  /** Because `stop()` does not clear the id, a second `stop()` cancels the same id
      again, which changes nothing. */
  lemma StopTwice(f: Frames)
    ensures Stopped(Stopped(f)) == Stopped(f)
  {
    if Truthy(f.requestId) {
      var g := Stopped(f);
      assert g.cancelled + {f.requestId.value} == g.cancelled;
    }
  }

  /** Stopping after starting cancels exactly the id that `start()` obtained. */
  lemma StartThenStop(f: Frames)
    ensures var g := Stopped(Started(f));
      g.cancelled == f.cancelled + {f.issued + 1} && g.requestId == Some(f.issued + 1)
  {
  }

  /** `requestAnimationFrame` and `cancelAnimationFrame`. */
  class FrameScheduler {
    var issued: nat
    var cancelled: set<nat>

    constructor()
      ensures issued == 0 && cancelled == {}
    {
      issued := 0;
      cancelled := {};
    }

    /** `requestAnimationFrame(callback)`: a new positive id. */
    method Request() returns (id: nat)
      modifies this
      ensures id == old(issued) + 1 && issued == id && 0 < id
      ensures cancelled == old(cancelled)
    {
      issued := issued + 1;
      id := issued;
    }

    /** `cancelAnimationFrame(id)`. */
    method Cancel(id: nat)
      modifies this
      ensures cancelled == old(cancelled) + {id} && issued == old(issued)
    {
      cancelled := cancelled + {id};
    }
  }
}
