/**
 * The two sinks the handlers report to. `FaceStateListener` receives every
 * event; `FacePointListener` receives the on-screen support points. Each is
 * modelled as the log of what it has been sent.
 */
module Listeners {

  import opened Wrappers
  import opened FaceStates
  import opened Vision

  /** One `onFaceStateEvent(faceState, errorMessage)` call. */
  datatype Emission = Emission(state: FaceState, errorMessage: Option<string>)

  /** An event with the default `errorMessage = null`. */
  function Event(s: FaceState): Emission {
    Emission(s, None)
  }

  class FaceStateListener {
    var events: seq<Emission>

    constructor ()
      ensures events == []
    {
      events := [];
    }

    method OnFaceStateEvent(faceState: FaceState, errorMessage: Option<string>)
      modifies this
      ensures events == old(events) + [Emission(faceState, errorMessage)]
    {
      events := events + [Emission(faceState, errorMessage)];
    }
  }

  class FacePointListener {
    var updates: seq<seq<Point>>

    constructor ()
      ensures updates == []
    {
      updates := [];
    }

    method UpdateFacePoints(points: seq<Point>)
      modifies this
      ensures updates == old(updates) + [points]
    {
      updates := updates + [points];
    }
  }

  /** The frame of an optional point listener. */
  function Frame(p: FacePointListener?): set<object> {
    if p == null then {} else {p}
  }

}
