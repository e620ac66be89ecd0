/**
 * `NumberFaceHandler`: classifies a frame as no face, one face or more than
 * one face by the number of distinct tracking ids, sends that one event, and
 * may halt the chain unless exactly one face was found.
 */
module FaceCount {

  import opened Wrappers
  import opened Vision
  import opened FaceStates
  import opened Listeners

  /** The keys `distinctBy { it.trackingId }` keeps: one per distinct id, an absent id being one key. */
  function TrackingIds(faces: seq<Face>): set<Option<int>> {
    set i | 0 <= i < |faces| :: faces[i].trackingId
  }

  /** `moreThanOneFace`: the number of distinct ids is not one. */
  predicate MoreThanOneFace(faces: seq<Face>) {
    |TrackingIds(faces)| != 1
  }

  /** Every entry carries the id of the first. */
  predicate SharesOneId(faces: seq<Face>) {
    forall i :: 0 <= i < |faces| ==> faces[i].trackingId == faces[0].trackingId
  }

  /** A non-empty list has exactly one distinct id iff all its entries share one. */
  lemma OneDistinctId(faces: seq<Face>)
    requires faces != []
    ensures |TrackingIds(faces)| == 1 <==> SharesOneId(faces)
  {
    var ids := TrackingIds(faces);
    var first := faces[0].trackingId;
    if SharesOneId(faces) {
      assert ids == {first};
    } else {
      var j :| 0 <= j < |faces| && faces[j].trackingId != first;
      var pair := {first, faces[j].trackingId};
      assert pair <= ids;
      assert ids == pair + (ids - pair);
      assert |ids| == |pair| + |ids - pair|;
    }
  }

  /** The `when` in `handle`. */
  function Classify(faces: seq<Face>): (s: FaceState)
    ensures s == NoFace <==> faces == []
    ensures s == MoreThatOneFace <==> faces != [] && !SharesOneId(faces)
    ensures s == FaceDetected <==> faces != [] && SharesOneId(faces)
  {
    if faces == [] then NoFace
    else if MoreThanOneFace(faces) then
      OneDistinctId(faces);
      MoreThatOneFace
    else
      OneDistinctId(faces);
      FaceDetected
  }

  /** The flag after `handle`: written only when halting is configured. */
  function FlagAfter(flag: bool, halt: bool, faces: seq<Face>): bool {
    if halt then Classify(faces) == FaceDetected else flag
  }

  class NumberFaceHandler {
    const canHandleNextOnlyWithOneFace: bool
    /** Stored by the constructor and never used by `handle`. */
    const facePointListener: FacePointListener?
    var nextCanHandle: bool

    constructor (canHandleNextOnlyWithOneFace: bool, facePointListener: FacePointListener?)
      ensures this.canHandleNextOnlyWithOneFace == canHandleNextOnlyWithOneFace
      ensures this.facePointListener == facePointListener
      ensures nextCanHandle
    {
      this.canHandleNextOnlyWithOneFace := canHandleNextOnlyWithOneFace;
      this.facePointListener := facePointListener;
      nextCanHandle := true;
    }

    method NextCanHandle() returns (b: bool)
      ensures b == nextCanHandle
    {
      b := nextCanHandle;
    }

    /** Exactly one event per call; the flag follows `FlagAfter`. */
    method Handle(faces: seq<Face>, listener: FaceStateListener)
      modifies this, listener
      ensures listener.events == old(listener.events) + [Event(Classify(faces))]
      ensures nextCanHandle == FlagAfter(old(nextCanHandle), canHandleNextOnlyWithOneFace, faces)
    {
      var state: FaceState;
      if faces == [] {
        state := NoFace;
      } else if MoreThanOneFace(faces) {
        state := MoreThatOneFace;
      } else {
        state := FaceDetected;
      }
      listener.OnFaceStateEvent(state, None);
      if canHandleNextOnlyWithOneFace {
        nextCanHandle := state == FaceDetected;
      }
    }
  }

}
