/**
 * `BaseFaceHandler`: the "next can handle" flag every handler carries, and
 * the default `handle` that does nothing. Kotlin's subclasses inherit the
 * field; here each handler class declares its own `nextCanHandle`, which
 * starts `true` and which only that handler's `Handle` assigns.
 */
module BaseHandler {

  import opened Vision
  import opened Listeners

  class BaseFaceHandler {
    var nextCanHandle: bool

    constructor ()
      ensures nextCanHandle
    {
      nextCanHandle := true;
    }

    /** Reads the flag without changing anything. */
    method NextCanHandle() returns (b: bool)
      ensures b == nextCanHandle
    {
      b := nextCanHandle;
    }

    /** The default `handle`: sends nothing and keeps the flag. */
    method Handle(faces: seq<Face>, listener: FaceStateListener)
      ensures listener.events == old(listener.events)
      ensures nextCanHandle == old(nextCanHandle)
    {
    }
  }

}
