/**
 * `ExpectedFaceRegion` and `ExpectedFaceRegionHandler`: the region of
 * interest drawn on the preview surface, scaled into frame pixels, and the
 * handler that reports, face by face, whether the bounding box lies inside
 * it.
 */
module Region {

  import opened Wrappers
  import opened KotlinInt
  import opened Vision
  import opened FaceStates
  import opened Listeners

  /** The five fields of an `ExpectedFaceRegion` at one moment. */
  datatype Geometry = Geometry(
    faceRoi: Rect,
    surfaceWidth: Int32,
    surfaceHeight: Int32,
    frameWidth: Int32,
    frameHeight: Int32)

  /** `ExpectedFaceRegion()` with every default. */
  const INITIAL_GEOMETRY: Geometry := Geometry(EMPTY_RECT, 0, 0, 0, 0)

  /** `edge * frameDim / surfaceDim` in Kotlin `Int` arithmetic. */
  function ScaleEdge(edge: Int32, frameDim: Int32, surfaceDim: Int32): Int32
    requires surfaceDim != 0
  {
    Div32(Mul32(edge, frameDim), surfaceDim)
  }

  /** `isFaceInside`: the box lies within the scaled region on all four edges, bounds inclusive. */
  predicate IsFaceInside(g: Geometry, box: Rect) {
    if g.frameWidth == 0 || g.frameHeight == 0 then false
    else if g.surfaceWidth == 0 || g.surfaceHeight == 0 then false
    else
      && box.left >= ScaleEdge(g.faceRoi.left, g.frameWidth, g.surfaceWidth)
      && box.right <= ScaleEdge(g.faceRoi.right, g.frameWidth, g.surfaceWidth)
      && box.top >= ScaleEdge(g.faceRoi.top, g.frameHeight, g.surfaceHeight)
      && box.bottom <= ScaleEdge(g.faceRoi.bottom, g.frameHeight, g.surfaceHeight)
  }

  /** `isValid`: a non-empty region and four positive dimensions. */
  predicate IsValid(g: Geometry) {
    && !g.faceRoi.IsEmpty()
    && g.surfaceWidth > 0
    && g.surfaceHeight > 0
    && g.frameWidth > 0
    && g.frameHeight > 0
  }

  /** `hasFaceExpectedRegion`: an unusable geometry lets every face through. */
  predicate HasFaceExpectedRegion(g: Geometry, face: Face) {
    !IsValid(g) || IsFaceInside(g, face.box)
  }

  /** The event the handler sends for one face. */
  function Verdict(g: Geometry, face: Face): FaceState {
    if HasFaceExpectedRegion(g, face) then FaceInsideRegion else FaceOutsideRegion
  }

  /** The events of one `handle` call, built face by face as the `forEach` loop sends them. */
  function RegionEvents(g: Geometry, faces: seq<Face>): (r: seq<Emission>)
    ensures |r| == |faces|
    ensures forall i :: 0 <= i < |faces| ==> r[i] == Event(Verdict(g, faces[i]))
  {
    if faces == [] then []
    else RegionEvents(g, faces[..|faces| - 1]) + [Event(Verdict(g, faces[|faces| - 1]))]
  }

  /** The flag after the `forEach` loop: each face overwrites it when halting is configured. */
  function FlagAfter(flag: bool, halt: bool, g: Geometry, faces: seq<Face>): bool {
    if faces == [] then flag
    else if halt then HasFaceExpectedRegion(g, faces[|faces| - 1])
    else FlagAfter(flag, halt, g, faces[..|faces| - 1])
  }

  /** With halting configured the last face decides the flag; otherwise, and on an empty list, the flag keeps its value. */
  lemma {:induction false} LastFaceDecides(flag: bool, halt: bool, g: Geometry, faces: seq<Face>)
    ensures FlagAfter(flag, halt, g, faces) ==
      if halt && faces != [] then HasFaceExpectedRegion(g, faces[|faces| - 1]) else flag
  {
    if faces != [] && !halt {
      LastFaceDecides(flag, halt, g, faces[..|faces| - 1]);
    }
  }

  /** Fail-open: an invalid geometry reports every face inside and never clears the flag. */
  lemma FailOpen(flag: bool, halt: bool, g: Geometry, faces: seq<Face>)
    requires !IsValid(g)
    ensures forall i :: 0 <= i < |faces| ==> RegionEvents(g, faces)[i] == Event(FaceInsideRegion)
    ensures FlagAfter(flag, halt, g, faces) == (flag || (halt && faces != []))
  {
    LastFaceDecides(flag, halt, g, faces);
  }

  /** A zero dimension makes `isFaceInside` false, and (through `isValid`) the handler report inside. */
  lemma ZeroDimension(g: Geometry, face: Face)
    requires g.surfaceWidth == 0 || g.surfaceHeight == 0 || g.frameWidth == 0 || g.frameHeight == 0
    ensures !IsFaceInside(g, face.box)
    ensures Verdict(g, face) == FaceInsideRegion
  {
  }

  /** Division by a positive divisor never enlarges a non-negative dividend. */
  lemma DivShrinks(p: int, d: int)
    requires 0 <= p && 0 < d
    ensures 0 <= p / d <= p
  {
    var q := p / d;
    assert d * q <= p;
    assert q <= d * q by {
      assert d * q - q == (d - 1) * q;
      assert (d - 1) * q >= 0;
    }
  }

  /** Without overflow, a non-negative edge scales exactly to `edge * frameDim / surfaceDim`. */
  lemma ScaleEdgeExact(edge: Int32, frameDim: Int32, surfaceDim: Int32)
    requires 0 <= edge && 0 < frameDim && 0 < surfaceDim
    requires edge * frameDim <= MAX_INT
    ensures ScaleEdge(edge, frameDim, surfaceDim) == edge * frameDim / surfaceDim
  {
    var p := edge * frameDim;
    assert 0 <= p;
    assert Mul32(edge, frameDim) == p;
    DivShrinks(p, surfaceDim);
    assert Quot(p, surfaceDim) == p / surfaceDim;
  }

  /** The worked example: region (0,0,50,50) on a 100x100 surface scales to (0,0,100,100) in a 200x200 frame. */
  lemma ContainmentExample()
    ensures Verdict(Geometry(Rect(0, 0, 50, 50), 100, 100, 200, 200), Face(Rect(0, 0, 100, 100), None, 0.0, 0.0)) == FaceInsideRegion
    ensures Verdict(Geometry(Rect(0, 0, 50, 50), 100, 100, 200, 200), Face(Rect(0, 0, 101, 101), None, 0.0, 0.0)) == FaceOutsideRegion
  {
    ScaleEdgeExact(50, 200, 100);
  }

  /**
   * The shared region object. The frame analysis writes its fields from
   * outside; the handler only reads them.
   */
  class ExpectedFaceRegion {
    var faceRoi: Rect
    var surfaceWidth: Int32
    var surfaceHeight: Int32
    var frameWidth: Int32
    var frameHeight: Int32

    constructor ()
      ensures Snapshot() == INITIAL_GEOMETRY
    {
      faceRoi := EMPTY_RECT;
      surfaceWidth, surfaceHeight := 0, 0;
      frameWidth, frameHeight := 0, 0;
    }

    function Snapshot(): Geometry
      reads this
    {
      Geometry(faceRoi, surfaceWidth, surfaceHeight, frameWidth, frameHeight)
    }
  }

  class ExpectedFaceRegionHandler {
    const canHandleNextIfInsideRegion: bool
    const expectedFaceRegion: ExpectedFaceRegion
    var nextCanHandle: bool

    constructor (canHandleNextIfInsideRegion: bool, expectedFaceRegion: ExpectedFaceRegion)
      ensures this.canHandleNextIfInsideRegion == canHandleNextIfInsideRegion
      ensures this.expectedFaceRegion == expectedFaceRegion
      ensures nextCanHandle
    {
      this.canHandleNextIfInsideRegion := canHandleNextIfInsideRegion;
      this.expectedFaceRegion := expectedFaceRegion;
      nextCanHandle := true;
    }

    method NextCanHandle() returns (b: bool)
      ensures b == nextCanHandle
    {
      b := nextCanHandle;
    }

    /** One event per face, in list order; the flag follows `FlagAfter`. */
    method Handle(faces: seq<Face>, listener: FaceStateListener)
      modifies this, listener
      ensures nextCanHandle ==
        FlagAfter(old(nextCanHandle), canHandleNextIfInsideRegion, expectedFaceRegion.Snapshot(), faces)
      ensures listener.events == old(listener.events) + RegionEvents(expectedFaceRegion.Snapshot(), faces)
    {
      var g := expectedFaceRegion.Snapshot();
      for i := 0 to |faces|
        invariant nextCanHandle == FlagAfter(old(nextCanHandle), canHandleNextIfInsideRegion, g, faces[..i])
        invariant listener.events == old(listener.events) + RegionEvents(g, faces[..i])
      {
        var insideRegion := HasFaceExpectedRegion(g, faces[i]);
        if insideRegion {
          listener.OnFaceStateEvent(FaceInsideRegion, None);
        } else {
          listener.OnFaceStateEvent(FaceOutsideRegion, None);
        }
        if canHandleNextIfInsideRegion {
          nextCanHandle := insideRegion;
        }
        assert faces[..i + 1][..i] == faces[..i];
      }
      assert faces[..|faces|] == faces;
    }
  }

}
