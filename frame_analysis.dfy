/**
 * `FaceFrameAnalysis` and `LivenessFrameAnalysis`: the camera's frame
 * processor. For every preview frame it stores the frame size, in portrait
 * order, in the shared `ExpectedFaceRegion`, wraps the frame as a detector
 * input with the rotation compensation, and hands the detector's answer to
 * the face processor. The liveness variant builds the processor with a
 * halting region gate on that same region object, a halting count gate and
 * the Euler handler.
 *
 * The detector is not modelled: its answer for the frame is a parameter of
 * `Process`.
 */
module FrameAnalysis {

  import opened KotlinInt
  import opened Vision
  import opened Listeners
  import Region
  import EulerMovement
  import opened Processor

  /** The size of a preview frame, in pixels. */
  datatype Resolution = Resolution(width: Int32, height: Int32) {

    /** `flipDimensions()`: width and height swapped. */
    function FlipDimensions(): Resolution {
      Resolution(height, width)
    }
  }

  /** A preview frame: its size and its rotation in degrees. The NV21 bytes are not modelled. */
  datatype Frame = Frame(size: Resolution, rotation: Int32)

  /** `InputImage.IMAGE_FORMAT_NV21`, which is Android's `ImageFormat.NV21`. */
  const IMAGE_FORMAT_NV21: int := 17

  /** What `InputImage.fromByteArray` is given for a frame, less the bytes. */
  datatype InputImage = InputImage(width: Int32, height: Int32, rotationDegrees: Int32, format: int)

  /**
   * The frame size as `updateExpectedFaceRegion` stores it: never wider
   * than tall, the same two sides, and unchanged when already portrait.
   */
  function PortraitSize(size: Resolution): (r: Resolution)
    ensures r.width <= r.height
    ensures multiset{r.width, r.height} == multiset{size.width, size.height}
    ensures size.width <= size.height ==> r == size
  {
    if size.width > size.height then size.FlipDimensions() else size
  }

  /** Turning a frame to portrait twice is turning it once. */
  lemma PortraitIdempotent(size: Resolution)
    ensures PortraitSize(PortraitSize(size)) == PortraitSize(size)
  {
  }

  /**
   * `Int.getRotationCompensation()`, `(360 - this) % 360` in Kotlin `Int`
   * arithmetic: it undoes the rotation modulo a full turn, and for a
   * rotation between 0 and 360 degrees it is itself between 0 and 359.
   */
  function RotationCompensation(rotation: Int32): (r: Int32)
    ensures -360 < r < 360
    ensures rotation >= 360 - MAX_INT ==> (rotation + r) % 360 == 0
    ensures 0 <= rotation <= 360 ==> 0 <= r
  {
    Rem(Wrap(360 - rotation), 360)
  }

  /** The four rotations a camera reports: 0 stays 0, and 90, 180 and 270 become the rest of the turn. */
  lemma CameraRotations(rotation: Int32)
    requires rotation == 0 || rotation == 90 || rotation == 180 || rotation == 270
    ensures RotationCompensation(rotation) == if rotation == 0 then 0 else 360 - rotation
  {
    CompensationInTurn(rotation);
  }

  /** For a rotation within one turn the compensation is the rest of the turn, as a non-negative remainder. */
  lemma CompensationInTurn(rotation: Int32)
    requires 0 <= rotation <= 360
    ensures RotationCompensation(rotation) == (360 - rotation) % 360
  {
    assert Wrap(360 - rotation) == 360 - rotation;
    assert Rem(360 - rotation, 360) == 360 - rotation - 360 * Quot(360 - rotation, 360);
  }

  /** A handler's state once the shared region `region` holds the frame size `size`. */
  function Reframed(hm: HandlerModel, region: Region.ExpectedFaceRegion, size: Resolution): HandlerModel {
    if hm.RegionModel? && hm.source == region then
      hm.(geometry := hm.geometry.(frameWidth := size.width, frameHeight := size.height))
    else hm
  }

  /** The chain's states once `region` holds the frame size `size`. */
  function ReframedAll(ms: seq<HandlerModel>, region: Region.ExpectedFaceRegion, size: Resolution): (r: seq<HandlerModel>)
    ensures |r| == |ms| && forall j :: 0 <= j < |ms| ==> r[j] == Reframed(ms[j], region, size)
  {
    seq(|ms|, j requires 0 <= j < |ms| => Reframed(ms[j], region, size))
  }

  /** Storing a frame size changes no handler's flag or configuration, only what a region gate on that region reads. */
  lemma ReframedKeepsHandler(hm: HandlerModel, region: Region.ExpectedFaceRegion, size: Resolution)
    ensures SameHandler(hm, Reframed(hm, region, size)) || (hm.source == region && hm.RegionModel?)
    ensures Flag(Reframed(hm, region, size)) == Flag(hm)
    ensures hm.RegionModel? && hm.source == region ==>
      Reframed(hm, region, size).geometry.frameWidth == size.width
      && Reframed(hm, region, size).geometry.frameHeight == size.height
      && Reframed(hm, region, size).geometry.faceRoi == hm.geometry.faceRoi
  {
  }

  /**
   * `FaceFrameAnalysis`, and `LivenessFrameAnalysis` through its named
   * constructor. The processor is built when the analysis is created.
   */
  class FaceFrameAnalysis {
    const listener: FaceStateListener
    const expectedFaceRegion: Region.ExpectedFaceRegion
    const faceProcessor: FaceProcessor

    ghost predicate Valid() {
      faceProcessor.Valid()
    }

    /** `FaceFrameAnalysis(listener, expectedFaceRegion)`: `buildFaceProcessor` builds from the shared builder as it stands. */
    constructor (listener: FaceStateListener, expectedFaceRegion: Region.ExpectedFaceRegion, builder: FaceProcessorBuilder)
      requires builder.Valid()
      ensures Valid() && fresh(faceProcessor)
      ensures this.listener == listener && this.expectedFaceRegion == expectedFaceRegion
      ensures faceProcessor.handlers == builder.handlers && faceProcessor.trackingEnabled == builder.trackingEnabled
    {
      this.listener := listener;
      this.expectedFaceRegion := expectedFaceRegion;
      var p := builder.Build();
      faceProcessor := p;
    }

    /**
     * `LivenessFrameAnalysis(listener, pointListener, expectedFaceRegion)`:
     * the builder gains a halting region gate on this analysis's own region
     * object, a halting count gate and the Euler handler, in that order, and
     * the processor runs every handler the builder holds.
     */
    constructor Liveness(listener: FaceStateListener, pointListener: FacePointListener?,
                         expectedFaceRegion: Region.ExpectedFaceRegion, builder: FaceProcessorBuilder,
                         shuffled: seq<EulerMovement.HeadMovement>)
      requires builder.Valid() && EulerMovement.IsShuffle(shuffled)
      modifies builder
      ensures Valid() && fresh(faceProcessor)
      ensures this.listener == listener && this.expectedFaceRegion == expectedFaceRegion
      ensures faceProcessor.handlers == builder.handlers && faceProcessor.trackingEnabled
      ensures |faceProcessor.handlers| == |old(builder.handlers)| + 3
      ensures faceProcessor.handlers[..|old(builder.handlers)|] == old(builder.handlers)
      ensures ModelsOf(faceProcessor.handlers[|old(builder.handlers)|..]) ==
        LivenessChain(true, true, expectedFaceRegion, expectedFaceRegion.Snapshot(),
                      EulerMovement.InitialModel(shuffled), pointListener)
      ensures var c := faceProcessor.handlers[|old(builder.handlers)| + 1];
        c.CountGate? && c.count.facePointListener == pointListener
    {
      this.listener := listener;
      this.expectedFaceRegion := expectedFaceRegion;
      ghost var n := |builder.handlers|;
      var r := builder.ExpectedFaceRegion(expectedFaceRegion, true);
      var c := builder.FacesCount(true, pointListener);
      var e := builder.EulerMovementHandler(shuffled, pointListener);
      var p := builder.Build();
      faceProcessor := p;
      assert p.handlers[n..] == [RegionGate(r), CountGate(c), Movement(e)];
    }

    /** `getExpectedFaceRegion()`: the region object the handlers share. */
    function GetExpectedFaceRegion(): Region.ExpectedFaceRegion {
      expectedFaceRegion
    }

    /** `setExpectedFaceRegion`: the on-screen region and the surface size; the frame size is left alone. */
    method SetExpectedFaceRegion(faceRoi: Rect, surfaceWidth: Int32, surfaceHeight: Int32)
      modifies expectedFaceRegion
      ensures expectedFaceRegion.Snapshot() ==
        old(expectedFaceRegion.Snapshot()).(faceRoi := faceRoi, surfaceWidth := surfaceWidth, surfaceHeight := surfaceHeight)
    {
      expectedFaceRegion.faceRoi := faceRoi;
      expectedFaceRegion.surfaceWidth := surfaceWidth;
      expectedFaceRegion.surfaceHeight := surfaceHeight;
    }

    /**
     * `process(frame)`: the region takes the frame size in portrait order,
     * the image carries the frame's own size and the rotation compensation,
     * and the processor then handles the detector's answer `result` with
     * every region gate on this region seeing the new frame size.
     */
    method Process(frame: Frame, result: DetectorResult) returns (image: InputImage)
      requires Valid()
      modifies expectedFaceRegion, ChainWrites(faceProcessor.handlers), listener, ChainSinks(faceProcessor.handlers)
      ensures image == InputImage(frame.size.width, frame.size.height, RotationCompensation(frame.rotation), IMAGE_FORMAT_NV21)
      ensures expectedFaceRegion.Snapshot() == old(expectedFaceRegion.Snapshot()).(
        frameWidth := PortraitSize(frame.size).width, frameHeight := PortraitSize(frame.size).height)
      ensures var ms := ReframedAll(old(faceProcessor.Models()), expectedFaceRegion, PortraitSize(frame.size));
        && faceProcessor.Models() == Outcome(ms, result).models
        && listener.events == old(listener.events) + Outcome(ms, result).events
        && SinkLogs(faceProcessor.handlers) ==
             Deliver(faceProcessor.handlers, old(SinkLogs(faceProcessor.handlers)), Outcome(ms, result).published)
    {
      UpdateExpectedFaceRegion(frame);
      image := InputImage(frame.size.width, frame.size.height, RotationCompensation(frame.rotation), IMAGE_FORMAT_NV21);
      RegionApart(faceProcessor.handlers, expectedFaceRegion);
      faceProcessor.Process(result, listener);
    }

    /** `updateExpectedFaceRegion(frame)`: only the region's frame size changes. */
    method UpdateExpectedFaceRegion(frame: Frame)
      requires Valid()
      modifies expectedFaceRegion
      ensures expectedFaceRegion.Snapshot() == old(expectedFaceRegion.Snapshot()).(
        frameWidth := PortraitSize(frame.size).width, frameHeight := PortraitSize(frame.size).height)
      ensures faceProcessor.Models() == ReframedAll(old(faceProcessor.Models()), expectedFaceRegion, PortraitSize(frame.size))
      ensures SinkLogs(faceProcessor.handlers) == old(SinkLogs(faceProcessor.handlers))
    {
      var hs := faceProcessor.handlers;
      ghost var om := faceProcessor.Models();
      ghost var os := SinkLogs(hs);
      var frameSize := frame.size;
      if frameSize.width > frameSize.height {
        frameSize := frameSize.FlipDimensions();
      }
      StoreFrameSize(frameSize);
      faceProcessor.KeptModels(ReframedAll(om, expectedFaceRegion, frameSize));
      faceProcessor.CollectLogs([], os);
    }

    /** The two field writes of `updateExpectedFaceRegion`, handler by handler. */
    method StoreFrameSize(size: Resolution)
      modifies expectedFaceRegion
      ensures expectedFaceRegion.Snapshot() ==
        old(expectedFaceRegion.Snapshot()).(frameWidth := size.width, frameHeight := size.height)
      ensures forall j :: 0 <= j < |faceProcessor.handlers| ==>
        ModelOf(faceProcessor.handlers[j]) == Reframed(old(ModelOf(faceProcessor.handlers[j])), expectedFaceRegion, size)
      ensures forall j :: 0 <= j < |faceProcessor.handlers| && SinkOf(faceProcessor.handlers[j]) != null ==>
        SinkOf(faceProcessor.handlers[j]).updates == old(SinkOf(faceProcessor.handlers[j]).updates)
    {
      expectedFaceRegion.frameWidth := size.width;
      expectedFaceRegion.frameHeight := size.height;
      var hs := faceProcessor.handlers;
      forall j | 0 <= j < |hs|
        ensures ModelOf(hs[j]) == Reframed(old(ModelOf(hs[j])), expectedFaceRegion, size)
      {
        RegionOutside(hs[j], expectedFaceRegion);
      }
    }
  }

  /** The region object is none of the objects a handler writes, and a region gate on another region does not read it. */
  lemma RegionOutside(h: FaceHandler, region: Region.ExpectedFaceRegion)
    ensures region !in Writes(h)
    ensures !(h.RegionGate? && h.region.expectedFaceRegion == region) ==> region !in Reads(h)
  {
  }

  /** No handler of the chain writes the region object. */
  lemma RegionApart(hs: seq<FaceHandler>, region: Region.ExpectedFaceRegion)
    ensures region !in ChainWrites(hs)
  {
  }
}
