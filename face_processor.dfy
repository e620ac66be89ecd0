/**
 * `FaceProcessor`: runs the configured handlers, in order, on every
 * detector result, and stops for that frame as soon as a handler's
 * "next can handle" flag reads false after its `handle`. Its companion
 * object is the builder that collects handlers in one insertion-ordered set
 * shared by every build.
 *
 * Kotlin dispatches through the `FaceHandler` interface; here `FaceHandler`
 * is a datatype with one case per handler class. The chain is specified by
 * `RunPrefix`/`RunChain` over `HandlerModel`s, the abstract state of each
 * handler, and `FaceProcessor.Process` is proved against it.
 */
module Processor {

  import opened Wrappers
  import opened Vision
  import opened FaceStates
  import opened Listeners
  import BaseHandler
  import Region
  import FaceCount
  import EulerMovement

  /** A handler in the chain. */
  datatype FaceHandler =
    | RegionGate(region: Region.ExpectedFaceRegionHandler)
    | CountGate(count: FaceCount.NumberFaceHandler)
    | Movement(euler: EulerMovement.EulerMovementFaceHandler)
    | Default(base: BaseHandler.BaseFaceHandler)

  /**
   * What a handler holds: its flag, its halting configuration and what its
   * `handle` reads. A region gate reads the current fields of its shared
   * region object, which is kept by reference in `source`.
   */
  datatype HandlerModel =
    | RegionModel(flag: bool, halt: bool, source: Region.ExpectedFaceRegion, geometry: Region.Geometry)
    | CountModel(flag: bool, halt: bool)
    | EulerModelOf(euler: EulerMovement.EulerModel, sink: FacePointListener?)
    | BaseModel(flag: bool)

  /** What `nextCanHandle()` returns for a handler in this state. */
  function Flag(hm: HandlerModel): bool {
    match hm
    case RegionModel(flag, _, _, _) => flag
    case CountModel(flag, _) => flag
    case EulerModelOf(e, _) => e.nextCanHandle
    case BaseModel(flag) => flag
  }

  /** One list of support points sent to one point listener. */
  datatype Publication = Publication(sink: FacePointListener, points: seq<Point>)

  /** The point lists of one handler call, addressed to its point listener. */
  function Publications(sink: FacePointListener?, points: seq<seq<Point>>): (r: seq<Publication>)
    ensures sink == null ==> r == []
    ensures sink != null ==> |r| == |points| && forall i :: 0 <= i < |r| ==> r[i] == Publication(sink, points[i])
  {
    if sink == null || points == [] then []
    else [Publication(sink, points[0])] + Publications(sink, points[1..])
  }

  /** The point lists, in order, that `p` receives from `pubs`. */
  function PointsFor(p: FacePointListener, pubs: seq<Publication>): seq<seq<Point>> {
    if pubs == [] then []
    else (if pubs[0].sink == p then [pubs[0].points] else []) + PointsFor(p, pubs[1..])
  }

  lemma {:induction false} PointsForAppend(p: FacePointListener, a: seq<Publication>, b: seq<Publication>)
    ensures PointsFor(p, a + b) == PointsFor(p, a) + PointsFor(p, b)
  {
    if a == [] {
      assert a + b == b;
    } else {
      var x := if a[0].sink == p then [a[0].points] else [];
      assert PointsFor(p, a) == x + PointsFor(p, a[1..]);
      assert (a + b)[0] == a[0] && (a + b)[1..] == a[1..] + b;
      assert PointsFor(p, a + b) == x + PointsFor(p, a[1..] + b);
      PointsForAppend(p, a[1..], b);
      AppendAssoc(x, PointsFor(p, a[1..]), PointsFor(p, b));
    }
  }

  /** A point listener receives exactly the lists addressed to it. */
  lemma {:induction false} PointsForPublications(p: FacePointListener, sink: FacePointListener?, points: seq<seq<Point>>)
    ensures PointsFor(p, Publications(sink, points)) == if sink == p then points else []
  {
    if sink != null && points != [] {
      PointsForPublications(p, sink, points[1..]);
      assert [points[0]] + points[1..] == points;
    }
  }

  /** The result of one `handle` call. */
  datatype StepOutcome = StepOutcome(model: HandlerModel, events: seq<Emission>, published: seq<Publication>)

  /** One `handle` call, by the handler's own specification. */
  function Step(hm: HandlerModel, faces: seq<Face>): StepOutcome {
    match hm
    case RegionModel(flag, halt, source, g) =>
      StepOutcome(hm.(flag := Region.FlagAfter(flag, halt, g, faces)), Region.RegionEvents(g, faces), [])
    case CountModel(flag, halt) =>
      StepOutcome(hm.(flag := FaceCount.FlagAfter(flag, halt, faces)), [Event(FaceCount.Classify(faces))], [])
    case EulerModelOf(e, sink) =>
      var o := EulerMovement.EulerStep(e, faces);
      StepOutcome(hm.(euler := o.model), o.events, Publications(sink, o.points))
    case BaseModel(_) => StepOutcome(hm, [], [])
  }

  /** Every handler's `handle` on the faces of one frame. */
  function StepOn(faces: seq<Face>): HandlerModel -> StepOutcome {
    hm => Step(hm, faces)
  }

  /** Only an Euler handler publishes points, and only to its own point listener. */
  lemma StepPointsFor(q: FacePointListener, hm: HandlerModel, faces: seq<Face>)
    ensures PointsFor(q, Step(hm, faces).published) ==
      if hm.EulerModelOf? && hm.sink == q then EulerMovement.EulerStep(hm.euler, faces).points else []
  {
    if hm.EulerModelOf? {
      PointsForPublications(q, hm.sink, EulerMovement.EulerStep(hm.euler, faces).points);
    }
  }

  /** A step keeps the handler's kind, configuration and references. */
  predicate SameHandler(a: HandlerModel, b: HandlerModel) {
    match a
    case RegionModel(_, halt, source, g) => b.RegionModel? && b.halt == halt && b.source == source && b.geometry == g
    case CountModel(_, halt) => b.CountModel? && b.halt == halt
    case EulerModelOf(_, sink) => b.EulerModelOf? && b.sink == sink
    case BaseModel(_) => b.BaseModel?
  }

  lemma StepKeepsHandler(hm: HandlerModel, faces: seq<Face>)
    ensures SameHandler(hm, Step(hm, faces).model)
    ensures hm.BaseModel? ==> Step(hm, faces) == StepOutcome(hm, [], [])
  {
  }

  /**
   * The chain after its first `n` handlers have had their turn: the models,
   * the events and point lists sent so far, how many handlers ran, and
   * whether a cleared flag stopped the chain.
   */
  datatype ChainOutcome = ChainOutcome(
    models: seq<HandlerModel>,
    events: seq<Emission>,
    published: seq<Publication>,
    ran: nat,
    stopped: bool)

  /** The `forEach` over the first `n` handlers, with its `return@addOnSuccessListener`. */
  function RunPrefix(ms: seq<HandlerModel>, step: HandlerModel -> StepOutcome, n: nat): (r: ChainOutcome)
    requires n <= |ms|
    ensures |r.models| == |ms|
    ensures r.ran <= n && (r.stopped || r.ran == n)
  {
    if n == 0 then ChainOutcome(ms, [], [], 0, false)
    else
      var p := RunPrefix(ms, step, n - 1);
      if p.stopped then p
      else
        var s := step(p.models[n - 1]);
        ChainOutcome(p.models[n - 1 := s.model], p.events + s.events, p.published + s.published,
                     p.ran + 1, !Flag(s.model))
  }

  /** One more handler: it runs, from its state before the frame, unless the chain has stopped. */
  lemma RunPrefixNext(ms: seq<HandlerModel>, step: HandlerModel -> StepOutcome, n: nat)
    requires n < |ms|
    ensures var p := RunPrefix(ms, step, n);
      var s := step(ms[n]);
      RunPrefix(ms, step, n + 1) ==
        if p.stopped then p
        else ChainOutcome(p.models[n := s.model], p.events + s.events, p.published + s.published, n + 1, !Flag(s.model))
  {
    PrefixUntouched(ms, step, n);
  }

  /** The whole success path of `process`. */
  function RunChain(ms: seq<HandlerModel>, step: HandlerModel -> StepOutcome): ChainOutcome {
    RunPrefix(ms, step, |ms|)
  }

  /** Once the chain has stopped, the remaining handlers change nothing. */
  lemma {:induction false} StoppedIsFinal(ms: seq<HandlerModel>, step: HandlerModel -> StepOutcome, k: nat, n: nat)
    requires k <= n <= |ms|
    requires RunPrefix(ms, step, k).stopped
    ensures RunPrefix(ms, step, n) == RunPrefix(ms, step, k)
    decreases n
  {
    if n > k {
      StoppedIsFinal(ms, step, k, n - 1);
    }
  }

  /** The handlers after the last one that ran are untouched. */
  lemma {:induction false} PrefixUntouched(ms: seq<HandlerModel>, step: HandlerModel -> StepOutcome, n: nat)
    requires n <= |ms|
    ensures var r := RunPrefix(ms, step, n);
      forall j :: r.ran <= j < |ms| ==> r.models[j] == ms[j]
    decreases n
  {
    if n > 0 {
      PrefixUntouched(ms, step, n - 1);
    }
  }

  /** Each handler that ran was stepped once from its state before the frame. */
  lemma {:induction false} PrefixStepped(ms: seq<HandlerModel>, step: HandlerModel -> StepOutcome, n: nat)
    requires n <= |ms|
    ensures var r := RunPrefix(ms, step, n);
      forall j :: 0 <= j < r.ran ==> r.models[j] == step(ms[j]).model
    decreases n
  {
    if n > 0 {
      var p := RunPrefix(ms, step, n - 1);
      PrefixStepped(ms, step, n - 1);
      if !p.stopped {
        PrefixUntouched(ms, step, n - 1);
        assert p.models[n - 1] == ms[n - 1];
      }
    }
  }

  /**
   * The chain goes on past a handler exactly when its flag reads set after
   * its `handle`: every handler before the last that ran left its flag set,
   * and the chain stopped exactly when the last one cleared it.
   */
  lemma {:induction false} PrefixFlags(ms: seq<HandlerModel>, step: HandlerModel -> StepOutcome, n: nat)
    requires n <= |ms|
    ensures var r := RunPrefix(ms, step, n);
      && (forall j :: 0 <= j < r.ran - 1 ==> Flag(r.models[j]))
      && (r.stopped <==> r.ran > 0 && !Flag(r.models[r.ran - 1]))
    decreases n
  {
    if n > 0 {
      PrefixFlags(ms, step, n - 1);
    }
  }

  /** The first handler always runs, whatever its flag was before the frame, and its events come first. */
  lemma FirstAlwaysRuns(ms: seq<HandlerModel>, step: HandlerModel -> StepOutcome)
    requires ms != []
    ensures var r := RunChain(ms, step);
      r.ran >= 1 && r.models[0] == step(ms[0]).model
      && step(ms[0]).events <= r.events
  {
    PrefixStepped(ms, step, |ms|);
    PrefixFlags(ms, step, |ms|);
    RunPrefixNext(ms, step, 0);
    PrefixGrows(ms, step, 1, |ms|);
    assert RunPrefix(ms, step, 1).events == [] + step(ms[0]).events;
  }

  /** A later turn only adds events: what the first `k` handlers sent is a prefix of what the first `n` sent. */
  lemma {:induction false} PrefixGrows(ms: seq<HandlerModel>, step: HandlerModel -> StepOutcome, k: nat, n: nat)
    requires k <= n <= |ms|
    ensures RunPrefix(ms, step, k).events <= RunPrefix(ms, step, n).events
    decreases n
  {
    if k < n {
      PrefixGrows(ms, step, k, n - 1);
      RunPrefixNext(ms, step, n - 1);
      var p := RunPrefix(ms, step, n - 1);
      if !p.stopped {
        PrefixExtends(RunPrefix(ms, step, k).events, p.events, step(ms[n - 1]).events);
      }
    }
  }

  lemma PrefixExtends<T>(a: seq<T>, b: seq<T>, c: seq<T>)
    requires a <= b
    ensures a <= b + c
  {
    assert (b + c)[..|a|] == b[..|a|];
  }

  /**
   * A handler whose flag is already cleared still runs: the flag is read
   * after `handle`, so only the new value decides. A chain of handlers that
   * all keep their flag set runs to the end.
   */
  lemma FlagReadAfterHandle(ms: seq<HandlerModel>, step: HandlerModel -> StepOutcome)
    requires forall j :: 0 <= j < |ms| ==> Flag(step(ms[j]).model)
    ensures RunChain(ms, step).ran == |ms| && !RunChain(ms, step).stopped
  {
    PrefixStepped(ms, step, |ms|);
    PrefixFlags(ms, step, |ms|);
  }

  /** What `process` does with one detector result. */
  function Outcome(ms: seq<HandlerModel>, result: DetectorResult): (r: ChainOutcome)
    ensures result.Failed? ==> r == ChainOutcome(ms, [Emission(Error, result.message)], [], 0, false)
  {
    match result
    case Detected(faces) => RunChain(ms, StepOn(faces))
    case Failed(message) => ChainOutcome(ms, [Emission(Error, message)], [], 0, false)
  }

  /** The liveness chain: region gate and count gate, both halting, then the Euler handler. */
  function LivenessChain(fr: bool, fc: bool, source: Region.ExpectedFaceRegion, g: Region.Geometry,
                         e: EulerMovement.EulerModel, sink: FacePointListener?): seq<HandlerModel> {
    [RegionModel(fr, true, source, g), CountModel(fc, true), EulerModelOf(e, sink)]
  }

  /** Whether the region gate lets the frame through: the last face decides; an empty list keeps the flag of an earlier frame. */
  predicate RegionLetsThrough(fr: bool, g: Region.Geometry, faces: seq<Face>) {
    if faces == [] then fr else Region.HasFaceExpectedRegion(g, faces[|faces| - 1])
  }

  /** The first two turns of the liveness chain. */
  lemma GateTurns(fr: bool, fc: bool, source: Region.ExpectedFaceRegion, g: Region.Geometry,
                  e: EulerMovement.EulerModel, sink: FacePointListener?, faces: seq<Face>)
    ensures var ms := LivenessChain(fr, fc, source, g, e, sink);
      var r1 := RunPrefix(ms, StepOn(faces), 1);
      var r2 := RunPrefix(ms, StepOn(faces), 2);
      && r1.events == Region.RegionEvents(g, faces)
      && (r1.stopped <==> !RegionLetsThrough(fr, g, faces))
      && (!r1.stopped ==> r2.events == r1.events + [Event(FaceCount.Classify(faces))] && r2.ran == 2
                          && (r2.stopped <==> FaceCount.Classify(faces) != FaceDetected))
      && r2.models[2] == EulerModelOf(e, sink)
  {
    var ms := LivenessChain(fr, fc, source, g, e, sink);
    Region.LastFaceDecides(fr, true, g, faces);
    RunPrefixNext(ms, StepOn(faces), 0);
    RunPrefixNext(ms, StepOn(faces), 1);
    PrefixUntouched(ms, StepOn(faces), 2);
  }

  /**
   * In the liveness chain the count gate runs when the region gate lets the
   * frame through, and the Euler handler sees the frame exactly when the
   * faces are non-empty, the last lies in the region (or the region is
   * unusable) and all share one tracking id. Otherwise the Euler handler is
   * untouched.
   */
  lemma LivenessGates(fr: bool, fc: bool, source: Region.ExpectedFaceRegion, g: Region.Geometry,
                      e: EulerMovement.EulerModel, sink: FacePointListener?, faces: seq<Face>)
    ensures var r := RunChain(LivenessChain(fr, fc, source, g, e, sink), StepOn(faces));
      && (r.ran >= 2 <==> RegionLetsThrough(fr, g, faces))
      && (r.ran == 3 <==> faces != [] && RegionLetsThrough(fr, g, faces) && FaceCount.SharesOneId(faces))
      && r.models[2] == (if r.ran == 3 then EulerModelOf(EulerMovement.EulerStep(e, faces).model, sink)
                         else EulerModelOf(e, sink))
  {
    var ms := LivenessChain(fr, fc, source, g, e, sink);
    GateTurns(fr, fc, source, g, e, sink, faces);
    RunPrefixNext(ms, StepOn(faces), 2);
  }

  /** The events of one frame through the liveness chain: the region verdicts, the count, then the Euler handler's. */
  lemma LivenessEvents(fr: bool, fc: bool, source: Region.ExpectedFaceRegion, g: Region.Geometry,
                       e: EulerMovement.EulerModel, sink: FacePointListener?, faces: seq<Face>)
    ensures var r := RunChain(LivenessChain(fr, fc, source, g, e, sink), StepOn(faces));
      r.events ==
        Region.RegionEvents(g, faces)
        + (if RegionLetsThrough(fr, g, faces) then [Event(FaceCount.Classify(faces))] else [])
        + (if r.ran == 3 then EulerMovement.EulerStep(e, faces).events else [])
  {
    var ms := LivenessChain(fr, fc, source, g, e, sink);
    GateTurns(fr, fc, source, g, e, sink, faces);
    RunPrefixNext(ms, StepOn(faces), 2);
  }

  /** The objects a handler's `handle` writes. */
  function Writes(h: FaceHandler): set<object> {
    match h
    case RegionGate(r) => {r}
    case CountGate(c) => {c}
    case Movement(e) => {e, e.headMovement}
    case Default(b) => {b}
  }

  /** The objects a handler's state depends on: what it writes, and a region gate's shared region. */
  function Reads(h: FaceHandler): set<object> {
    match h
    case RegionGate(r) => {r, r.expectedFaceRegion}
    case _ => Writes(h)
  }

  /** The point listener a handler's `handle` sends to, if any. */
  function SinkOf(h: FaceHandler): FacePointListener? {
    match h
    case Movement(e) => e.supportPointListener
    case _ => null
  }

  function ChainWrites(hs: seq<FaceHandler>): set<object> {
    set i, o | 0 <= i < |hs| && o in Writes(hs[i]) :: o
  }

  function ChainReads(hs: seq<FaceHandler>): set<object> {
    set i, o | 0 <= i < |hs| && o in Reads(hs[i]) :: o
  }

  function ChainSinks(hs: seq<FaceHandler>): set<FacePointListener> {
    set i | 0 <= i < |hs| && SinkOf(hs[i]) != null :: SinkOf(hs[i])
  }

  /** What each handler's point listener has received so far (empty for a handler without one). */
  ghost function SinkLogs(hs: seq<FaceHandler>): (r: seq<seq<seq<Point>>>)
    reads ChainSinks(hs)
    ensures |r| == |hs|
    ensures forall j :: 0 <= j < |hs| ==> r[j] == if SinkOf(hs[j]) != null then SinkOf(hs[j]).updates else []
  {
    if hs == [] then []
    else
      assert forall j :: 0 <= j < |hs| - 1 ==> hs[1..][j] == hs[j + 1];
      [if SinkOf(hs[0]) != null then SinkOf(hs[0]).updates else []] + SinkLogs(hs[1..])
  }

  /** One log after the publications `pubs` are delivered: only a handler with a point listener receives any. */
  function DeliverOne(h: FaceHandler, log: seq<seq<Point>>, pubs: seq<Publication>): seq<seq<Point>> {
    if SinkOf(h) != null then log + PointsFor(SinkOf(h), pubs) else log
  }

  /** The point listeners' logs `logs` after the publications `pubs` are delivered. */
  function Deliver(hs: seq<FaceHandler>, logs: seq<seq<seq<Point>>>, pubs: seq<Publication>): (r: seq<seq<seq<Point>>>)
    requires |logs| == |hs|
    ensures |r| == |hs| && forall j :: 0 <= j < |hs| ==> r[j] == DeliverOne(hs[j], logs[j], pubs)
  {
    seq(|hs|, j requires 0 <= j < |hs| => DeliverOne(hs[j], logs[j], pubs))
  }

  /** Delivering nothing changes no log. */
  lemma DeliverNothing(hs: seq<FaceHandler>, logs: seq<seq<seq<Point>>>)
    requires |logs| == |hs|
    ensures Deliver(hs, logs, []) == logs
  {
    forall j | 0 <= j < |hs| && SinkOf(hs[j]) != null
      ensures Deliver(hs, logs, [])[j] == logs[j]
    {
      assert PointsFor(SinkOf(hs[j]), []) == [];
    }
  }

  /** Delivering `a` and then `b` is delivering `a + b`. */
  lemma DeliverAppend(hs: seq<FaceHandler>, logs: seq<seq<seq<Point>>>, a: seq<Publication>, b: seq<Publication>)
    requires |logs| == |hs|
    ensures Deliver(hs, Deliver(hs, logs, a), b) == Deliver(hs, logs, a + b)
  {
    forall j | 0 <= j < |hs| && SinkOf(hs[j]) != null
      ensures Deliver(hs, Deliver(hs, logs, a), b)[j] == Deliver(hs, logs, a + b)[j]
    {
      var q := SinkOf(hs[j]);
      PointsForAppend(q, a, b);
      AppendAssoc(logs[j], PointsFor(q, a), PointsFor(q, b));
    }
  }

  lemma AppendAssoc<T>(x: seq<T>, y: seq<T>, z: seq<T>)
    ensures (x + y) + z == x + (y + z)
  {
  }

  /** What one handler writes and sends to is part of what the chain writes and sends to. */
  lemma InChain(hs: seq<FaceHandler>, i: nat)
    requires i < |hs|
    ensures Writes(hs[i]) <= ChainWrites(hs)
    ensures SinkOf(hs[i]) != null ==> SinkOf(hs[i]) in ChainSinks(hs)
  {
  }

  /** No two handlers of the chain share an object they write. */
  ghost predicate ChainValid(hs: seq<FaceHandler>) {
    forall i, j :: 0 <= i < j < |hs| ==> Writes(hs[i]) !! Writes(hs[j])
  }

  /** What one handler's `handle` may write is apart from what every other handler's state depends on. */
  lemma FrameApart(hs: seq<FaceHandler>, i: nat, j: nat, listener: FaceStateListener)
    requires ChainValid(hs) && i < |hs| && j < |hs| && i != j
    ensures Reads(hs[j]) !! Writes(hs[i]) + {listener} + Frame(SinkOf(hs[i]))
  {
    if i < j {
      assert Writes(hs[i]) !! Writes(hs[j]);
    } else {
      assert Writes(hs[j]) !! Writes(hs[i]);
    }
  }

  /** A point listener is never among the objects a handler writes. */
  lemma SinkNotWritten(q: FacePointListener, h: FaceHandler)
    ensures q !in Writes(h)
  {
  }

  /** The abstract state of one handler. */
  ghost function ModelOf(h: FaceHandler): HandlerModel
    reads Reads(h)
  {
    match h
    case RegionGate(r) =>
      RegionModel(r.nextCanHandle, r.canHandleNextIfInsideRegion, r.expectedFaceRegion, r.expectedFaceRegion.Snapshot())
    case CountGate(c) => CountModel(c.nextCanHandle, c.canHandleNextOnlyWithOneFace)
    case Movement(e) => EulerModelOf(e.Model(), e.supportPointListener)
    case Default(b) => BaseModel(b.nextCanHandle)
  }

  /** The abstract state of the chain. */
  ghost function ModelsOf(hs: seq<FaceHandler>): (r: seq<HandlerModel>)
    reads ChainReads(hs)
    ensures |r| == |hs| && forall i :: 0 <= i < |hs| ==> r[i] == ModelOf(hs[i])
  {
    if hs == [] then []
    else
      assert forall i :: 0 <= i < |hs| - 1 ==> hs[1..][i] == hs[i + 1];
      [ModelOf(hs[0])] + ModelsOf(hs[1..])
  }

  /** `handler.handle(faces, listener)`, dispatched on the handler's class. */
  method HandleOne(h: FaceHandler, faces: seq<Face>, listener: FaceStateListener)
    modifies Writes(h), listener, Frame(SinkOf(h))
    ensures ModelOf(h) == Step(old(ModelOf(h)), faces).model
    ensures listener.events == old(listener.events) + Step(old(ModelOf(h)), faces).events
    ensures SinkOf(h) != null ==>
      SinkOf(h).updates == old(SinkOf(h).updates) + PointsFor(SinkOf(h), Step(old(ModelOf(h)), faces).published)
  {
    match h
    case RegionGate(r) => r.Handle(faces, listener);
    case CountGate(c) => c.Handle(faces, listener);
    case Movement(e) =>
      ghost var m := e.Model();
      e.Handle(faces, listener);
      if e.supportPointListener != null {
        PointsForPublications(e.supportPointListener, e.supportPointListener, EulerMovement.EulerStep(m, faces).points);
      }
    case Default(b) => b.Handle(faces, listener);
  }

  /** `handler.nextCanHandle()`, dispatched on the handler's class: it reads the flag and changes nothing. */
  function FlagOf(h: FaceHandler): (b: bool)
    reads Reads(h)
    ensures b == Flag(ModelOf(h))
  {
    match h
    case RegionGate(r) => r.nextCanHandle
    case CountGate(c) => c.nextCanHandle
    case Movement(e) => e.nextCanHandle
    case Default(d) => d.nextCanHandle
  }

  /**
   * The chain's state after the first `i` turns of `RunPrefix` from `m0`:
   * models `ms`, listener events `es` after the earlier `l0`, and point
   * listener logs `us` after the earlier `u0`.
   */
  ghost predicate ReachedVals(hs: seq<FaceHandler>, m0: seq<HandlerModel>, faces: seq<Face>, i: nat,
                              l0: seq<Emission>, u0: seq<seq<seq<Point>>>,
                              ms: seq<HandlerModel>, es: seq<Emission>, us: seq<seq<seq<Point>>>)
  {
    i <= |m0| == |hs| == |u0| && (ms, es, us) == Expected(hs, m0, faces, i, l0, u0)
  }

  /** The models, listener events and point listener logs the first `i` turns on `faces` leave. */
  function Expected(hs: seq<FaceHandler>, m0: seq<HandlerModel>, faces: seq<Face>, i: nat,
                    l0: seq<Emission>, u0: seq<seq<seq<Point>>>): (seq<HandlerModel>, seq<Emission>, seq<seq<seq<Point>>>)
    requires i <= |m0| && |u0| == |hs|
  {
    var p := RunPrefix(m0, StepOn(faces), i);
    (p.models, l0 + p.events, Deliver(hs, u0, p.published))
  }

  /** One more handler's `handle` moves the state from turn `i` to turn `i + 1`. */
  lemma Advance(hs: seq<FaceHandler>, m0: seq<HandlerModel>, faces: seq<Face>, i: nat,
                l0: seq<Emission>, u0: seq<seq<seq<Point>>>,
                ms: seq<HandlerModel>, es: seq<Emission>, us: seq<seq<seq<Point>>>)
    requires ReachedVals(hs, m0, faces, i, l0, u0, ms, es, us)
    requires i < |m0| && !RunPrefix(m0, StepOn(faces), i).stopped
    ensures var s := Step(ms[i], faces);
      ReachedVals(hs, m0, faces, i + 1, l0, u0, ms[i := s.model], es + s.events, Deliver(hs, us, s.published))
    ensures RunPrefix(m0, StepOn(faces), i + 1).stopped == !Flag(Step(ms[i], faces).model)
  {
    var p := RunPrefix(m0, StepOn(faces), i);
    RunPrefixNext(m0, StepOn(faces), i);
    PrefixUntouched(m0, StepOn(faces), i);
    var s := Step(m0[i], faces);
    DeliverAppend(hs, u0, p.published, s.published);
    AppendAssoc(l0, p.events, s.events);
  }

  class FaceProcessor {
    /** `faceHandlers`, in the order the builder added them. */
    const handlers: seq<FaceHandler>
    /** Whether the detector options ask for tracking ids. */
    const trackingEnabled: bool

    ghost predicate Valid() {
      ChainValid(handlers)
    }

    constructor (handlers: seq<FaceHandler>, trackingEnabled: bool)
      ensures this.handlers == handlers && this.trackingEnabled == trackingEnabled
    {
      this.handlers := handlers;
      this.trackingEnabled := trackingEnabled;
    }

    ghost function Models(): seq<HandlerModel>
      reads ChainReads(handlers)
    {
      ModelsOf(handlers)
    }

    /**
     * `process` once the detector has answered: on success the chain runs as
     * `RunChain` says; on failure one `Error` event carries the message and
     * no handler runs.
     */
    method Process(result: DetectorResult, listener: FaceStateListener)
      requires Valid()
      modifies ChainWrites(handlers), listener, ChainSinks(handlers)
      ensures Models() == Outcome(old(Models()), result).models
      ensures listener.events == old(listener.events) + Outcome(old(Models()), result).events
      ensures SinkLogs(handlers) == Deliver(handlers, old(SinkLogs(handlers)), Outcome(old(Models()), result).published)
    {
      match result
      case Failed(message) =>
        ghost var om := Models();
        ghost var os := SinkLogs(handlers);
        DeliverNothing(handlers, os);
        ReportFailure(message, listener);
        KeptModels(om);
        CollectLogs([], os);
      case Detected(faces) =>
        RunHandlers(faces, listener);
    }

    /** The `addOnFailureListener` callback: one `Error` event with the exception's message; no handler runs. */
    method ReportFailure(message: Option<string>, listener: FaceStateListener)
      modifies listener
      ensures forall j :: 0 <= j < |handlers| ==> ModelOf(handlers[j]) == old(ModelOf(handlers[j]))
      ensures listener.events == old(listener.events) + [Emission(Error, message)]
      ensures forall j :: 0 <= j < |handlers| && SinkOf(handlers[j]) != null ==>
        SinkOf(handlers[j]).updates == old(SinkOf(handlers[j]).updates)
    {
      listener.OnFaceStateEvent(Error, message);
    }

    /** The `addOnSuccessListener` callback: the handler loop with its early return. */
    method RunHandlers(faces: seq<Face>, listener: FaceStateListener)
      requires Valid()
      modifies ChainWrites(handlers), listener, ChainSinks(handlers)
      ensures Models() == RunChain(old(Models()), StepOn(faces)).models
      ensures listener.events == old(listener.events) + RunChain(old(Models()), StepOn(faces)).events
      ensures SinkLogs(handlers) == Deliver(handlers, old(SinkLogs(handlers)), RunChain(old(Models()), StepOn(faces)).published)
    {
      ghost var m0 := Models();
      ghost var l0 := listener.events;
      ghost var u0 := SinkLogs(handlers);
      DeliverNothing(handlers, u0);
      assert l0 + [] == l0;
      ghost var k := Loop(faces, listener, m0, l0, u0);
      Settle(k, faces, listener, m0, l0, u0);
    }

    /** The `forEach` itself: it ends after the last handler or after the first one whose flag reads false. */
    method Loop(faces: seq<Face>, listener: FaceStateListener, ghost m0: seq<HandlerModel>,
                ghost l0: seq<Emission>, ghost u0: seq<seq<seq<Point>>>) returns (ghost k: nat)
      requires Valid()
      requires Reached(0, faces, listener, m0, l0, u0)
      modifies ChainWrites(handlers), listener, ChainSinks(handlers)
      ensures k <= |handlers| && Reached(k, faces, listener, m0, l0, u0)
      ensures RunPrefix(m0, StepOn(faces), k) == RunChain(m0, StepOn(faces))
    {
      var i := 0;
      var next := true;
      while next && i < |handlers|
        invariant i <= |handlers|
        invariant Reached(i, faces, listener, m0, l0, u0)
        invariant next == !RunPrefix(m0, StepOn(faces), i).stopped
      {
        InChain(handlers, i);
        next := Turn(i, faces, listener, m0, l0, u0);
        i := i + 1;
      }
      if !next {
        StoppedIsFinal(m0, StepOn(faces), i, |handlers|);
      }
      return i;
    }

    /**
     * The loop invariant: the handlers, the listener and the point listeners
     * are where the first `i` turns of `RunPrefix` leave them.
     */
    ghost predicate Reached(i: nat, faces: seq<Face>, listener: FaceStateListener, m0: seq<HandlerModel>,
                            l0: seq<Emission>, u0: seq<seq<seq<Point>>>)
      reads ChainReads(handlers), listener, ChainSinks(handlers)
    {
      ReachedVals(handlers, m0, faces, i, l0, u0, ModelsOf(handlers), listener.events, SinkLogs(handlers))
    }

    /** The invariant at the end of the loop gives the state `RunChain` describes. */
    lemma Settle(i: nat, faces: seq<Face>, listener: FaceStateListener, m0: seq<HandlerModel>,
                 l0: seq<Emission>, u0: seq<seq<seq<Point>>>)
      requires Reached(i, faces, listener, m0, l0, u0)
      requires RunPrefix(m0, StepOn(faces), i) == RunChain(m0, StepOn(faces))
      ensures Models() == RunChain(m0, StepOn(faces)).models
      ensures listener.events == l0 + RunChain(m0, StepOn(faces)).events
      ensures SinkLogs(handlers) == Deliver(handlers, u0, RunChain(m0, StepOn(faces)).published)
    {
    }

    /** One turn of the loop: handler `i` runs, and the state moves from `RunPrefix(.., i)` to `RunPrefix(.., i + 1)`. */
    method Turn(i: nat, faces: seq<Face>, listener: FaceStateListener, ghost m0: seq<HandlerModel>,
                ghost l0: seq<Emission>, ghost u0: seq<seq<seq<Point>>>) returns (next: bool)
      requires Valid() && i < |handlers|
      requires Reached(i, faces, listener, m0, l0, u0)
      requires !RunPrefix(m0, StepOn(faces), i).stopped
      modifies Writes(handlers[i]), listener, Frame(SinkOf(handlers[i]))
      ensures Reached(i + 1, faces, listener, m0, l0, u0)
      ensures next == !RunPrefix(m0, StepOn(faces), i + 1).stopped
    {
      ghost var om := ModelsOf(handlers);
      ghost var oe := listener.events;
      ghost var os := SinkLogs(handlers);
      HandleAt(i, faces, listener);
      TurnDone(i, faces, listener, m0, l0, u0, om, oe, os);
      next := FlagOf(handlers[i]);
    }

    /**
     * The state after handler `i` stepped from the snapshot `om`, `oe`, `os`
     * of turn `i` is the state of turn `i + 1`.
     */
    lemma TurnDone(i: nat, faces: seq<Face>, listener: FaceStateListener, m0: seq<HandlerModel>,
                   l0: seq<Emission>, u0: seq<seq<seq<Point>>>,
                   om: seq<HandlerModel>, oe: seq<Emission>, os: seq<seq<seq<Point>>>)
      requires ReachedVals(handlers, m0, faces, i, l0, u0, om, oe, os)
      requires i < |handlers| && !RunPrefix(m0, StepOn(faces), i).stopped
      requires forall j :: 0 <= j < |handlers| && j != i ==> ModelOf(handlers[j]) == om[j]
      requires ModelOf(handlers[i]) == Step(om[i], faces).model
      requires listener.events == oe + Step(om[i], faces).events
      requires forall j :: 0 <= j < |handlers| && SinkOf(handlers[j]) != null ==>
        SinkOf(handlers[j]).updates == os[j] + PointsFor(SinkOf(handlers[j]), Step(om[i], faces).published)
      requires forall j :: 0 <= j < |handlers| && SinkOf(handlers[j]) == null ==> os[j] == []
      ensures Reached(i + 1, faces, listener, m0, l0, u0)
      ensures RunPrefix(m0, StepOn(faces), i + 1).stopped == !FlagOf(handlers[i])
    {
      var s := Step(om[i], faces);
      CollectModels(i, s.model, om);
      CollectLogs(s.published, os);
      Advance(handlers, m0, faces, i, l0, u0, om, oe, os);
    }

    /** The chain's models after handler `i` took the state `m` and the others kept theirs from the snapshot `om`. */
    lemma CollectModels(i: nat, m: HandlerModel, om: seq<HandlerModel>)
      requires i < |handlers| == |om|
      requires forall j :: 0 <= j < |handlers| && j != i ==> ModelOf(handlers[j]) == om[j]
      requires ModelOf(handlers[i]) == m
      ensures ModelsOf(handlers) == om[i := m]
    {
      var ms := ModelsOf(handlers);
      forall j | 0 <= j < |handlers|
        ensures ms[j] == om[i := m][j]
      {
      }
    }

    /** The chain's models when every handler kept its state from the snapshot `om`. */
    lemma KeptModels(om: seq<HandlerModel>)
      requires |handlers| == |om|
      requires forall j :: 0 <= j < |handlers| ==> ModelOf(handlers[j]) == om[j]
      ensures ModelsOf(handlers) == om
    {
      var ms := ModelsOf(handlers);
      assert forall j :: 0 <= j < |handlers| ==> ms[j] == om[j];
    }

    /** The point listener logs after the publications `pubs` were added to the snapshot `os`. */
    lemma CollectLogs(pubs: seq<Publication>, os: seq<seq<seq<Point>>>)
      requires |handlers| == |os|
      requires forall j :: 0 <= j < |handlers| && SinkOf(handlers[j]) != null ==>
        SinkOf(handlers[j]).updates == os[j] + PointsFor(SinkOf(handlers[j]), pubs)
      requires forall j :: 0 <= j < |handlers| && SinkOf(handlers[j]) == null ==> os[j] == []
      ensures SinkLogs(handlers) == Deliver(handlers, os, pubs)
    {
      var us := SinkLogs(handlers);
      var ds := Deliver(handlers, os, pubs);
      forall j | 0 <= j < |handlers|
        ensures us[j] == ds[j]
      {
      }
    }

    /** `handlers[i].handle(faces, listener)`: handler `i` takes one step and every other handler keeps its state. */
    method HandleAt(i: nat, faces: seq<Face>, listener: FaceStateListener)
      requires Valid() && i < |handlers|
      modifies Writes(handlers[i]), listener, Frame(SinkOf(handlers[i]))
      ensures forall j :: 0 <= j < |handlers| && j != i ==> ModelOf(handlers[j]) == old(ModelOf(handlers[j]))
      ensures ModelOf(handlers[i]) == Step(old(ModelOf(handlers[i])), faces).model
      ensures listener.events == old(listener.events) + Step(old(ModelOf(handlers[i])), faces).events
      ensures forall j :: 0 <= j < |handlers| && SinkOf(handlers[j]) != null ==>
        SinkOf(handlers[j]).updates ==
          old(SinkOf(handlers[j]).updates) + PointsFor(SinkOf(handlers[j]), Step(old(ModelOf(handlers[i])), faces).published)
    {
      var h := handlers[i];
      ghost var hm := ModelOf(h);
      HandleOne(h, faces, listener);
      forall j | 0 <= j < |handlers| && j != i
        ensures ModelOf(handlers[j]) == old(ModelOf(handlers[j]))
      {
        FrameApart(handlers, i, j, listener);
      }
      forall j | 0 <= j < |handlers| && SinkOf(handlers[j]) != null
        ensures SinkOf(handlers[j]).updates == old(SinkOf(handlers[j]).updates) + PointsFor(SinkOf(handlers[j]), Step(hm, faces).published)
      {
        var q := SinkOf(handlers[j]);
        if q != SinkOf(h) {
          SinkNotWritten(q, h);
          StepPointsFor(q, hm, faces);
        }
      }
    }
  }

  /**
   * The companion object of `FaceProcessor`: one builder shared by every
   * caller. Each call adds a newly created handler to `handlers`, an
   * insertion-ordered set that `build` copies and never clears, so a second
   * build starts with the handlers of the first; `facesCount` also switches
   * on tracking in the shared detector options.
   */
  class FaceProcessorBuilder {
    /** The `LinkedHashSet` of handlers; every handler added is new, so the set only ever grows at its end. */
    var handlers: seq<FaceHandler>
    /** Whether `enableTracking` has been called on the shared options. */
    var trackingEnabled: bool

    ghost predicate Valid()
      reads this
    {
      ChainValid(handlers)
    }

    constructor ()
      ensures Valid() && handlers == [] && !trackingEnabled
    {
      handlers := [];
      trackingEnabled := false;
    }

    /** `eulerMovement`: adds an Euler handler with the challenge order `shuffled` and the point listener. */
    method EulerMovementHandler(shuffled: seq<EulerMovement.HeadMovement>, facePointListener: FacePointListener? := null)
      returns (e: EulerMovement.EulerMovementFaceHandler)
      requires Valid() && EulerMovement.IsShuffle(shuffled)
      modifies this
      ensures Valid() && fresh(e) && fresh(e.headMovement)
      ensures handlers == old(handlers) + [Movement(e)] && trackingEnabled == old(trackingEnabled)
      ensures ModelOf(Movement(e)) == EulerModelOf(EulerMovement.InitialModel(shuffled), facePointListener)
    {
      e := new EulerMovement.EulerMovementFaceHandler(facePointListener, shuffled);
      Add(Movement(e));
    }

    /** `facesCount`: adds a count gate and switches tracking on. */
    method FacesCount(stopIfNotHaveOnlyOneFace: bool := false, facePointListener: FacePointListener? := null)
      returns (c: FaceCount.NumberFaceHandler)
      requires Valid()
      modifies this
      ensures Valid() && fresh(c)
      ensures handlers == old(handlers) + [CountGate(c)] && trackingEnabled
      ensures ModelOf(CountGate(c)) == CountModel(true, stopIfNotHaveOnlyOneFace)
      ensures c.facePointListener == facePointListener
    {
      c := new FaceCount.NumberFaceHandler(stopIfNotHaveOnlyOneFace, facePointListener);
      Add(CountGate(c));
      trackingEnabled := true;
    }

    /** `expectedFaceRegion`: adds a region gate that reads the shared region object `expectedFaceRegion`. */
    method ExpectedFaceRegion(expectedFaceRegion: Region.ExpectedFaceRegion, stopIfFaceIsOutsideRegion: bool := true)
      returns (r: Region.ExpectedFaceRegionHandler)
      requires Valid()
      modifies this
      ensures Valid() && fresh(r)
      ensures handlers == old(handlers) + [RegionGate(r)] && trackingEnabled == old(trackingEnabled)
      ensures ModelOf(RegionGate(r)) ==
        RegionModel(true, stopIfFaceIsOutsideRegion, expectedFaceRegion, expectedFaceRegion.Snapshot())
    {
      r := new Region.ExpectedFaceRegionHandler(stopIfFaceIsOutsideRegion, expectedFaceRegion);
      Add(RegionGate(r));
    }

    /** `handlers += h` for a handler whose objects were all created after every handler already in the set. */
    method Add(h: FaceHandler)
      requires Valid()
      requires forall i :: 0 <= i < |handlers| ==> Writes(handlers[i]) !! Writes(h)
      modifies this
      ensures Valid() && handlers == old(handlers) + [h] && trackingEnabled == old(trackingEnabled)
    {
      handlers := handlers + [h];
    }

    /** `build`: a processor over the handlers added so far, in the order they were added. */
    method Build() returns (p: FaceProcessor)
      requires Valid()
      ensures fresh(p) && p.Valid()
      ensures p.handlers == handlers && p.trackingEnabled == trackingEnabled
    {
      p := new FaceProcessor(handlers, trackingEnabled);
    }
  }
}
