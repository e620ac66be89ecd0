# Liveness face-handler chain

A model of the liveness check in the android-mlkit-sample app. The model covers the part that decides what happens to each frame. Camera I/O, the detector and the UI are outside it.

For every preview frame, `FaceFrameAnalysis`:

1. stores the frame size in the shared `ExpectedFaceRegion`, in portrait order;
2. wraps the frame for the ML Kit face detector, with a rotation compensation;
3. hands the detector's answer to a `FaceProcessor`.

The processor runs its handlers in order on the detected faces. Each handler sends `FaceState` events to a `FaceStateListener` and then sets its "next can handle" flag. The processor stops the chain for that frame as soon as a flag reads false. A detector failure sends one `Error` event instead.

`LivenessFrameAnalysis` builds the chain as three handlers:

1. **A halting region gate.** It reports, face by face, whether the bounding box lies inside the region of interest. The region is drawn on the preview surface and scaled to frame pixels with 32-bit integer arithmetic. An unusable region lets every face through.
2. **A halting face-count gate.** It reports no face, one face, or more than one face, by the number of distinct tracking ids.
3. **The Euler head-movement handler.** It holds a state machine over a shuffled sequence of four head movements. For each movement the user first centres the face, then turns the head in the asked direction. After the last movement the handler reports `AllMovementSuccess` once, and then does nothing more.

The iterator peeks at the first movement without removing it, so the first movement is asked for twice. The model keeps that as written. `EulerMovement.Schedule` is the five-challenge schedule, and `EulerMovement.SessionFollowsSchedule` proves it.

## How the model is organised

| module | file | models |
|---|---|---|
| `Wrappers`, `KotlinInt`, `Vision`, `Listeners` | `wrappers.dfy`, `kotlin_int.dfy`, `vision.dfy`, `listeners.dfy` | `Option`; Kotlin `Int` arithmetic; `Rect`/`PointF`/`Face`; the two listeners as logs of what they received |
| `FaceStates` | `face_state.dfy` | the sealed `FaceState` hierarchy |
| `BaseHandler` | `base_handler.dfy` | `BaseFaceHandler` |
| `Region` | `expected_region.dfy` | `ExpectedFaceRegion`, `ExpectedFaceRegionHandler` |
| `FaceCount` | `number_face.dfy` | `NumberFaceHandler` |
| `EulerMovement` | `euler_movement.dfy` | `HeadMovement`, `EulerMovementIterator`, `EulerMovementFaceHandler` |
| `Processor` | `face_processor.dfy` | `FaceProcessor` and its companion builder |
| `FrameAnalysis` | `frame_analysis.dfy` | `FaceFrameAnalysis`, `LivenessFrameAnalysis`, `getRotationCompensation` |

Each handler is a class with the source's fields. Its `Handle` method is proved against a pure step function over an abstract state, so events and point lists are never computed twice. The step functions are:

- `Region.RegionEvents` and `Region.FlagAfter`;
- `FaceCount.Classify` and `FaceCount.FlagAfter`;
- `EulerMovement.EulerStep`.

Kotlin dispatches through the `FaceHandler` interface. Here `Processor.FaceHandler` is a datatype with one case per handler class.

`Processor.RunPrefix` and `Processor.RunChain` specify the chain. `FaceProcessor.Process` is proved against them, with a loop whose invariant is "the state after the first `i` turns".

Kotlin's `Int` is modelled as `Int32`:

- `*` wraps at 32 bits;
- `/` and `%` truncate toward zero (`KotlinInt.Quot`, `KotlinInt.Rem`).

## Model

| member | source | states |
|---|---|---|
| FaceStates.SealedHierarchy | app/src/main/java/github/io/wottrich/mlkit/FaceState.kt:5-27 | every object is a `FaceState`; exactly the four directional successes and `AllMovementSuccess` are `Movement`/`EulerMovement`; the count and region objects extend `FaceState` directly |
| FaceStates.NamesIdentifyObjects | app/src/main/java/github/io/wottrich/mlkit/FaceState.kt:5-28 | two events have the same `name` iff they are the same object or both `Information` |
| FaceStates.InformationEquality | app/src/main/java/github/io/wottrich/mlkit/FaceState.kt:28 | two `Information` events are equal iff their message ids are |
| BaseHandler.BaseFaceHandler.constructor | app/src/main/java/github/io/wottrich/mlkit/BaseFaceHandler.kt:6 | the flag starts `true` |
| BaseHandler.BaseFaceHandler.NextCanHandle | app/src/main/java/github/io/wottrich/mlkit/BaseFaceHandler.kt:8-10 | returns the flag and changes nothing |
| BaseHandler.BaseFaceHandler.Handle | app/src/main/java/github/io/wottrich/mlkit/BaseFaceHandler.kt:12-13 | the default `handle` sends no event and keeps the flag |
| Listeners.FaceStateListener.OnFaceStateEvent | app/src/main/java/github/io/wottrich/mlkit/FaceStateListener.kt:4 | the listener's log grows by exactly the event and its error message |
| Listeners.FacePointListener.UpdateFacePoints | app/src/main/java/github/io/wottrich/mlkit/handlers/NumberFaceHandler.kt:11-13 | the point listener's log grows by exactly the point list |
| KotlinInt.Wrap | app/src/main/java/github/io/wottrich/mlkit/handlers/ExpectedFaceRegion.kt:20-23 | a 32-bit result is the exact value when that fits, and is congruent to it modulo 2^32 otherwise |
| KotlinInt.Quot | app/src/main/java/github/io/wottrich/mlkit/handlers/ExpectedFaceRegion.kt:20-23 | `Int` division truncates toward zero: it agrees with floor division on non-negative operands, and its sign follows the operands' signs |
| KotlinInt.QuotOddSymmetric | app/src/main/java/github/io/wottrich/mlkit/handlers/ExpectedFaceRegion.kt:20-23 | negating either operand negates the truncating quotient |
| KotlinInt.Rem | app/src/main/java/github/io/wottrich/mlkit/FaceFrameAnalysis.kt:62 | `a == b * quotient + r`, with `r` taking the sign of the dividend and smaller than the divisor in size |
| Region.RegionEvents | app/src/main/java/github/io/wottrich/mlkit/handlers/ExpectedFaceRegion.kt:48-54 | one event per face, in list order: `FaceInsideRegion` or `FaceOutsideRegion` by that face's verdict |
| Region.LastFaceDecides | app/src/main/java/github/io/wottrich/mlkit/handlers/ExpectedFaceRegion.kt:56-58 | with halting configured and a non-empty list, the flag ends as the last face's verdict; otherwise it keeps its value from the previous frame |
| Region.FailOpen | app/src/main/java/github/io/wottrich/mlkit/handlers/ExpectedFaceRegion.kt:62-63 | an invalid region reports every face inside and never clears the flag |
| Region.ZeroDimension | app/src/main/java/github/io/wottrich/mlkit/handlers/ExpectedFaceRegion.kt:16-18 | a zero frame or surface dimension makes `isFaceInside` false, yet the handler reports the face inside (the region is invalid) |
| Region.ScaleEdgeExact | app/src/main/java/github/io/wottrich/mlkit/handlers/ExpectedFaceRegion.kt:20-23 | without overflow, a non-negative edge scales to exactly `edge * frameDim / surfaceDim` |
| Region.ContainmentExample | app/src/main/java/github/io/wottrich/mlkit/handlers/ExpectedFaceRegion.kt:20-28 | a (0,0,50,50) region on a 100x100 surface admits a (0,0,100,100) box in a 200x200 frame (bounds inclusive) and rejects (0,0,101,101) |
| Region.ExpectedFaceRegion.constructor | app/src/main/java/github/io/wottrich/mlkit/handlers/ExpectedFaceRegion.kt:9-15 | an empty region and four zero dimensions |
| Region.ExpectedFaceRegionHandler.constructor | app/src/main/java/github/io/wottrich/mlkit/handlers/ExpectedFaceRegion.kt:42-45 | keeps the halting option and the shared region by reference; the flag starts `true` |
| Region.ExpectedFaceRegionHandler.Handle | app/src/main/java/github/io/wottrich/mlkit/handlers/ExpectedFaceRegion.kt:47-60 | the `forEach` loop sends exactly `RegionEvents` of the region's current fields, and leaves the flag at `FlagAfter` |
| FaceCount.OneDistinctId | app/src/main/java/github/io/wottrich/mlkit/handlers/NumberFaceHandler.kt:40-42 | a non-empty list has exactly one distinct tracking id (an absent id counting as one key) iff all entries share the first entry's id |
| FaceCount.Classify | app/src/main/java/github/io/wottrich/mlkit/handlers/NumberFaceHandler.kt:21-31 | `NoFace` iff the list is empty; `MoreThatOneFace` iff it is non-empty with two ids; `FaceDetected` iff it is non-empty with one shared id |
| FaceCount.NumberFaceHandler.constructor | app/src/main/java/github/io/wottrich/mlkit/handlers/NumberFaceHandler.kt:15-18 | keeps the halting option and the point listener; the flag starts `true` |
| FaceCount.NumberFaceHandler.Handle | app/src/main/java/github/io/wottrich/mlkit/handlers/NumberFaceHandler.kt:20-38 | exactly one event, the classification; with halting the flag becomes "one face detected", otherwise it is untouched |
| EulerMovement.MovementMappingsOneToOne | app/src/main/java/github/io/wottrich/mlkit/handlers/EulerMovementFaceHandler.kt:19-44 | `toFaceState` is one-to-one onto the four directional successes, all `EulerMovement`s and none `AllMovementSuccess`; messages and support points differ per movement |
| EulerMovement.MovementLeavesCentre | app/src/main/java/github/io/wottrich/mlkit/handlers/EulerMovementFaceHandler.kt:145-189 | a pose that completes a movement is never centred, and opposite one-sided rules exclude each other |
| EulerMovement.ManyFacesTakePrecedence | app/src/main/java/github/io/wottrich/mlkit/handlers/EulerMovementFaceHandler.kt:96-97 | more than one list entry, in any phase: exactly one `MoreThatOneFace`, and phase, challenge, queue and flag unchanged |
| EulerMovement.QuietFrames | app/src/main/java/github/io/wottrich/mlkit/handlers/EulerMovementFaceHandler.kt:99-139 | an empty list, or a single face for a finished handler, sends nothing, publishes nothing and changes nothing |
| EulerMovement.CentringFrame | app/src/main/java/github/io/wottrich/mlkit/handlers/EulerMovementFaceHandler.kt:104-121 | while centring the flag is cleared; a face with both angles in [-10, 10] gets the movement instruction and its support point and moves to `MovementFace`; any other face gets the centring instruction; the movement rule is not tested that frame |
| EulerMovement.StepReports | app/src/main/java/github/io/wottrich/mlkit/handlers/EulerMovementFaceHandler.kt:118-138 | a frame reports a directional success only from `MovementFace` when the current one-sided rule holds, and reports `AllMovementSuccess` only from `MovementSuccess` with the queue empty |
| EulerMovement.StepFinishes | app/src/main/java/github/io/wottrich/mlkit/handlers/EulerMovementFaceHandler.kt:128-139 | a frame sends `AllMovementSuccess` exactly when it finishes the handler, and a finished handler stays finished |
| EulerMovement.StepKeepsSchedule | app/src/main/java/github/io/wottrich/mlkit/handlers/EulerMovementFaceHandler.kt:118-138 | every frame keeps the handler on its schedule: completed movements, current and queued ones always spell the schedule |
| EulerMovement.Schedule | app/src/main/java/github/io/wottrich/mlkit/handlers/EulerMovementFaceHandler.kt:57-82 | a session asks for five movements: the peeked first one, then all four shuffled ones |
| EulerMovement.FinishedIsFinal | app/src/main/java/github/io/wottrich/mlkit/handlers/EulerMovementFaceHandler.kt:128-139 | once finished, over any frames the handler keeps its state, publishes nothing and sends nothing but `MoreThatOneFace` warnings |
| EulerMovement.RunKeepsSchedule | app/src/main/java/github/io/wottrich/mlkit/handlers/EulerMovementFaceHandler.kt:118-138 | over any run of frames the handler stays on its schedule |
| EulerMovement.RunFinishesOnce | app/src/main/java/github/io/wottrich/mlkit/handlers/EulerMovementFaceHandler.kt:128-139 | over any run of frames `AllMovementSuccess` is sent once if the handler finished during the run, and never otherwise |
| EulerMovement.ScheduleBoundsProgress | app/src/main/java/github/io/wottrich/mlkit/handlers/EulerMovementFaceHandler.kt:57-82 | what the handler has completed is a prefix of its schedule |
| EulerMovement.SessionFollowsSchedule | app/src/main/java/github/io/wottrich/mlkit/handlers/EulerMovementFaceHandler.kt:57-143 | from a fresh handler, the reported successes are a prefix of [m0, m0, m1, m2, m3]; `AllMovementSuccess` is sent at most once, exactly when the handler is finished, and only after all five, with the flag set |
| EulerMovement.EulerMovementIterator.constructor | app/src/main/java/github/io/wottrich/mlkit/handlers/EulerMovementFaceHandler.kt:63-66 | the queue holds the shuffled movements, and `current` is the first of them, peeked and not removed |
| EulerMovement.EulerMovementIterator.HasNext | app/src/main/java/github/io/wottrich/mlkit/handlers/EulerMovementFaceHandler.kt:68-70 | true iff the queue is non-empty |
| EulerMovement.EulerMovementIterator.Next | app/src/main/java/github/io/wottrich/mlkit/handlers/EulerMovementFaceHandler.kt:72-75 | removes the queue's head, which becomes and is returned as `current` |
| EulerMovement.EulerMovementFaceHandler.constructor | app/src/main/java/github/io/wottrich/mlkit/handlers/EulerMovementFaceHandler.kt:88-93 | flag `true`, phase `CentralizeFace`, a fresh iterator over the shuffled movements |
| EulerMovement.EulerMovementFaceHandler.Handle | app/src/main/java/github/io/wottrich/mlkit/handlers/EulerMovementFaceHandler.kt:95-143 | the new flag, phase and iterator state, the events sent and the point lists published are those of `EulerStep` |
| Processor.Publications | app/src/main/java/github/io/wottrich/mlkit/handlers/EulerMovementFaceHandler.kt:109-111 | without a point listener nothing is published; with one, every point list is addressed to it, in order |
| Processor.PointsForPublications | app/src/main/java/github/io/wottrich/mlkit/handlers/EulerMovementFaceHandler.kt:109-111 | a point listener receives exactly the point lists addressed to it |
| Processor.StepPointsFor | app/src/main/java/github/io/wottrich/mlkit/handlers/EulerMovementFaceHandler.kt:109-111 | only an Euler handler publishes, and only to its own point listener |
| Processor.StepKeepsHandler | app/src/main/java/github/io/wottrich/mlkit/BaseFaceHandler.kt:5-13 | a `handle` keeps each handler's kind, configuration and references; the default handler changes nothing |
| Processor.RunPrefix | app/src/main/java/github/io/wottrich/mlkit/FaceProcessor.kt:17-22 | at most `n` handlers ran, and fewer only when the chain stopped |
| Processor.RunPrefixNext | app/src/main/java/github/io/wottrich/mlkit/FaceProcessor.kt:17-22 | the next handler runs from its state before the frame unless the chain has stopped, and the chain stops iff its flag then reads false |
| Processor.StoppedIsFinal | app/src/main/java/github/io/wottrich/mlkit/FaceProcessor.kt:19-21 | once the chain stops, later handlers change nothing and send nothing |
| Processor.PrefixUntouched | app/src/main/java/github/io/wottrich/mlkit/FaceProcessor.kt:17-22 | handlers after the last one that ran keep their state |
| Processor.PrefixStepped | app/src/main/java/github/io/wottrich/mlkit/FaceProcessor.kt:17-19 | each handler that ran was handled exactly once, from its state before the frame |
| Processor.PrefixFlags | app/src/main/java/github/io/wottrich/mlkit/FaceProcessor.kt:18-21 | every handler before the last that ran left its flag set, and the chain stopped iff the last one cleared it |
| Processor.FirstAlwaysRuns | app/src/main/java/github/io/wottrich/mlkit/FaceProcessor.kt:17-19 | on a non-empty chain the first handler always runs, whatever its old flag, and its events come first |
| Processor.PrefixGrows | app/src/main/java/github/io/wottrich/mlkit/FaceProcessor.kt:17-22 | events of an earlier turn are a prefix of those of a later one |
| Processor.FlagReadAfterHandle | app/src/main/java/github/io/wottrich/mlkit/FaceProcessor.kt:18-19 | the flag is read after `handle`: if every handler leaves its flag set, all run, even those whose flag was cleared before the frame |
| Processor.Outcome | app/src/main/java/github/io/wottrich/mlkit/FaceProcessor.kt:14-27 | a detector failure sends exactly one `Error` with the failure's message, runs no handler and changes no state |
| Processor.GateTurns | app/src/main/java/github/io/wottrich/mlkit/LivenessFrameAnalysis.kt:13-15 | in the liveness chain the region gate sends its verdicts and stops the chain iff the last face is outside; otherwise the count gate sends the classification and stops the chain unless it is `FaceDetected` |
| Processor.LivenessGates | app/src/main/java/github/io/wottrich/mlkit/LivenessFrameAnalysis.kt:13-16 | the Euler handler sees a frame iff there are faces, the last one passes the region gate, and all share one tracking id; otherwise it is untouched |
| Processor.LivenessEvents | app/src/main/java/github/io/wottrich/mlkit/LivenessFrameAnalysis.kt:13-16 | a frame's events are the region verdicts, then the count classification if the region let it through, then the Euler handler's if it ran |
| Processor.HandleOne | app/src/main/java/github/io/wottrich/mlkit/FaceProcessor.kt:18 | `handler.handle` dispatches to the handler's class and moves its state, events and point lists as its step function says |
| Processor.FlagOf | app/src/main/java/github/io/wottrich/mlkit/FaceProcessor.kt:19 | `nextCanHandle()` is the flag of the handler's state |
| Processor.Advance | app/src/main/java/github/io/wottrich/mlkit/FaceProcessor.kt:17-21 | one more `handle` moves the chain from the state of turn `i` to that of turn `i + 1` |
| Processor.FaceProcessor.constructor | app/src/main/java/github/io/wottrich/mlkit/FaceProcessor.kt:9-12 | keeps the handler list and the detector's tracking option |
| Processor.FaceProcessor.Process | app/src/main/java/github/io/wottrich/mlkit/FaceProcessor.kt:14-27 | handler states, listener events and point listener logs end as `Outcome` of the detector's answer says |
| Processor.FaceProcessor.ReportFailure | app/src/main/java/github/io/wottrich/mlkit/FaceProcessor.kt:24-26 | one `Error` event with the message; no handler state and no point listener changes |
| Processor.FaceProcessor.RunHandlers | app/src/main/java/github/io/wottrich/mlkit/FaceProcessor.kt:16-23 | the success callback leaves the chain as `RunChain` says |
| Processor.FaceProcessor.Loop | app/src/main/java/github/io/wottrich/mlkit/FaceProcessor.kt:17-22 | the loop ends in the state of some turn that equals the whole run of `RunChain` |
| Processor.FaceProcessor.Turn | app/src/main/java/github/io/wottrich/mlkit/FaceProcessor.kt:18-21 | one turn takes the chain from turn `i` to turn `i + 1` and says whether the loop goes on |
| Processor.FaceProcessor.HandleAt | app/src/main/java/github/io/wottrich/mlkit/FaceProcessor.kt:18 | handler `i` takes one step; every other handler keeps its state; the listener and point listeners receive that step's output |
| Processor.FaceProcessorBuilder.constructor | app/src/main/java/github/io/wottrich/mlkit/FaceProcessor.kt:37-44 | the shared handler set starts empty and tracking off |
| Processor.FaceProcessorBuilder.EulerMovementHandler | app/src/main/java/github/io/wottrich/mlkit/FaceProcessor.kt:48-52 | appends one new Euler handler, in its initial state with the given point listener, and leaves tracking alone |
| Processor.FaceProcessorBuilder.FacesCount | app/src/main/java/github/io/wottrich/mlkit/FaceProcessor.kt:54-60 | appends one new count gate with the given halting option and point listener, and switches tracking on |
| Processor.FaceProcessorBuilder.ExpectedFaceRegion | app/src/main/java/github/io/wottrich/mlkit/FaceProcessor.kt:62-67 | appends one new region gate reading the given shared region, and leaves tracking alone |
| Processor.FaceProcessorBuilder.Add | app/src/main/java/github/io/wottrich/mlkit/FaceProcessor.kt:37 | the insertion-ordered set grows by the new handler at its end |
| Processor.FaceProcessorBuilder.Build | app/src/main/java/github/io/wottrich/mlkit/FaceProcessor.kt:69-74 | a new processor over every handler added so far, in call order, with the tracking option |
| FrameAnalysis.PortraitSize | app/src/main/java/github/io/wottrich/mlkit/FaceFrameAnalysis.kt:50-58 | the stored size is never wider than tall, has the frame's two sides, and is the frame's own size when that is already portrait |
| FrameAnalysis.PortraitIdempotent | app/src/main/java/github/io/wottrich/mlkit/FaceFrameAnalysis.kt:52-54 | turning a size to portrait twice is turning it once |
| FrameAnalysis.RotationCompensation | app/src/main/java/github/io/wottrich/mlkit/FaceFrameAnalysis.kt:61-63 | `(360 - r) % 360` lies strictly between -360 and 360, undoes `r` modulo a full turn, and is non-negative for `r` in [0, 360] |
| FrameAnalysis.CameraRotations | app/src/main/java/github/io/wottrich/mlkit/FaceFrameAnalysis.kt:61-63 | 0 maps to 0 and 90, 180, 270 map to 270, 180, 90 |
| FrameAnalysis.CompensationInTurn | app/src/main/java/github/io/wottrich/mlkit/FaceFrameAnalysis.kt:61-63 | for `r` in [0, 360] the compensation is the non-negative remainder `(360 - r) mod 360` |
| FrameAnalysis.ReframedAll | app/src/main/java/github/io/wottrich/mlkit/FaceFrameAnalysis.kt:56-57 | storing a frame size re-reads it into each handler reading that region, and into no other |
| FrameAnalysis.ReframedKeepsHandler | app/src/main/java/github/io/wottrich/mlkit/FaceFrameAnalysis.kt:56-57 | storing a frame size changes no flag and no configuration; a gate on that region sees the new frame size with the same region of interest |
| FrameAnalysis.FaceFrameAnalysis.constructor | app/src/main/java/github/io/wottrich/mlkit/FaceFrameAnalysis.kt:9-16 | the processor is built from the shared builder as it stands |
| FrameAnalysis.FaceFrameAnalysis.Liveness | app/src/main/java/github/io/wottrich/mlkit/LivenessFrameAnalysis.kt:6-21 | the builder gains exactly a halting region gate on this analysis's own region, a halting count gate and a fresh Euler handler, in that order. The count and Euler handlers share the point listener. The processor runs every handler in the builder and has tracking on |
| FrameAnalysis.FaceFrameAnalysis.SetExpectedFaceRegion | app/src/main/java/github/io/wottrich/mlkit/FaceFrameAnalysis.kt:36-40 | writes exactly the region of interest and the surface size; the frame size is kept |
| FrameAnalysis.FaceFrameAnalysis.Process | app/src/main/java/github/io/wottrich/mlkit/FaceFrameAnalysis.kt:18-30 | the region holds the portrait frame size before the processor runs, so every gate on it judges with the new size; the image carries the frame's size, the rotation compensation and NV21 |
| FrameAnalysis.FaceFrameAnalysis.UpdateExpectedFaceRegion | app/src/main/java/github/io/wottrich/mlkit/FaceFrameAnalysis.kt:50-58 | only the region's two frame fields change, to the portrait size; handlers change only through what they read of the region; no point listener changes |
| FrameAnalysis.FaceFrameAnalysis.StoreFrameSize | app/src/main/java/github/io/wottrich/mlkit/FaceFrameAnalysis.kt:56-57 | the two field writes, and their effect on each handler's state |

## Left out

- The ML Kit detector, its options and `close()`. The asynchronous success and failure callbacks are not modelled either. The detector's answer for a frame is a parameter of `Process` (a `DetectorResult`). Only the tracking option is kept, as `trackingEnabled`.
- `InputImage.fromByteArray` and the frame's NV21 bytes. The model keeps only the image's size, rotation and format.
- The randomness of `shuffled()`. Any permutation of the four movements is a parameter.
- `println` debugging output in the Euler handler.
- `NaN` head angles. The angles are `real`, so every comparison is total.
- String resource ids. They are an enumeration (`FaceStates.StringRes`), not the integers Android assigns.
- The point listener of `NumberFaceHandler`. It is stored, as the source does, and never used.
- The companion object's global state. It is a builder object passed explicitly, so one instance stands for the shared set and options.
- The handler set's duplicate check. Builder calls always add a freshly created handler, so the `LinkedHashSet` is a sequence that only grows.
- FrameAnalysis.FaceFrameAnalysis.constructor: builds the processor when the analysis is created, while the source builds it lazily, at the first frame. The handlers are the same unless the builder is used between creation and the first frame.
- FrameAnalysis.FaceFrameAnalysis.Liveness: models `LivenessFrameAnalysis` as a named constructor of `FaceFrameAnalysis`, with the overridden `buildFaceProcessor` inlined. Its `pointListener` property is not kept as a field.
- FrameAnalysis.FaceFrameAnalysis.GetExpectedFaceRegion: returns the shared region object, and has no contract of its own. The sharing it provides is stated by `Liveness` (the region gate reads this analysis's region) and by `Process`.
- `MIN_FACE_SIZE`, the contour, landmark, performance and classification options, `FaceHandler` and `FaceStateListener`. The options only configure the detector. The two interfaces are the handler datatype and the listener class.
