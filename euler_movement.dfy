/**
 * `EulerMovementFaceHandler`: the head-movement challenge. For every
 * challenge of a shuffled sequence the user first centres the face, then
 * turns it in the asked direction; after the last challenge the handler
 * reports success once and then does nothing more.
 */
module EulerMovement {

  import opened Wrappers
  import opened Vision
  import opened FaceStates
  import opened Listeners

  datatype HeadMovement = MoveRight | MoveLeft | MoveUp | MoveDown

  /** `HeadMovement.headMovements`, the list the iterator shuffles. */
  const HEAD_MOVEMENTS: seq<HeadMovement> := [MoveRight, MoveLeft, MoveUp, MoveDown]

  /** What `shuffled()` may return: a permutation of the four movements. */
  predicate IsShuffle(s: seq<HeadMovement>) {
    multiset(s) == multiset(HEAD_MOVEMENTS)
  }

  function MovementMessage(m: HeadMovement): StringRes {
    match m
    case MoveRight => MsgMoveToRight
    case MoveLeft => MsgMoveToLeft
    case MoveUp => MsgMoveToTop
    case MoveDown => MsgMoveToBottom
  }

  function ToFaceState(m: HeadMovement): FaceState {
    match m
    case MoveRight => RightMovementSuccess
    case MoveLeft => LeftMovementSuccess
    case MoveUp => UpMovementSuccess
    case MoveDown => DownMovementSuccess
  }

  function SupportPoint(m: HeadMovement): Point {
    match m
    case MoveRight => Point(150.0, 0.0)
    case MoveLeft => Point(-150.0, 0.0)
    case MoveUp => Point(0.0, -150.0)
    case MoveDown => Point(0.0, 150.0)
  }

  /** The movement a directional success event reports, if it is one. */
  function MovementOf(s: FaceState): Option<HeadMovement> {
    match s
    case RightMovementSuccess => Some(MoveRight)
    case LeftMovementSuccess => Some(MoveLeft)
    case UpMovementSuccess => Some(MoveUp)
    case DownMovementSuccess => Some(MoveDown)
    case _ => None
  }

  /**
   * `toFaceState` is one-to-one onto the four directional success events,
   * all of them `EulerMovement`s and none of them `AllMovementSuccess`;
   * the instruction messages and support points differ per movement too.
   */
  lemma MovementMappingsOneToOne(m: HeadMovement, n: HeadMovement, s: FaceState)
    ensures MovementOf(ToFaceState(m)) == Some(m)
    ensures MovementOf(s) == Some(m) ==> s == ToFaceState(m)
    ensures IsEulerMovement(ToFaceState(m)) && ToFaceState(m) != AllMovementSuccess
    ensures m != n ==> ToFaceState(m) != ToFaceState(n)
    ensures m != n ==> MovementMessage(m) != MovementMessage(n) && SupportPoint(m) != SupportPoint(n)
  {
  }

  // The closed ranges of the companion object.
  const X_MOVEMENT_START: real := -10.0
  const X_MOVEMENT_END: real := 20.0
  const Y_MOVEMENT_START: real := -10.0
  const Y_MOVEMENT_END: real := 10.0
  const CENTRALIZE_START: real := -10.0
  const CENTRALIZE_END: real := 10.0

  /** Both angles in the closed centring window. */
  predicate IsCentralized(face: Face) {
    && CENTRALIZE_START <= face.eulerX <= CENTRALIZE_END
    && CENTRALIZE_START <= face.eulerY <= CENTRALIZE_END
  }

  predicate IsHeadMovedToRight(eulerY: real) { eulerY < Y_MOVEMENT_START }
  predicate IsHeadMovedToLeft(eulerY: real) { eulerY > Y_MOVEMENT_END }
  predicate IsHeadMovedToUp(eulerX: real) { eulerX > X_MOVEMENT_END }
  predicate IsHeadMovedToDown(eulerX: real) { eulerX < X_MOVEMENT_START }

  /** Only the current challenge's one-sided rule is tested. */
  predicate IsExpectedMovementHandled(current: HeadMovement, face: Face) {
    match current
    case MoveRight => IsHeadMovedToRight(face.eulerY)
    case MoveLeft => IsHeadMovedToLeft(face.eulerY)
    case MoveUp => IsHeadMovedToUp(face.eulerX)
    case MoveDown => IsHeadMovedToDown(face.eulerX)
  }

  /** A pose that completes a challenge is never a centred pose, and opposite rules exclude each other. */
  lemma MovementLeavesCentre(m: HeadMovement, face: Face)
    ensures IsExpectedMovementHandled(m, face) ==> !IsCentralized(face)
    ensures !(IsHeadMovedToRight(face.eulerY) && IsHeadMovedToLeft(face.eulerY))
    ensures !(IsHeadMovedToUp(face.eulerX) && IsHeadMovedToDown(face.eulerX))
  {
  }

  datatype EulerMovementState = CentralizeFace | MovementFace | MovementSuccess

  /**
   * What a handler holds: its flag, its phase (`None` is Kotlin's `null`,
   * the finished handler), the iterator's current movement and the
   * movements still queued in the iterator.
   */
  datatype EulerModel = EulerModel(
    nextCanHandle: bool,
    state: Option<EulerMovementState>,
    current: HeadMovement,
    remaining: seq<HeadMovement>)

  /** A fresh handler: the iterator has peeked at the first movement without removing it. */
  function InitialModel(shuffled: seq<HeadMovement>): EulerModel
    requires IsShuffle(shuffled)
  {
    assert |shuffled| == |multiset(shuffled)| == 4;
    EulerModel(true, Some(CentralizeFace), shuffled[0], shuffled)
  }

  /** The new model, the events sent to the listener and the point lists sent to the point listener. */
  datatype EulerOutcome = EulerOutcome(model: EulerModel, events: seq<Emission>, points: seq<seq<Point>>)

  /** One `handle` call. */
  function EulerStep(m: EulerModel, faces: seq<Face>): EulerOutcome {
    if |faces| > 1 then EulerOutcome(m, [Event(MoreThatOneFace)], [])
    else if faces == [] then EulerOutcome(m, [], [])
    else
      var face := faces[0];
      match m.state
      case None => EulerOutcome(m, [], [])
      case Some(CentralizeFace) =>
        if IsCentralized(face) then
          EulerOutcome(m.(nextCanHandle := false, state := Some(MovementFace)),
                       [Event(Information(MovementMessage(m.current)))], [[SupportPoint(m.current)]])
        else
          EulerOutcome(m.(nextCanHandle := false), [Event(Information(MsgCentralizeFace))], [])
      case Some(MovementFace) =>
        if IsExpectedMovementHandled(m.current, face) then
          EulerOutcome(m.(state := Some(MovementSuccess)), [Event(ToFaceState(m.current))], [])
        else
          EulerOutcome(m, [], [])
      case Some(MovementSuccess) =>
        if m.remaining != [] then
          EulerOutcome(m.(state := Some(CentralizeFace), current := m.remaining[0], remaining := m.remaining[1..]), [], [])
        else
          EulerOutcome(m.(nextCanHandle := true, state := None),
                       [Event(AllMovementSuccess), Event(Information(MsgAllMovementsDone))], [])
  }

  /** More than one entry in the list: one `MoreThatOneFace`, whatever the phase, and nothing changes. */
  lemma ManyFacesTakePrecedence(m: EulerModel, faces: seq<Face>)
    requires |faces| > 1
    ensures EulerStep(m, faces).model == m
    ensures EulerStep(m, faces).events == [Event(MoreThatOneFace)]
    ensures EulerStep(m, faces).points == []
  {
  }

  /** An empty list, or a finished handler: nothing sent, nothing changed. */
  lemma QuietFrames(m: EulerModel, faces: seq<Face>)
    requires faces == [] || (|faces| == 1 && m.state == None)
    ensures EulerStep(m, faces) == EulerOutcome(m, [], [])
  {
  }

  /**
   * Centring: the flag is cleared; a centred face gets the instruction for the
   * current movement and its support point and moves on to `MovementFace`,
   * any other face gets the centring instruction and stays. The movement
   * rule is not looked at in the same frame.
   */
  lemma CentringFrame(m: EulerModel, face: Face)
    requires m.state == Some(CentralizeFace)
    ensures var r := EulerStep(m, [face]);
      && !r.model.nextCanHandle
      && r.model.current == m.current && r.model.remaining == m.remaining
      && (IsCentralized(face) ==>
            r.model.state == Some(MovementFace)
            && r.events == [Event(Information(MovementMessage(m.current)))]
            && r.points == [[SupportPoint(m.current)]])
      && (!IsCentralized(face) ==>
            r.model.state == Some(CentralizeFace)
            && r.events == [Event(Information(MsgCentralizeFace))]
            && r.points == [])
  {
  }

  /** The directional successes a run of events reports, in order. */
  function Completed(events: seq<Emission>): seq<HeadMovement> {
    if events == [] then []
    else
      var last := events[|events| - 1];
      Completed(events[..|events| - 1]) +
        (match MovementOf(last.state) case Some(d) => [d] case None => [])
  }

  lemma {:induction false} CompletedAppend(a: seq<Emission>, b: seq<Emission>)
    ensures Completed(a + b) == Completed(a) + Completed(b)
    decreases |b|
  {
    if b == [] {
      assert a + b == a;
    } else {
      var b' := b[..|b| - 1];
      assert (a + b)[..|a + b| - 1] == a + b';
      assert (a + b)[|a + b| - 1] == b[|b| - 1];
      CompletedAppend(a, b');
    }
  }

  /** The challenges a session asks for: the peeked first movement, then all four removed one by one. */
  function Schedule(shuffled: seq<HeadMovement>): (s: seq<HeadMovement>)
    requires IsShuffle(shuffled)
    ensures |s| == 5 && s[0] == s[1] == shuffled[0] && s[1..] == shuffled
  {
    assert |shuffled| == |multiset(shuffled)| == 4;
    [shuffled[0]] + shuffled
  }

  /**
   * A model is on `schedule` after completing `done`: the current challenge
   * (while centring or moving) or the one just completed (while in
   * `MovementSuccess`) sits between what is done and what is queued, and a
   * finished handler has done everything and lets the chain continue.
   */
  ghost predicate OnSchedule(m: EulerModel, schedule: seq<HeadMovement>, done: seq<HeadMovement>) {
    match m.state
    case Some(CentralizeFace) => schedule == done + [m.current] + m.remaining
    case Some(MovementFace) => schedule == done + [m.current] + m.remaining
    case Some(MovementSuccess) => done != [] && m.current == done[|done| - 1] && schedule == done + m.remaining
    case None => schedule == done && m.remaining == [] && m.nextCanHandle
  }

  /** How often `AllMovementSuccess` occurs in a run of events. */
  function Finishes(events: seq<Emission>): nat {
    multiset(events)[Event(AllMovementSuccess)]
  }

  /** A frame completes the current challenge only from `MovementFace`, and finishes the session only from the last `MovementSuccess`. */
  lemma StepReports(m: EulerModel, faces: seq<Face>)
    ensures var r := EulerStep(m, faces);
      && Completed(r.events) ==
           (if |faces| == 1 && m.state == Some(MovementFace) && IsExpectedMovementHandled(m.current, faces[0])
            then [m.current] else [])
      && Finishes(r.events) ==
           (if |faces| == 1 && m.state == Some(MovementSuccess) && m.remaining == [] then 1 else 0)
  {
    if |faces| != 1 || m.state == None {
      QuietReports(m, faces);
    } else {
      match m.state.value
      case CentralizeFace => CentringReports(m, faces);
      case MovementFace => MovingReports(m, faces);
      case MovementSuccess => SuccessReports(m, faces);
    }
  }

  lemma QuietReports(m: EulerModel, faces: seq<Face>)
    requires |faces| != 1 || m.state == None
    ensures Completed(EulerStep(m, faces).events) == [] && Finishes(EulerStep(m, faces).events) == 0
  {
    if |faces| > 1 {
      SingleEvent(MoreThatOneFace);
    }
  }

  lemma CentringReports(m: EulerModel, faces: seq<Face>)
    requires |faces| == 1 && m.state == Some(CentralizeFace)
    ensures Completed(EulerStep(m, faces).events) == [] && Finishes(EulerStep(m, faces).events) == 0
  {
    if IsCentralized(faces[0]) {
      SingleEvent(Information(MovementMessage(m.current)));
    } else {
      SingleEvent(Information(MsgCentralizeFace));
    }
  }

  lemma MovingReports(m: EulerModel, faces: seq<Face>)
    requires |faces| == 1 && m.state == Some(MovementFace)
    ensures Completed(EulerStep(m, faces).events) == (if IsExpectedMovementHandled(m.current, faces[0]) then [m.current] else [])
    ensures Finishes(EulerStep(m, faces).events) == 0
  {
    if IsExpectedMovementHandled(m.current, faces[0]) {
      SingleEvent(ToFaceState(m.current));
    }
  }

  lemma SuccessReports(m: EulerModel, faces: seq<Face>)
    requires |faces| == 1 && m.state == Some(MovementSuccess)
    ensures Completed(EulerStep(m, faces).events) == []
    ensures Finishes(EulerStep(m, faces).events) == if m.remaining == [] then 1 else 0
  {
    if m.remaining == [] {
      FinalEvents();
    }
  }

  /** What one event adds to the completed movements and to the finishes. */
  lemma SingleEvent(s: FaceState)
    ensures Completed([Event(s)]) == match MovementOf(s) case Some(d) => [d] case None => []
    ensures Finishes([Event(s)]) == if s == AllMovementSuccess then 1 else 0
  {
    assert [Event(s)][..0] == [];
  }

  /** The two events of the last frame complete no movement and finish once. */
  lemma FinalEvents()
    ensures Completed([Event(AllMovementSuccess), Event(Information(MsgAllMovementsDone))]) == []
    ensures Finishes([Event(AllMovementSuccess), Event(Information(MsgAllMovementsDone))]) == 1
  {
    var es := [Event(AllMovementSuccess), Event(Information(MsgAllMovementsDone))];
    assert es[..1] == [es[0]];
    assert es[..1][..0] == [];
    assert multiset(es) == multiset{Event(AllMovementSuccess), Event(Information(MsgAllMovementsDone))};
  }

  /** A frame that changes nothing, or only centres, keeps the schedule. */
  lemma QuietStepKeepsSchedule(m: EulerModel, schedule: seq<HeadMovement>, done: seq<HeadMovement>, faces: seq<Face>)
    requires OnSchedule(m, schedule, done)
    requires |faces| != 1 || m.state == None || m.state == Some(CentralizeFace)
    ensures var r := EulerStep(m, faces);
      OnSchedule(r.model, schedule, done + Completed(r.events))
  {
    var r := EulerStep(m, faces);
    StepReports(m, faces);
    assert Completed(r.events) == [] && done + [] == done;
    assert r.model.current == m.current && r.model.remaining == m.remaining;
    if |faces| == 1 && m.state == Some(CentralizeFace) {
      assert r.model.state in {Some(CentralizeFace), Some(MovementFace)};
    } else {
      assert r.model == m;
    }
  }

  /** Completing the current challenge moves it from the schedule's middle to `done`. */
  lemma MovingStepKeepsSchedule(m: EulerModel, schedule: seq<HeadMovement>, done: seq<HeadMovement>, faces: seq<Face>)
    requires OnSchedule(m, schedule, done)
    requires |faces| == 1 && m.state == Some(MovementFace)
    ensures var r := EulerStep(m, faces);
      OnSchedule(r.model, schedule, done + Completed(r.events))
  {
    var r := EulerStep(m, faces);
    StepReports(m, faces);
    if IsExpectedMovementHandled(m.current, faces[0]) {
      assert r.model == m.(state := Some(MovementSuccess));
      assert Completed(r.events) == [m.current];
      assert schedule == (done + [m.current]) + m.remaining;
    } else {
      assert r.model == m && Completed(r.events) == [];
      assert done + [] == done;
    }
  }

  /** Advancing takes the next queued challenge; an empty queue finishes with everything done. */
  lemma AdvancingStepKeepsSchedule(m: EulerModel, schedule: seq<HeadMovement>, done: seq<HeadMovement>, faces: seq<Face>)
    requires OnSchedule(m, schedule, done)
    requires |faces| == 1 && m.state == Some(MovementSuccess)
    ensures var r := EulerStep(m, faces);
      OnSchedule(r.model, schedule, done + Completed(r.events))
  {
    var r := EulerStep(m, faces);
    StepReports(m, faces);
    assert Completed(r.events) == [] && done + [] == done;
    if m.remaining != [] {
      assert r.model == m.(state := Some(CentralizeFace), current := m.remaining[0], remaining := m.remaining[1..]);
      assert schedule == done + [m.remaining[0]] + m.remaining[1..];
    } else {
      assert r.model == m.(nextCanHandle := true, state := None);
    }
  }

  /** Each frame keeps the model on its schedule; it reports success only when the model finishes. */
  lemma StepKeepsSchedule(m: EulerModel, schedule: seq<HeadMovement>, done: seq<HeadMovement>, faces: seq<Face>)
    requires OnSchedule(m, schedule, done)
    ensures var r := EulerStep(m, faces);
      && OnSchedule(r.model, schedule, done + Completed(r.events))
      && Finishes(r.events) == (if r.model.state == None && m.state != None then 1 else 0)
  {
    StepReports(m, faces);
    if |faces| == 1 && m.state == Some(MovementFace) {
      MovingStepKeepsSchedule(m, schedule, done, faces);
    } else if |faces| == 1 && m.state == Some(MovementSuccess) {
      AdvancingStepKeepsSchedule(m, schedule, done, faces);
    } else {
      QuietStepKeepsSchedule(m, schedule, done, faces);
    }
  }

  /** A session as a run of frames fed to one handler. */
  function RunFrames(m: EulerModel, frames: seq<seq<Face>>): EulerOutcome
    decreases |frames|
  {
    if frames == [] then EulerOutcome(m, [], [])
    else
      var first := EulerStep(m, frames[0]);
      var rest := RunFrames(first.model, frames[1..]);
      EulerOutcome(rest.model, first.events + rest.events, first.points + rest.points)
  }

  /** Every event is the `MoreThatOneFace` warning. */
  predicate OnlyCountWarnings(events: seq<Emission>) {
    forall i :: 0 <= i < |events| ==> events[i] == Event(MoreThatOneFace)
  }

  /** Warnings complete nothing and finish nothing. */
  lemma {:induction false} WarningsReportNothing(events: seq<Emission>)
    requires OnlyCountWarnings(events)
    ensures Completed(events) == [] && Finishes(events) == 0
  {
    if events != [] {
      WarningsReportNothing(events[..|events| - 1]);
    }
    assert Event(AllMovementSuccess) !in events;
  }

  /**
   * A finished handler stays finished: whatever the frames, its model does
   * not change, it publishes no point, and the only thing it still sends is
   * the `MoreThatOneFace` warning for frames with several faces.
   */
  lemma {:induction false} FinishedIsFinal(m: EulerModel, frames: seq<seq<Face>>)
    requires m.state == None
    ensures var r := RunFrames(m, frames);
      && r.model == m && r.points == [] && OnlyCountWarnings(r.events)
      && Completed(r.events) == [] && Finishes(r.events) == 0
    decreases |frames|
  {
    var r := RunFrames(m, frames);
    if frames != [] {
      FinishedIsFinal(m, frames[1..]);
    }
    WarningsReportNothing(r.events);
  }

  /** One frame, then the rest of the run. */
  lemma RunUnfold(m: EulerModel, frames: seq<seq<Face>>)
    requires frames != []
    ensures var r := RunFrames(m, frames);
      var first := EulerStep(m, frames[0]);
      var rest := RunFrames(first.model, frames[1..]);
      r.model == rest.model && r.events == first.events + rest.events
  {
  }

  /** Finishes adds up over concatenation. */
  lemma FinishesAppend(a: seq<Emission>, b: seq<Emission>)
    ensures Finishes(a + b) == Finishes(a) + Finishes(b)
  {
    assert multiset(a + b) == multiset(a) + multiset(b);
  }

  /** A frame reports success exactly when it finishes the handler, and a finished handler stays finished. */
  lemma StepFinishes(m: EulerModel, faces: seq<Face>)
    ensures var r := EulerStep(m, faces);
      && Finishes(r.events) == (if r.model.state == None && m.state != None then 1 else 0)
      && (m.state == None ==> r.model.state == None)
  {
    StepReports(m, faces);
    if |faces| == 1 && m.state != None {
      match m.state.value
      case CentralizeFace =>
      case MovementFace =>
      case MovementSuccess =>
    }
  }

  /** Being on schedule depends only on the sequence of completed challenges, not on how it was assembled. */
  lemma RegroupDone(m: EulerModel, schedule: seq<HeadMovement>, done: seq<HeadMovement>, a: seq<HeadMovement>, b: seq<HeadMovement>)
    requires OnSchedule(m, schedule, (done + a) + b)
    ensures OnSchedule(m, schedule, done + (a + b))
  {
    assert (done + a) + b == done + (a + b);
  }

  /** Over any run of frames the model stays on its schedule. */
  lemma {:induction false} RunKeepsSchedule(m: EulerModel, schedule: seq<HeadMovement>, done: seq<HeadMovement>, frames: seq<seq<Face>>)
    requires OnSchedule(m, schedule, done)
    ensures var r := RunFrames(m, frames);
      OnSchedule(r.model, schedule, done + Completed(r.events))
    decreases |frames|
  {
    if frames == [] {
      assert done + [] == done;
    } else {
      var first := EulerStep(m, frames[0]);
      var rest := RunFrames(first.model, frames[1..]);
      RunUnfold(m, frames);
      StepKeepsSchedule(m, schedule, done, frames[0]);
      var cf := Completed(first.events);
      RunKeepsSchedule(first.model, schedule, done + cf, frames[1..]);
      CompletedAppend(first.events, rest.events);
      RegroupDone(rest.model, schedule, done, cf, Completed(rest.events));
    }
  }

  /** Over any run of frames `AllMovementSuccess` is reported once if the handler finished during the run, and never otherwise. */
  lemma {:induction false} RunFinishesOnce(m: EulerModel, frames: seq<seq<Face>>)
    ensures var r := RunFrames(m, frames);
      Finishes(r.events) == (if r.model.state == None && m.state != None then 1 else 0)
    decreases |frames|
  {
    if frames != [] {
      var first := EulerStep(m, frames[0]);
      var rest := RunFrames(first.model, frames[1..]);
      RunUnfold(m, frames);
      StepFinishes(m, frames[0]);
      RunFinishesOnce(first.model, frames[1..]);
      FinishesAppend(first.events, rest.events);
      if first.model.state == None {
        FinishedIsFinal(first.model, frames[1..]);
      }
    }
  }

  /** Whatever the model, what it has completed is a prefix of its schedule. */
  lemma ScheduleBoundsProgress(m: EulerModel, schedule: seq<HeadMovement>, done: seq<HeadMovement>)
    requires OnSchedule(m, schedule, done)
    ensures done <= schedule
  {
  }

  /**
   * A whole session from a fresh handler: the directions it reports
   * successful are, in order, a prefix of `[p0, p0, p1, p2, p3]` (the first
   * challenge is asked twice); `AllMovementSuccess` is reported at most once,
   * exactly when the handler has finished, and only after all five.
   */
  lemma SessionFollowsSchedule(shuffled: seq<HeadMovement>, frames: seq<seq<Face>>)
    requires IsShuffle(shuffled)
    ensures var r := RunFrames(InitialModel(shuffled), frames);
      && Completed(r.events) <= Schedule(shuffled)
      && Finishes(r.events) <= 1
      && (Finishes(r.events) == 1 <==> r.model.state == None)
      && (r.model.state == None ==> Completed(r.events) == Schedule(shuffled) && r.model.nextCanHandle)
  {
    var m := InitialModel(shuffled);
    var s := Schedule(shuffled);
    assert OnSchedule(m, s, []);
    RunKeepsSchedule(m, s, [], frames);
    RunFinishesOnce(m, frames);
    var r := RunFrames(m, frames);
    assert [] + Completed(r.events) == Completed(r.events);
    ScheduleBoundsProgress(r.model, s, Completed(r.events));
  }

  /** `EulerMovementIterator`: a queue of shuffled movements and the current one. */
  class EulerMovementIterator {
    var expectedHeadMovements: seq<HeadMovement>
    var currentHeadMovement: HeadMovement

    /** `init`: load the shuffled movements, then peek at the first without removing it. */
    constructor (shuffled: seq<HeadMovement>)
      requires IsShuffle(shuffled)
      ensures expectedHeadMovements == shuffled
      ensures currentHeadMovement == shuffled[0]
    {
      assert |shuffled| == |multiset(shuffled)| == 4;
      expectedHeadMovements := shuffled;
      currentHeadMovement := shuffled[0];
    }

    method HasNext() returns (b: bool)
      ensures b <==> expectedHeadMovements != []
    {
      b := expectedHeadMovements != [];
    }

    /** `removeFirst`, which becomes the current movement. */
    method Next() returns (m: HeadMovement)
      requires expectedHeadMovements != []
      modifies this
      ensures m == old(expectedHeadMovements)[0]
      ensures currentHeadMovement == m
      ensures expectedHeadMovements == old(expectedHeadMovements)[1..]
    {
      m := expectedHeadMovements[0];
      expectedHeadMovements := expectedHeadMovements[1..];
      currentHeadMovement := m;
    }
  }

  class EulerMovementFaceHandler {
    var nextCanHandle: bool
    var state: Option<EulerMovementState>
    const headMovement: EulerMovementIterator
    const supportPointListener: FacePointListener?

    constructor (supportPointListener: FacePointListener?, shuffled: seq<HeadMovement>)
      requires IsShuffle(shuffled)
      ensures Model() == InitialModel(shuffled)
      ensures this.supportPointListener == supportPointListener
      ensures fresh(headMovement)
    {
      nextCanHandle := true;
      state := Some(CentralizeFace);
      headMovement := new EulerMovementIterator(shuffled);
      this.supportPointListener := supportPointListener;
    }

    ghost function Model(): EulerModel
      reads this, headMovement
    {
      EulerModel(nextCanHandle, state, headMovement.currentHeadMovement, headMovement.expectedHeadMovements)
    }

    method NextCanHandle() returns (b: bool)
      ensures b == nextCanHandle
    {
      b := nextCanHandle;
    }

    method Handle(faces: seq<Face>, listener: FaceStateListener)
      modifies this, headMovement, listener, Frame(supportPointListener)
      ensures Model() == EulerStep(old(Model()), faces).model
      ensures listener.events == old(listener.events) + EulerStep(old(Model()), faces).events
      ensures supportPointListener != null ==>
        supportPointListener.updates == old(supportPointListener.updates) + EulerStep(old(Model()), faces).points
    {
      if |faces| > 1 {
        listener.OnFaceStateEvent(MoreThatOneFace, None);
        return;
      }
      if faces == [] {
        return;
      }
      var face := faces[0];
      var isCentralizedFace := IsCentralized(face);

      if state == Some(CentralizeFace) {
        nextCanHandle := false;
        if isCentralizedFace {
          if supportPointListener != null {
            supportPointListener.UpdateFacePoints([SupportPoint(headMovement.currentHeadMovement)]);
          }
          listener.OnFaceStateEvent(Information(MovementMessage(headMovement.currentHeadMovement)), None);
        } else {
          listener.OnFaceStateEvent(Information(MsgCentralizeFace), None);
        }
      }

      match state {
        case Some(CentralizeFace) =>
          if isCentralizedFace {
            state := Some(MovementFace);
          }
        case Some(MovementFace) =>
          if IsExpectedMovementHandled(headMovement.currentHeadMovement, face) {
            listener.OnFaceStateEvent(ToFaceState(headMovement.currentHeadMovement), None);
            state := Some(MovementSuccess);
          }
        case Some(MovementSuccess) =>
          var hasNext := headMovement.HasNext();
          if hasNext {
            var _ := headMovement.Next();
            state := Some(CentralizeFace);
          } else {
            listener.OnFaceStateEvent(AllMovementSuccess, None);
            listener.OnFaceStateEvent(Information(MsgAllMovementsDone), None);
            nextCanHandle := true;
            state := None;
          }
        case None =>
      }
    }
  }

}
