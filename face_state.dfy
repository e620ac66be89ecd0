/**
 * `FaceState`: the closed vocabulary of events the handlers send to the
 * listener. Kotlin spells it as a sealed class with nested sealed
 * categories; here it is one datatype, with the category membership each
 * object really has kept as data (`Supertypes`).
 */
module FaceStates {

  /** The string resources the handlers send inside `Information` events. */
  datatype StringRes =
    | MsgMoveToRight      // R.string.euler_movement_move_to_right
    | MsgMoveToLeft       // R.string.euler_movement_move_to_left
    | MsgMoveToTop        // R.string.euler_movement_move_to_top
    | MsgMoveToBottom     // R.string.euler_movement_move_to_bottom
    | MsgCentralizeFace   // R.string.euler_movement_centralize_face
    | MsgAllMovementsDone // R.string.euler_movement_all_movements_done

  datatype FaceState =
    | Error
    | NoFace
    | FaceDetected
    | MoreThatOneFace
    | Blinked
    | Smile
    | MouthMoved
    | RightMovementSuccess
    | LeftMovementSuccess
    | UpMovementSuccess
    | DownMovementSuccess
    | AllMovementSuccess
    | FaceInsideRegion
    | FaceOutsideRegion
    | Information(message: StringRes)

  /** The sealed classes of the Kotlin hierarchy. */
  datatype SealedClass = FaceStateClass | FaceCountClass | MovementClass | EulerMovementClass | RegionClass

  /** The `name` each object passes to its superclass constructor. */
  function Name(s: FaceState): string {
    match s
    case Error => "Error"
    case NoFace => "NoFace"
    case FaceDetected => "FaceDetected"
    case MoreThatOneFace => "MoreThatOneFace"
    case Blinked => "Blinked"
    case Smile => "Smile"
    case MouthMoved => "MouthMoved"
    case RightMovementSuccess => "EulerRightMovement"
    case LeftMovementSuccess => "EulerLeftMovement"
    case UpMovementSuccess => "EulerUpMovement"
    case DownMovementSuccess => "EulerDownMovement"
    case AllMovementSuccess => "AllMovementSuccess"
    case FaceInsideRegion => "FaceInsideRegion"
    case FaceOutsideRegion => "FaceOutsideRegion"
    case Information(_) => "Information"
  }

  /**
   * The classes each object is an instance of. The objects nested inside
   * `FaceCount`, `Region` and (except the Euler ones) `Movement` extend
   * `FaceState` directly, so only the five Euler objects are `Movement`s.
   */
  function Supertypes(s: FaceState): set<SealedClass> {
    match s
    case RightMovementSuccess => {FaceStateClass, MovementClass, EulerMovementClass}
    case LeftMovementSuccess => {FaceStateClass, MovementClass, EulerMovementClass}
    case UpMovementSuccess => {FaceStateClass, MovementClass, EulerMovementClass}
    case DownMovementSuccess => {FaceStateClass, MovementClass, EulerMovementClass}
    case AllMovementSuccess => {FaceStateClass, MovementClass, EulerMovementClass}
    case _ => {FaceStateClass}
  }

  /** `s is FaceState.Movement.EulerMovement`. */
  predicate IsEulerMovement(s: FaceState) {
    EulerMovementClass in Supertypes(s)
  }

  /** Every object is a `FaceState`; `Movement` and `EulerMovement` have the same five instances; `FaceCount` and `Region` have none. */
  lemma SealedHierarchy(s: FaceState)
    ensures FaceStateClass in Supertypes(s)
    ensures MovementClass in Supertypes(s) <==> IsEulerMovement(s)
    ensures IsEulerMovement(s) <==>
      s in {RightMovementSuccess, LeftMovementSuccess, UpMovementSuccess, DownMovementSuccess, AllMovementSuccess}
    ensures FaceCountClass !in Supertypes(s) && RegionClass !in Supertypes(s)
  {
  }

  /** Names tell the objects apart; every `Information` shares the name "Information". */
  lemma {:induction false} NamesIdentifyObjects(a: FaceState, b: FaceState)
    ensures Name(a) == Name(b) <==> a == b || (a.Information? && b.Information?)
  {
    if Name(a) == Name(b) && !a.Information? {
      assert Name(a)[|Name(a)| - 1] == Name(b)[|Name(b)| - 1];
    }
  }

  /** `Information` is a data class: two of them are equal exactly when their message ids are. */
  lemma InformationEquality(m1: StringRes, m2: StringRes)
    ensures Information(m1) == Information(m2) <==> m1 == m2
  {
  }

}
