/**
 * The values the face detector hands to the handlers, and the Android
 * geometry types they use: `android.graphics.Rect`, `PointF` and ML Kit's
 * `Face`.
 */
module Vision {

  import opened Wrappers
  import opened KotlinInt

  /** `android.graphics.Rect`: integer edges, `right` and `bottom` exclusive. */
  datatype Rect = Rect(left: Int32, top: Int32, right: Int32, bottom: Int32) {

    /** `Rect.isEmpty`: no width or no height. */
    predicate IsEmpty() {
      left >= right || top >= bottom
    }
  }

  /** `Rect()`: every edge zero. */
  const EMPTY_RECT: Rect := Rect(0, 0, 0, 0)

  /** `android.graphics.PointF`, an on-screen marker position. */
  datatype Point = Point(x: real, y: real)

  /**
   * One face of a detector result: bounding box in frame pixels, the
   * tracking id (absent unless tracking is enabled), and the head Euler
   * angles about the X axis (pitch) and the Y axis (yaw), in degrees.
   */
  datatype Face = Face(box: Rect, trackingId: Option<int>, eulerX: real, eulerY: real)

  /** What the detector's task delivers for one frame: the faces, or the failure's message. */
  datatype DetectorResult = Detected(faces: seq<Face>) | Failed(message: Option<string>)

}
