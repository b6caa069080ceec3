/**
 * The camera frame and the ML Kit face detector as the detection code sees them. The
 * detector is an input: for a frame and a classification mode it either fails with a
 * message or returns the faces it found.
 */
module MlKit {
  import opened Wrappers
  import opened Graphics

  /** Frame dimensions in pixels; a camera frame is never empty. */
  type Dimension = x: int | x > 0 witness 1

  /**
   * `ImageProxy`: whether it carries a media image, its size, its rotation and an
   * identifier standing for its pixels (the upright bitmap is `CameraFrame(frameId)`).
   */
  datatype Frame = Frame(hasMediaImage: bool, width: Dimension, height: Dimension, rotationDegrees: int, frameId: nat)

  /** One ML Kit `Face`: its box, its yaw in degrees and its optional classification probabilities. */
  datatype DetectedFace = DetectedFace(
    boundingBox: Rect,
    headEulerAngleY: real,
    smilingProbability: Option<real>,
    leftEyeOpenProbability: Option<real>,
    rightEyeOpenProbability: Option<real>)

  /** What `detector.process(inputImage)` delivers: the success or the failure listener's argument. */
  datatype DetectorOutcome = DetectorSuccess(faces: seq<DetectedFace>) | DetectorFailure(message: string)

  /** The detector, given the frame and whether smiling/eye classification is requested. */
  type Detector = (Frame, bool) -> DetectorOutcome

  /** `ImageConvertUtils.getUpRightBitmap(inputImage)`. */
  function UprightBitmap(frame: Frame): Bitmap
  {
    CameraFrame(frame.frameId)
  }

  /** Whether the frame is upright or upside down, so that its width runs across the face. */
  predicate IsLandscapeRotation(rotationDegrees: int)
  {
    rotationDegrees == 0 || rotationDegrees == 180
  }
}
