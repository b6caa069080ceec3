/**
 * The library's `detectFace`: classifies one camera frame by the faces the detector found,
 * filtering out faces that are too narrow and thresholding the classification probabilities.
 */
module LibFaceDetection {
  import opened Wrappers
  import opened Graphics
  import opened MlKit
  import Verification
  import opened Numbers

  /** `FaceDetectionResult`; a detected face is the shared `FaceDetected` observation. */
  datatype FaceDetectionResult = MultipleFaceInsideFrame | NoFaceDetected | Error(error: string)
                               | Detected(face: Verification.FaceDetected)

  const DefaultAllowedFaceWidth: real := 0.3
  const DefaultFeatureThreshold: real := 0.5

  /** `actualValue?.compareTo(threshold) == 1`: a present value strictly above the threshold. */
  function CheckFeatureOverThreshold(actualValue: Option<real>, threshold: real): (over: bool)
    ensures over <==> actualValue.Some? && actualValue.value > threshold
  {
    match actualValue
    case None => false
    case Some(value) => value > threshold
  }

  /**
   * `isFaceWideEnough`: the face width divided by the frame width (rotation 0 or 180) or the
   * frame height (any other rotation) strictly exceeds `allowedFaceWidth`.
   */
  function IsFaceWideEnough(rotationDegrees: int, faceWidth: int, frame: Frame, allowedFaceWidth: real): (wide: bool)
    ensures wide <==> faceWidth as real > allowedFaceWidth * (if IsLandscapeRotation(rotationDegrees) then frame.width else frame.height) as real
  {
    if rotationDegrees == 0 || rotationDegrees == 180 then
      faceWidth as real / frame.width as real > allowedFaceWidth
    else
      faceWidth as real / frame.height as real > allowedFaceWidth
  }

  /**
   * `detectFace(image, detectSmilingOrEyesOpen, allowedFaceWidth, featureThreshold, callback)`,
   * with the callback's argument as the result: `None` when the callback is never called.
   * `elapsedRealtime` is the clock reading stamped on a detected face.
   */
  function DetectFace(frame: Frame, detector: Detector, detectSmilingOrEyesOpen: bool,
                      allowedFaceWidth: real, featureThreshold: real, elapsedRealtime: int): (r: Option<FaceDetectionResult>)
    ensures r.None? <==> !frame.hasMediaImage
    ensures frame.hasMediaImage && detector(frame, detectSmilingOrEyesOpen).DetectorFailure? ==>
      r == Some(Error(detector(frame, detectSmilingOrEyesOpen).message))
    ensures frame.hasMediaImage && detector(frame, detectSmilingOrEyesOpen).DetectorSuccess? ==>
      var faces := detector(frame, detectSmilingOrEyesOpen).faces;
      (|faces| == 0 ==> r == Some(NoFaceDetected))
      && (|faces| > 1 ==> r == Some(MultipleFaceInsideFrame))
      && (|faces| == 1 && !IsFaceWideEnough(frame.rotationDegrees, faces[0].boundingBox.Width(), frame, allowedFaceWidth) ==>
            r == Some(NoFaceDetected))
      && (|faces| == 1 && IsFaceWideEnough(frame.rotationDegrees, faces[0].boundingBox.Width(), frame, allowedFaceWidth) ==>
            r.value.Detected?
            && r.value.face.boundaries == faces[0].boundingBox
            && r.value.face.image == UprightBitmap(frame)
            && r.value.face.headAngle == RoundToInt(faces[0].headEulerAngleY)
            && r.value.face.processedTimeStamp == elapsedRealtime
            && r.value.face.smiling == Some(CheckFeatureOverThreshold(faces[0].smilingProbability, featureThreshold))
            && r.value.face.eyesOpen == Some(CheckFeatureOverThreshold(faces[0].rightEyeOpenProbability, featureThreshold)
                                             && CheckFeatureOverThreshold(faces[0].leftEyeOpenProbability, featureThreshold)))
  {
    if !frame.hasMediaImage then None
    else
      match detector(frame, detectSmilingOrEyesOpen)
      case DetectorFailure(message) => Some(Error(message))
      case DetectorSuccess(faces) =>
        if |faces| == 0 then Some(NoFaceDetected)
        else if |faces| > 1 then Some(MultipleFaceInsideFrame)
        else
          var face := faces[0];
          var isSmiling := CheckFeatureOverThreshold(face.smilingProbability, featureThreshold);
          var areEyesOpen := CheckFeatureOverThreshold(face.rightEyeOpenProbability, featureThreshold)
                             && CheckFeatureOverThreshold(face.leftEyeOpenProbability, featureThreshold);
          if IsFaceWideEnough(frame.rotationDegrees, face.boundingBox.Width(), frame, allowedFaceWidth) then
            Some(Detected(Verification.FaceDetected(face.boundingBox, UprightBitmap(frame), RoundToInt(face.headEulerAngleY),
                                                    elapsedRealtime, Some(isSmiling), Some(areEyesOpen))))
          else Some(NoFaceDetected)
  }

  /**
   * A detected face always carries a smiling and an eyes-open verdict; a probability the
   * detector did not report counts as not smiling / eyes not open.
   */
  lemma DetectedFeaturesAreNeverNull(frame: Frame, detector: Detector, detectSmilingOrEyesOpen: bool,
                                     allowedFaceWidth: real, featureThreshold: real, elapsedRealtime: int)
    requires var r := DetectFace(frame, detector, detectSmilingOrEyesOpen, allowedFaceWidth, featureThreshold, elapsedRealtime);
      r.Some? && r.value.Detected?
    ensures var face := DetectFace(frame, detector, detectSmilingOrEyesOpen, allowedFaceWidth, featureThreshold, elapsedRealtime).value.face;
      var found := detector(frame, detectSmilingOrEyesOpen).faces[0];
      face.smiling.Some? && face.eyesOpen.Some?
      && (found.smilingProbability.None? ==> face.smiling == Some(false))
      && (found.leftEyeOpenProbability.None? || found.rightEyeOpenProbability.None? ==> face.eyesOpen == Some(false))
  {
  }
}
