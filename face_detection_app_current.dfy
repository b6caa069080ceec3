/**
 * The app's `analyzeImage` in `features/face_detection`: no width filter; a lone face is
 * reported with the frame dimensions as seen upright.
 */
module AppFaceDetection {
  import opened Wrappers
  import opened Graphics
  import opened MlKit

  datatype FaceAnalyzerResult = MultipleFaceInsideFrame | NoFaceDetected | Error(error: string)
                              | FaceDetected(boundaries: Rect, imageWidth: int, imageHeight: int, image: Bitmap)

  /**
   * `analyzeImage(image, allowedFaceWidth, callback)`, the callback's argument as the result
   * (`None`: never called). Any lone face is accepted; `allowedFaceWidth` is unused.
   */
  function AnalyzeImage(frame: Frame, detector: Detector, allowedFaceWidth: real): (r: Option<FaceAnalyzerResult>)
    ensures r.None? <==> !frame.hasMediaImage
    ensures frame.hasMediaImage && detector(frame, false).DetectorFailure? ==>
      r == Some(Error(detector(frame, false).message))
    ensures frame.hasMediaImage && detector(frame, false).DetectorSuccess? ==>
      var faces := detector(frame, false).faces;
      (|faces| == 0 ==> r == Some(NoFaceDetected))
      && (|faces| > 1 ==> r == Some(MultipleFaceInsideFrame))
      && (|faces| == 1 ==> r.value.FaceDetected? && r.value.boundaries == faces[0].boundingBox
                           && r.value.image == UprightBitmap(frame))
    ensures r.Some? && r.value.FaceDetected? ==>
      if IsLandscapeRotation(frame.rotationDegrees) then (r.value.imageWidth, r.value.imageHeight) == (frame.width, frame.height)
      else (r.value.imageWidth, r.value.imageHeight) == (frame.height, frame.width)
  {
    if !frame.hasMediaImage then None
    else
      match detector(frame, false)
      case DetectorFailure(message) => Some(Error(message))
      case DetectorSuccess(faces) =>
        if |faces| == 0 then Some(NoFaceDetected)
        else if |faces| > 1 then Some(MultipleFaceInsideFrame)
        else
          var face := faces[0];
          if frame.rotationDegrees == 0 || frame.rotationDegrees == 180 then
            Some(FaceDetected(face.boundingBox, frame.width, frame.height, UprightBitmap(frame)))
          else
            Some(FaceDetected(face.boundingBox, frame.height, frame.width, UprightBitmap(frame)))
  }
}

