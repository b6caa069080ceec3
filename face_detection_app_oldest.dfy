/**
 * The app's oldest `analyzeImage` in `features/facedetection`: a lone face is reported with
 * its box and the frame dimensions as seen upright, without any bitmap.
 */
module AppFacedetection {
  import opened Wrappers
  import opened Graphics
  import opened MlKit
  import AppFaceDetection

  datatype FaceAnalyzerResult = MultipleFaceInsideFrame | NoFaceDetected | Error(error: string)
                              | FaceDetected(boundaries: Rect, imageWidth: int, imageHeight: int)

  /** `analyzeImage(image, myCode)`, the callback's argument as the result (`None`: never called). */
  function AnalyzeImage(frame: Frame, detector: Detector): (r: Option<FaceAnalyzerResult>)
    ensures r.None? <==> !frame.hasMediaImage
    ensures frame.hasMediaImage && detector(frame, false).DetectorFailure? ==>
      r == Some(Error(detector(frame, false).message))
    ensures frame.hasMediaImage && detector(frame, false).DetectorSuccess? ==>
      var faces := detector(frame, false).faces;
      (|faces| == 0 ==> r == Some(NoFaceDetected))
      && (|faces| > 1 ==> r == Some(MultipleFaceInsideFrame))
      && (|faces| == 1 ==> r.value.FaceDetected? && r.value.boundaries == faces[0].boundingBox)
    ensures r.Some? && r.value.FaceDetected? ==>
      if IsLandscapeRotation(frame.rotationDegrees) then (r.value.imageWidth, r.value.imageHeight) == (frame.width, frame.height)
      else (r.value.imageWidth, r.value.imageHeight) == (frame.height, frame.width)
  {
    if !frame.hasMediaImage then None
    else
      match detector(frame, false)
      case DetectorFailure(message) => Some(Error(message))
      case DetectorSuccess(faces) =>
        if |faces| == 0 then Some(NoFaceDetected)
        else if |faces| > 1 then Some(MultipleFaceInsideFrame)
        else
          var face := faces[0];
          if frame.rotationDegrees == 0 || frame.rotationDegrees == 180 then
            Some(FaceDetected(face.boundingBox, frame.width, frame.height))
          else
            Some(FaceDetected(face.boundingBox, frame.height, frame.width))
  }

  /**
   * The later `features/face_detection` revision classifies every frame the same way and
   * reports the same box and dimensions, adding only the upright bitmap.
   */
  lemma SameAsLaterRevision(frame: Frame, detector: Detector, allowedFaceWidth: real)
    ensures var older := AnalyzeImage(frame, detector);
      var later := AppFaceDetection.AnalyzeImage(frame, detector, allowedFaceWidth);
      older.Some? == later.Some?
      && (older.Some? ==>
            match older.value
            case MultipleFaceInsideFrame => later.value == AppFaceDetection.MultipleFaceInsideFrame
            case NoFaceDetected => later.value == AppFaceDetection.NoFaceDetected
            case Error(e) => later.value == AppFaceDetection.Error(e)
            case FaceDetected(box, w, h) => later.value == AppFaceDetection.FaceDetected(box, w, h, UprightBitmap(frame)))
  {
  }
}
