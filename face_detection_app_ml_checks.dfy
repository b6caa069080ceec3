/**
 * The app's `analyzeImage` in `features/ml_checks/face_detection`: like the library's
 * `detectFace` but without classification, with a literal 0.30 width bound that ignores its
 * `allowedFaceWidth` parameter, and rejecting only ratios strictly below the bound.
 */
module AppMlChecksFaceDetection {
  import opened Wrappers
  import opened Graphics
  import opened MlKit
  import LibFaceDetection

  datatype FaceDetectionResult = MultipleFaceInsideFrame | NoFaceDetected | Error(error: string)
                               | FaceDetected(boundaries: Rect, image: Bitmap)

  /** The bound the code compares against, whatever `allowedFaceWidth` says. */
  const MinimumFaceWidthRatio: real := 0.30

  /** Whether the face width over the frame dimension across the face is below 0.30. */
  predicate IsFaceTooNarrow(frame: Frame, faceWidth: int)
  {
    if frame.rotationDegrees == 0 || frame.rotationDegrees == 180 then
      faceWidth as real / frame.width as real < MinimumFaceWidthRatio
    else
      faceWidth as real / frame.height as real < MinimumFaceWidthRatio
  }

  /**
   * `analyzeImage(image, allowedFaceWidth, callback)`, the callback's argument as the result
   * (`None`: never called). Classification is never requested.
   */
  function AnalyzeImage(frame: Frame, detector: Detector, allowedFaceWidth: real): (r: Option<FaceDetectionResult>)
    ensures r.None? <==> !frame.hasMediaImage
    ensures frame.hasMediaImage && detector(frame, false).DetectorFailure? ==>
      r == Some(Error(detector(frame, false).message))
    ensures frame.hasMediaImage && detector(frame, false).DetectorSuccess? ==>
      var faces := detector(frame, false).faces;
      (|faces| == 0 ==> r == Some(NoFaceDetected))
      && (|faces| > 1 ==> r == Some(MultipleFaceInsideFrame))
      && (|faces| == 1 ==>
            var dimension := if IsLandscapeRotation(frame.rotationDegrees) then frame.width else frame.height;
            if faces[0].boundingBox.Width() as real >= MinimumFaceWidthRatio * dimension as real
            then r == Some(FaceDetected(faces[0].boundingBox, UprightBitmap(frame)))
            else r == Some(NoFaceDetected))
  {
    if !frame.hasMediaImage then None
    else
      match detector(frame, false)
      case DetectorFailure(message) => Some(Error(message))
      case DetectorSuccess(faces) =>
        if |faces| == 0 then Some(NoFaceDetected)
        else if |faces| > 1 then Some(MultipleFaceInsideFrame)
        else
          var face := faces[0];
          if IsFaceTooNarrow(frame, face.boundingBox.Width()) then Some(NoFaceDetected)
          else Some(FaceDetected(face.boundingBox, UprightBitmap(frame)))
  }

  /** `allowedFaceWidth` has no effect on the result. */
  lemma AllowedFaceWidthIsIgnored(frame: Frame, detector: Detector, allowedFaceWidth: real, otherAllowedFaceWidth: real)
    ensures AnalyzeImage(frame, detector, allowedFaceWidth) == AnalyzeImage(frame, detector, otherAllowedFaceWidth)
  {
  }

  /**
   * Against the library's `detectFace` with its default width bound (and no classification),
   * a lone face is accepted by exactly the same frames except one whose ratio is exactly
   * 0.30, which this revision accepts and the library rejects.
   */
  lemma AgreesWithLibraryExceptAtTheBound(frame: Frame, detector: Detector, elapsedRealtime: int)
    requires frame.hasMediaImage && detector(frame, false).DetectorSuccess? && |detector(frame, false).faces| == 1
    ensures var faceWidth := detector(frame, false).faces[0].boundingBox.Width();
      var dimension := if IsLandscapeRotation(frame.rotationDegrees) then frame.width else frame.height;
      var app := AnalyzeImage(frame, detector, LibFaceDetection.DefaultAllowedFaceWidth).value;
      var library := LibFaceDetection.DetectFace(frame, detector, false, LibFaceDetection.DefaultAllowedFaceWidth,
                                                 LibFaceDetection.DefaultFeatureThreshold, elapsedRealtime).value;
      (app.FaceDetected? <==> library.Detected? || faceWidth as real == MinimumFaceWidthRatio * dimension as real)
      && (app.FaceDetected? && library.Detected? ==> app.boundaries == library.face.boundaries && app.image == library.face.image)
  {
  }
}

