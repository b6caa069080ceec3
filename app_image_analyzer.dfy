/**
 * The app's `ImageAnalyzer`: a camera analyzer that detects faces with the app's
 * own `analyzeImage` (no classification, no head angle), then crops, classifies and
 * matches every detected face against the enrolled gallery with the L2 metric. It
 * emits the camera package's result type, whose classified face has no angle.
 */
module AppImageAnalyzer {
  import opened Wrappers
  import opened Graphics
  import opened Verification
  import opened MlKit
  import Analysis
  import AppMlChecksFaceDetection
  import Gallery
  import FaceNetFaceRecognition

  /** `camera.FaceClassifierResult`, as the analyzer builds it. */
  datatype FaceClassifierResult =
    | NoFaceDetected
    | Error(message: string)
    | FaceClassified(boundaries: Rect, image: Bitmap, croppedImage: Bitmap,
                     emotions: seq<ClassifierResult>, name: string)

  /** The `when (it)` routing; a detected face (`None`) is handed to `analyzeFace`. */
  function Routed(result: AppMlChecksFaceDetection.FaceDetectionResult): (r: Option<FaceClassifierResult>)
    ensures r.None? <==> result.FaceDetected?
    ensures result.Error? ==> r == Some(FaceClassifierResult.Error(result.error))
    ensures result.MultipleFaceInsideFrame? ==> r == Some(FaceClassifierResult.Error(Analysis.MultipleFacesMessage))
    ensures result.NoFaceDetected? ==> r == Some(FaceClassifierResult.NoFaceDetected)
  {
    match result
    case Error(error) => Some(FaceClassifierResult.Error(error))
    case FaceDetected(_, _) => None
    case MultipleFaceInsideFrame => Some(FaceClassifierResult.Error(Analysis.MultipleFacesMessage))
    case NoFaceDetected => Some(FaceClassifierResult.NoFaceDetected)
  }

  /**
   * `r` is the identification of the face at `boundaries` in `image`: the crop with
   * its emotions, and a name the L2 selection rule picks for the crop's embedding.
   */
  ghost predicate IsIdentification(classifier: Analysis.EmotionClassifier, faceRecognition: FaceRecognition,
                                   gallery: seq<Gallery.FaceRecognitionResult>, boundaries: Rect, image: Bitmap,
                                   r: FaceClassifierResult)
    requires Analysis.Fits(classifier)
  {
    var croppedImage := CropBitmap(image, boundaries);
    var subject := faceRecognition.embed(croppedImage);
    && r.FaceClassified?
    && r == FaceClassified(boundaries, image, croppedImage, Analysis.Emotions(classifier, croppedImage), r.name)
    && Gallery.Comparable(gallery, subject)
    && Gallery.IsBestName(FaceNetFaceRecognition.L2, Gallery.Averages(gallery, subject, faceRecognition.sqrt), r.name)
  }

  class ImageAnalyzer {
    const detector: Detector
    const classifier: Analysis.EmotionClassifier
    /** `faceList` and `nameScoreHashmap`. */
    const matcher: Gallery.FaceMatcher
    var isProcessing: bool
    /** The detection result whose callback has not run yet. */
    var pending: Option<AppMlChecksFaceDetection.FaceDetectionResult>
    /** Everything emitted on `resultFlow`, oldest first. */
    var resultFlow: seq<FaceClassifierResult>

    ghost predicate Valid()
      reads this, matcher
    {
      && matcher.Valid() && FixedDimension(matcher.faceRecognition)
      && Analysis.Fits(classifier)
      && (pending.Some? ==> isProcessing)
    }

    /** Busy with no callback to come: every later frame is dropped. */
    predicate Stuck()
      reads this
    {
      isProcessing && pending.None?
    }

    constructor (faceRecognition: FaceRecognition, detector: Detector, classifier: Analysis.EmotionClassifier)
      requires FixedDimension(faceRecognition) && Analysis.Fits(classifier)
      ensures Valid() && fresh(matcher)
      ensures this.detector == detector && this.classifier == classifier
      ensures matcher.faceRecognition == faceRecognition && matcher.faceList == []
      ensures !isProcessing && pending.None? && resultFlow == []
    {
      this.detector := detector;
      this.classifier := classifier;
      matcher := new Gallery.FaceMatcher(faceRecognition);
      isProcessing := false;
      pending := None;
      resultFlow := [];
    }

    /** `addImageToFaceList`: enrols the embedding of `bitmap` under `name`. */
    method AddImageToFaceList(bitmap: Bitmap, name: string)
      requires Valid()
      modifies matcher
      ensures Valid()
      ensures matcher.faceList == old(matcher.faceList) + [Gallery.FaceRecognitionResult(name, matcher.faceRecognition.embed(bitmap))]
    {
      matcher.AddImageToFaceList(bitmap, name);
    }

    /**
     * `analyze`: a frame arriving while another is in process is dropped; otherwise
     * the app's detector runs with its default width bound.
     */
    method Analyze(frame: Frame)
      requires Valid()
      modifies this
      ensures Valid()
      ensures old(isProcessing) ==> unchanged(this)
      ensures !old(isProcessing) ==>
        && isProcessing
        && pending == AppMlChecksFaceDetection.AnalyzeImage(frame, detector, AppMlChecksFaceDetection.MinimumFaceWidthRatio)
        && (!frame.hasMediaImage ==> Stuck())
      ensures resultFlow == old(resultFlow)
    {
      if isProcessing {
        return;
      }
      isProcessing := true;
      pending := AppMlChecksFaceDetection.AnalyzeImage(frame, detector, AppMlChecksFaceDetection.MinimumFaceWidthRatio);
    }

    /**
     * The callback's coroutine: an error, several faces or no face are emitted; a
     * detected face is identified and the identification emitted. Matching against
     * an empty gallery throws, so the analyzer is never freed.
     */
    method OnFaceAnalysisResult()
      requires Valid()
      modifies this, matcher
      ensures Valid() && matcher.faceList == old(matcher.faceList)
      ensures old(pending).None? ==> unchanged(this)
      ensures old(pending).Some? ==> pending.None?
      ensures old(pending).Some? && Routed(old(pending).value).Some? ==>
        !isProcessing && resultFlow == old(resultFlow) + [Routed(old(pending).value).value]
      ensures old(pending).Some? && old(pending).value.FaceDetected? && matcher.faceList == [] ==>
        Stuck() && resultFlow == old(resultFlow)
      ensures old(pending).Some? && old(pending).value.FaceDetected? && matcher.faceList != [] ==>
        && !isProcessing
        && |resultFlow| == |old(resultFlow)| + 1
        && resultFlow[..|old(resultFlow)|] == old(resultFlow)
        && IsIdentification(classifier, matcher.faceRecognition, matcher.faceList,
                            old(pending).value.boundaries, old(pending).value.image, resultFlow[|old(resultFlow)|])
    {
      if pending.None? {
        return;
      }
      var result := pending.value;
      pending := None;
      var routed := Routed(result);
      if routed.Some? {
        resultFlow := resultFlow + [routed.value];
      } else {
        var croppedBitmap := CropBitmap(result.image, result.boundaries);
        var emotions := Analysis.Emotions(classifier, croppedBitmap);
        var embedding := matcher.faceRecognition.embed(croppedBitmap);
        var userName := matcher.CheckFaceSimilarity(embedding);
        if userName.Failure? {
          return;
        }
        resultFlow := resultFlow + [FaceClassified(result.boundaries, result.image, croppedBitmap, emotions, userName.value)];
      }
      isProcessing := false;
    }
  }
}
