/**
 * The app's `ImageAnalyzerCommon`: a camera analyzer for one fixed detection
 * option that it never reads. Every frame is detected without smile or eye
 * classification, and every detected face is cropped, classified and matched
 * against the enrolled gallery with the L2 metric.
 */
module AppImageAnalyzerCommon {
  import opened Wrappers
  import opened Graphics
  import opened Verification
  import opened MlKit
  import opened Analysis
  import LibFaceDetection
  import Gallery

  class ImageAnalyzerCommon {
    const detector: Detector
    const classifier: EmotionClassifier
    /** `faceList` and `nameScoreHashmap`. */
    const matcher: Gallery.FaceMatcher
    var isProcessing: bool
    /** The detection result whose callback has not run yet. */
    var pending: Option<LibFaceDetection.FaceDetectionResult>
    /** Everything emitted on `resultFlow`, oldest first. */
    var resultFlow: seq<FaceClassifierResult>

    ghost predicate Valid()
      reads this, matcher
    {
      && matcher.Valid() && FixedDimension(matcher.faceRecognition)
      && Fits(classifier)
      && (pending.Some? ==> isProcessing)
    }

    /** Busy with no callback to come: every later frame is dropped. */
    predicate Stuck()
      reads this
    {
      isProcessing && pending.None?
    }

    constructor (faceRecognition: FaceRecognition, detector: Detector, classifier: EmotionClassifier)
      requires FixedDimension(faceRecognition) && Fits(classifier)
      ensures Valid() && fresh(matcher)
      ensures this.detector == detector && this.classifier == classifier
      ensures matcher.faceRecognition == faceRecognition && matcher.faceList == []
      ensures !isProcessing && pending.None? && resultFlow == []
    {
      this.detector := detector;
      this.classifier := classifier;
      matcher := new Gallery.FaceMatcher(faceRecognition);
      isProcessing := false;
      pending := None;
      resultFlow := [];
    }

    /** `addImageToFaceList`: enrols the embedding of `bitmap` under `name`. */
    method AddImageToFaceList(bitmap: Bitmap, name: string)
      requires Valid()
      modifies matcher
      ensures Valid()
      ensures matcher.faceList == old(matcher.faceList) + [Gallery.FaceRecognitionResult(name, matcher.faceRecognition.embed(bitmap))]
    {
      matcher.AddImageToFaceList(bitmap, name);
    }

    /**
     * `analyze`: a frame arriving while another is in process is dropped; otherwise
     * the detector runs with its default bounds and no classification.
     */
    method Analyze(frame: Frame, elapsedRealtime: int)
      requires Valid()
      modifies this
      ensures Valid()
      ensures old(isProcessing) ==> unchanged(this)
      ensures !old(isProcessing) ==>
        && isProcessing
        && pending == LibFaceDetection.DetectFace(frame, detector, false, LibFaceDetection.DefaultAllowedFaceWidth,
                                                  LibFaceDetection.DefaultFeatureThreshold, elapsedRealtime)
        && (!frame.hasMediaImage ==> Stuck())
      ensures resultFlow == old(resultFlow)
    {
      if isProcessing {
        return;
      }
      isProcessing := true;
      pending := LibFaceDetection.DetectFace(frame, detector, false, LibFaceDetection.DefaultAllowedFaceWidth,
                                             LibFaceDetection.DefaultFeatureThreshold, elapsedRealtime);
    }

    /**
     * The callback's coroutine: an error, several faces or no face are emitted; a
     * detected face is identified and the identification emitted. Matching against
     * an empty gallery throws, so the analyzer is never freed.
     */
    method OnFaceAnalysisResult()
      requires Valid()
      modifies this, matcher
      ensures Valid() && matcher.faceList == old(matcher.faceList)
      ensures old(pending).None? ==> unchanged(this)
      ensures old(pending).Some? ==> pending.None?
      ensures old(pending).Some? && Routed(old(pending).value).Some? ==>
        !isProcessing && resultFlow == old(resultFlow) + [Routed(old(pending).value).value]
      ensures old(pending).Some? && old(pending).value.Detected? && matcher.faceList == [] ==>
        Stuck() && resultFlow == old(resultFlow)
      ensures old(pending).Some? && old(pending).value.Detected? && matcher.faceList != [] ==>
        && !isProcessing
        && |resultFlow| == |old(resultFlow)| + 1
        && resultFlow[..|old(resultFlow)|] == old(resultFlow)
        && IsIdentification(classifier, matcher.faceRecognition, matcher.faceList, old(pending).value.face,
                            resultFlow[|old(resultFlow)|])
    {
      if pending.None? {
        return;
      }
      var result := pending.value;
      pending := None;
      var routed := Routed(result);
      if routed.Some? {
        resultFlow := resultFlow + [routed.value];
      } else {
        var classified := ClassifyAndMatch(classifier, matcher, result.face);
        if classified.None? {
          return;
        }
        resultFlow := resultFlow + [classified.value];
      }
      isProcessing := false;
    }
  }
}
