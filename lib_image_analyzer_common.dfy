/**
 * The library's `ImageAnalyzerCommon`: the `ImageAnalyzer` frame gate and flow
 * dispatch, plus an enrolled-face gallery. Outside debug mode a detected face goes
 * to the current challenge flow; in debug mode it is cropped, its emotions are
 * classified, it is matched against the gallery, and the result is emitted.
 */
module LibImageAnalyzerCommon {
  import opened Wrappers
  import opened Graphics
  import opened Verification
  import opened MlKit
  import opened Analysis
  import opened FlowDispatch
  import LibFaceDetection
  import Gallery

  class ImageAnalyzerCommon {
    const config: FlowsConfig
    const detector: Detector
    const debugMode: bool
    /** The emotion classifier run on cropped faces in debug mode. */
    const classifier: EmotionClassifier
    /** `faceList` and `nameScoreHashmap`. */
    const matcher: Gallery.FaceMatcher
    var detectionOption: LivelinessDetectionOption
    /** The replay cache of `verificationFlow`: `None` until it is first collected. */
    var flow: Option<FlowRef>
    /** The latest face `combine` has seen; it is handed to every flow built later. */
    var lastFace: Option<FaceDetected>
    var isProcessing: bool
    /** The detection result whose callback has not run yet. */
    var pending: Option<LibFaceDetection.FaceDetectionResult>
    /** Everything emitted on `resultFlow`, oldest first. */
    var resultFlow: seq<FaceClassifierResult>
    ghost var Repr: set<object>

    ghost predicate Valid()
      reads this, Repr
    {
      && (flow.Some? && flow.value.AngledFacesWithSmileFlow? ==> flow.value.composite in Repr)
      && Repr == Objects(flow) + {matcher}
      && this !in Repr && matcher !in Objects(flow)
      && matcher.Valid() && matcher.faceRecognition == config.faceRecognition
      && ValidConfig(config) && Fits(classifier)
      && HasFlow(detectionOption)
      && (flow.Some? ==> FlowValid(config, flow.value) && OptionOf(flow.value) == detectionOption)
      && (pending.Some? ==> isProcessing)
    }

    /** The current flow's state, if the flow exists. */
    function FlowStateOf(): Option<FlowState>
      reads this, Repr
      requires Valid()
    {
      if flow.Some? then Some(StateOf(flow.value)) else None
    }

    /** Busy with no callback to come: every later frame is dropped. */
    predicate Stuck()
      reads this
    {
      isProcessing && pending.None?
    }

    constructor (config: FlowsConfig, detector: Detector, debugMode: bool, classifier: EmotionClassifier)
      requires ValidConfig(config) && Fits(classifier)
      ensures Valid() && fresh(Repr)
      ensures this.config == config && this.detector == detector
      ensures this.debugMode == debugMode && this.classifier == classifier && matcher.faceList == []
      ensures detectionOption == SMILE && flow.None? && lastFace.None?
      ensures !isProcessing && pending.None? && resultFlow == []
    {
      this.config := config;
      this.detector := detector;
      this.debugMode := debugMode;
      this.classifier := classifier;
      matcher := new Gallery.FaceMatcher(config.faceRecognition);
      detectionOption := SMILE;
      flow := None;
      lastFace := None;
      isProcessing := false;
      pending := None;
      resultFlow := [];
      new;
      Repr := {matcher};
    }

    /** `addImageToFaceList`: enrols the embedding of `bitmap` under `name`. */
    method AddImageToFaceList(bitmap: Bitmap, name: string)
      requires Valid()
      modifies matcher
      ensures Valid()
      ensures matcher.faceList == old(matcher.faceList) + [Gallery.FaceRecognitionResult(name, config.faceRecognition.embed(bitmap))]
    {
      matcher.AddImageToFaceList(bitmap, name);
    }

    /** The first collector of `verificationState` builds the flow of the current option. */
    method StartCollecting(rnd: nat -> nat, coin: bool)
      requires Valid() && flow.None?
      modifies this
      ensures Valid() && fresh(Repr - {matcher}) && flow.Some?
      ensures exists emotionsToDetect :: FlowStateOf() == Some(Initialised(config, Fresh(detectionOption, emotionsToDetect), coin))
      ensures detectionOption == old(detectionOption) && lastFace == old(lastFace)
      ensures isProcessing == old(isProcessing) && pending == old(pending) && resultFlow == old(resultFlow)
    {
      var f, emotionsToDetect := MakeFlow(config, detectionOption, rnd, coin);
      flow := Some(f);
      Repr := Footprint(f) + {matcher};
    }

    /**
     * `updateDetectionOption`: the same option changes nothing; a new one replaces
     * an existing flow by a fresh one, handed the latest face.
     */
    method UpdateDetectionOption(newDetectionOption: LivelinessDetectionOption, rnd: nat -> nat, coin: bool)
      requires Valid() && HasFlow(newDetectionOption)
      modifies this
      ensures Valid() && detectionOption == newDetectionOption
      ensures newDetectionOption == old(detectionOption) ==> unchanged(this)
      ensures newDetectionOption != old(detectionOption) ==>
        && flow.Some? == old(flow).Some?
        && (flow.Some? ==> fresh(Repr - {matcher})
                           && exists emotionsToDetect :: FlowStateOf() == Some(Rebuilt(config, newDetectionOption, emotionsToDetect, coin, lastFace)))
      ensures lastFace == old(lastFace)
      ensures isProcessing == old(isProcessing) && pending == old(pending) && resultFlow == old(resultFlow)
    {
      if newDetectionOption == detectionOption {
        return;
      }
      detectionOption := newDetectionOption;
      if flow.Some? {
        var f, emotionsToDetect := RebuildFlow(config, newDetectionOption, rnd, coin, lastFace);
        flow := Some(f);
        Repr := Footprint(f) + {matcher};
        assert FlowStateOf() == Some(Rebuilt(config, newDetectionOption, emotionsToDetect, coin, lastFace));
      }
    }

    /** `resetFlow`: the current flow, if any, is initialised again. */
    method ResetFlow(coin: bool)
      requires Valid()
      modifies this, Repr
      ensures Valid() && flow == old(flow) && fresh(Repr - old(Repr))
      ensures flow.Some? ==> FlowStateOf() == Some(Initialised(config, old(FlowStateOf()).value, coin))
      ensures matcher.faceList == old(matcher.faceList)
      ensures detectionOption == old(detectionOption) && lastFace == old(lastFace)
      ensures isProcessing == old(isProcessing) && pending == old(pending) && resultFlow == old(resultFlow)
    {
      if flow.Some? {
        InitialiseFlow(config, flow.value, coin);
        Repr := Footprint(flow.value) + {matcher};
      }
    }

    /**
     * `analyzeImage`: a frame arriving while another is in process is dropped;
     * otherwise the analyzer turns busy and the detector runs.
     */
    method AnalyzeImage(frame: Frame, elapsedRealtime: int)
      requires Valid()
      modifies this
      ensures Valid()
      ensures old(isProcessing) ==> unchanged(this)
      ensures !old(isProcessing) ==>
        && isProcessing
        && pending == LibFaceDetection.DetectFace(frame, detector, detectionOption in OptionsWithMlKitClassification,
                                                  LibFaceDetection.DefaultAllowedFaceWidth,
                                                  LibFaceDetection.DefaultFeatureThreshold, elapsedRealtime)
        && (!frame.hasMediaImage ==> Stuck())
      ensures detectionOption == old(detectionOption) && flow == old(flow) && lastFace == old(lastFace)
      ensures resultFlow == old(resultFlow) && Repr == old(Repr)
    {
      if isProcessing {
        return;
      }
      isProcessing := true;
      var detectSmilingOrEyesOpen := detectionOption in OptionsWithMlKitClassification;
      pending := LibFaceDetection.DetectFace(frame, detector, detectSmilingOrEyesOpen,
                                             LibFaceDetection.DefaultAllowedFaceWidth,
                                             LibFaceDetection.DefaultFeatureThreshold, elapsedRealtime);
    }

    /**
     * The callback's coroutine. An error, several faces or no face are emitted and a
     * detected face is analyzed; then the analyzer is free again, unless analyzing
     * the face threw.
     */
    method OnFaceAnalysisResult()
      requires Valid()
      modifies this, Repr
      ensures Valid() && flow == old(flow) && Repr == old(Repr) && detectionOption == old(detectionOption)
      ensures matcher.faceList == old(matcher.faceList)
      ensures old(pending).None? ==> unchanged(this) && unchanged(Repr)
      ensures old(pending).Some? ==> pending.None?
      ensures old(pending).Some? && Routed(old(pending).value).Some? ==>
        && !isProcessing
        && resultFlow == old(resultFlow) + [Routed(old(pending).value).value]
        && lastFace == old(lastFace) && FlowStateOf() == old(FlowStateOf())
      ensures old(pending).Some? && old(pending).value.Detected? && !debugMode ==>
        && !isProcessing
        && resultFlow == old(resultFlow)
        && (flow.None? ==> lastFace == old(lastFace))
        && (flow.Some? ==> lastFace == Some(old(pending).value.face)
                           && FlowStateOf() == Some(Handled(config, old(FlowStateOf()).value, old(pending).value.face)))
      ensures old(pending).Some? && old(pending).value.Detected? && debugMode ==>
        && lastFace == old(lastFace) && FlowStateOf() == old(FlowStateOf())
        && (matcher.faceList == [] ==> Stuck() && resultFlow == old(resultFlow))
        && (matcher.faceList != [] ==>
              && !isProcessing
              && |resultFlow| == |old(resultFlow)| + 1
              && resultFlow[..|old(resultFlow)|] == old(resultFlow)
              && IsIdentification(classifier, config.faceRecognition, matcher.faceList, old(pending).value.face,
                                  resultFlow[|old(resultFlow)|]))
    {
      if pending.None? {
        return;
      }
      var result := pending.value;
      pending := None;
      var routed := Routed(result);
      if routed.Some? {
        resultFlow := resultFlow + [routed.value];
      } else if !debugMode {
        ForwardFace(result.face);
      } else {
        var completed := ClassifyFace(result.face);
        if !completed {
          return;
        }
      }
      isProcessing := false;
    }

    /** `analyzeFace` outside debug mode: the face goes to the flow, if one is collecting. */
    method ForwardFace(face: FaceDetected)
      requires Valid()
      modifies this, Objects(flow)
      ensures Valid() && flow == old(flow) && Repr == old(Repr) && matcher.faceList == old(matcher.faceList)
      ensures detectionOption == old(detectionOption) && isProcessing == old(isProcessing)
      ensures pending == old(pending) && resultFlow == old(resultFlow)
      ensures flow.None? ==> lastFace == old(lastFace)
      ensures flow.Some? ==> lastFace == Some(face) && FlowStateOf() == Some(Handled(config, old(FlowStateOf()).value, face))
    {
      if flow.Some? {
        HandleFace(config, flow.value, face);
        lastFace := Some(face);
      }
    }

    /**
     * `analyzeFace` in debug mode: the identification is emitted; `false` when
     * matching threw because nothing is enrolled.
     */
    method ClassifyFace(face: FaceDetected) returns (completed: bool)
      requires Valid()
      modifies this, matcher
      ensures Valid() && flow == old(flow) && Repr == old(Repr) && matcher.faceList == old(matcher.faceList)
      ensures detectionOption == old(detectionOption) && isProcessing == old(isProcessing)
      ensures pending == old(pending) && lastFace == old(lastFace) && FlowStateOf() == old(FlowStateOf())
      ensures completed <==> matcher.faceList != []
      ensures !completed ==> resultFlow == old(resultFlow)
      ensures completed ==>
        && |resultFlow| == |old(resultFlow)| + 1
        && resultFlow[..|old(resultFlow)|] == old(resultFlow)
        && IsIdentification(classifier, config.faceRecognition, matcher.faceList, face, resultFlow[|old(resultFlow)|])
    {
      var classified := ClassifyAndMatch(classifier, matcher, face);
      completed := classified.Some?;
      if completed {
        resultFlow := resultFlow + [classified.value];
      }
    }
  }
}
