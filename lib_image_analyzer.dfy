/**
 * The library's `ImageAnalyzer`: accepts one camera frame at a time, runs face
 * detection on it, emits detector errors and empty frames on its result flow and
 * forwards a detected face to the challenge flow of the current detection option.
 *
 * The detector's callback runs later than `analyzeImage`, so a frame is handled in
 * two steps: `AnalyzeImage` accepts it and records the detection result that the
 * callback will receive, and `OnFaceAnalysisResult` runs the callback's coroutine.
 */
module LibImageAnalyzer {
  import opened Wrappers
  import opened Verification
  import opened MlKit
  import opened Analysis
  import opened FlowDispatch
  import LibFaceDetection

  class ImageAnalyzer {
    /** The models the flows are built from. */
    const config: FlowsConfig
    /** The ML Kit face detector. */
    const detector: Detector
    /** `_detectionOption.value`. */
    var detectionOption: LivelinessDetectionOption
    /**
     * The replay cache of `verificationFlow`: `None` until `verificationState` is
     * first collected, since the flow is shared lazily.
     */
    var flow: Option<FlowRef>
    /** The latest face `combine` has seen; it is handed to every flow built later. */
    var lastFace: Option<FaceDetected>
    var isProcessing: bool
    /** The detection result whose callback has not run yet. */
    var pending: Option<LibFaceDetection.FaceDetectionResult>
    /** Everything emitted on `resultFlow`, oldest first. */
    var resultFlow: seq<FaceClassifierResult>
    ghost var Repr: set<object>

    ghost predicate Valid()
      reads this, Repr
    {
      && (flow.Some? && flow.value.AngledFacesWithSmileFlow? ==> flow.value.composite in Repr)
      && Repr == Objects(flow)
      && this !in Repr
      && ValidConfig(config)
      && HasFlow(detectionOption)
      && (flow.Some? ==> FlowValid(config, flow.value) && OptionOf(flow.value) == detectionOption)
      && (pending.Some? ==> isProcessing)
    }

    /** The current flow's state, if the flow exists. */
    function FlowStateOf(): Option<FlowState>
      reads this, Repr
      requires Valid()
    {
      if flow.Some? then Some(StateOf(flow.value)) else None
    }

    /**
     * Busy with no callback to come: every later frame is dropped and nothing
     * is emitted again. A frame without a media image leads here.
     */
    predicate Stuck()
      reads this
    {
      isProcessing && pending.None?
    }

    constructor (config: FlowsConfig, detector: Detector)
      requires ValidConfig(config)
      ensures Valid() && fresh(Repr)
      ensures this.config == config && this.detector == detector
      ensures detectionOption == SMILE && flow.None? && lastFace.None?
      ensures !isProcessing && pending.None? && resultFlow == []
    {
      this.config := config;
      this.detector := detector;
      detectionOption := SMILE;
      flow := None;
      lastFace := None;
      isProcessing := false;
      pending := None;
      resultFlow := [];
      Repr := {};
    }

    /**
     * The first collector of `verificationState` starts the shared flow: the flow
     * of the current option is built and initialised.
     */
    method StartCollecting(rnd: nat -> nat, coin: bool)
      requires Valid() && flow.None?
      modifies this
      ensures Valid() && fresh(Repr) && flow.Some?
      ensures exists emotionsToDetect :: FlowStateOf() == Some(Initialised(config, Fresh(detectionOption, emotionsToDetect), coin))
      ensures detectionOption == old(detectionOption) && lastFace == old(lastFace)
      ensures isProcessing == old(isProcessing) && pending == old(pending) && resultFlow == old(resultFlow)
    {
      var f, emotionsToDetect := MakeFlow(config, detectionOption, rnd, coin);
      flow := Some(f);
      Repr := Footprint(f);
    }

    /**
     * `updateDetectionOption`: setting the option it already has changes nothing.
     * Otherwise, once the flow exists, a flow for the new option replaces it and is
     * handed the latest face.
     */
    method UpdateDetectionOption(newDetectionOption: LivelinessDetectionOption, rnd: nat -> nat, coin: bool)
      requires Valid() && HasFlow(newDetectionOption)
      modifies this
      ensures Valid() && detectionOption == newDetectionOption
      ensures newDetectionOption == old(detectionOption) ==> unchanged(this)
      ensures newDetectionOption != old(detectionOption) ==>
        && flow.Some? == old(flow).Some?
        && (flow.Some? ==> fresh(Repr)
                           && exists emotionsToDetect :: FlowStateOf() == Some(Rebuilt(config, newDetectionOption, emotionsToDetect, coin, lastFace)))
      ensures lastFace == old(lastFace)
      ensures isProcessing == old(isProcessing) && pending == old(pending) && resultFlow == old(resultFlow)
    {
      if newDetectionOption == detectionOption {
        return;
      }
      detectionOption := newDetectionOption;
      if flow.Some? {
        var f, emotionsToDetect := RebuildFlow(config, newDetectionOption, rnd, coin, lastFace);
        flow := Some(f);
        Repr := Footprint(f);
        assert FlowStateOf() == Some(Rebuilt(config, newDetectionOption, emotionsToDetect, coin, lastFace));
      }
    }

    /** `resetFlow`: the current flow, if any, is initialised again. */
    method ResetFlow(coin: bool)
      requires Valid()
      modifies this, Repr
      ensures Valid() && flow == old(flow) && fresh(Repr - old(Repr))
      ensures flow.Some? ==> FlowStateOf() == Some(Initialised(config, old(FlowStateOf()).value, coin))
      ensures detectionOption == old(detectionOption) && lastFace == old(lastFace)
      ensures isProcessing == old(isProcessing) && pending == old(pending) && resultFlow == old(resultFlow)
    {
      if flow.Some? {
        InitialiseFlow(config, flow.value, coin);
        Repr := Footprint(flow.value);
      }
    }

    /**
     * `analyzeImage`: a frame that arrives while another is in process is dropped;
     * otherwise the analyzer turns busy and the detector runs, asked to classify
     * smiles and eyes only for the options whose challenges use them.
     */
    method AnalyzeImage(frame: Frame, elapsedRealtime: int)
      requires Valid()
      modifies this
      ensures Valid()
      ensures old(isProcessing) ==> unchanged(this)
      ensures !old(isProcessing) ==>
        && isProcessing
        && pending == LibFaceDetection.DetectFace(frame, detector, detectionOption in OptionsWithMlKitClassification,
                                                  LibFaceDetection.DefaultAllowedFaceWidth,
                                                  LibFaceDetection.DefaultFeatureThreshold, elapsedRealtime)
        && (!frame.hasMediaImage ==> Stuck())
      ensures detectionOption == old(detectionOption) && flow == old(flow) && lastFace == old(lastFace)
      ensures resultFlow == old(resultFlow) && Repr == old(Repr)
    {
      if isProcessing {
        return;
      }
      isProcessing := true;
      var detectSmilingOrEyesOpen := detectionOption in OptionsWithMlKitClassification;
      pending := LibFaceDetection.DetectFace(frame, detector, detectSmilingOrEyesOpen,
                                             LibFaceDetection.DefaultAllowedFaceWidth,
                                             LibFaceDetection.DefaultFeatureThreshold, elapsedRealtime);
    }

    /**
     * The callback's coroutine: an error, several faces or no face are emitted; a
     * detected face goes to the current flow (and is lost if no flow is collecting);
     * then the analyzer is free again.
     */
    method OnFaceAnalysisResult()
      requires Valid()
      modifies this, Repr
      ensures Valid() && flow == old(flow) && Repr == old(Repr) && detectionOption == old(detectionOption)
      ensures old(pending).None? ==> unchanged(this) && unchanged(Repr)
      ensures old(pending).Some? ==> !isProcessing && pending.None?
      ensures old(pending).Some? && Routed(old(pending).value).Some? ==>
        && resultFlow == old(resultFlow) + [Routed(old(pending).value).value]
        && lastFace == old(lastFace) && unchanged(Repr)
      ensures old(pending).Some? && old(pending).value.Detected? ==>
        && resultFlow == old(resultFlow)
        && (flow.None? ==> lastFace == old(lastFace))
        && (flow.Some? ==> lastFace == Some(old(pending).value.face)
                           && FlowStateOf() == Some(Handled(config, old(FlowStateOf()).value, old(pending).value.face)))
    {
      if pending.None? {
        return;
      }
      var result := pending.value;
      var routed := Routed(result);
      if routed.Some? {
        resultFlow := resultFlow + [routed.value];
      } else if flow.Some? {
        HandleFace(config, flow.value, result.face);
        lastFace := Some(result.face);
      }
      isProcessing := false;
      pending := None;
    }

    /** A stuck analyzer stays stuck and silent whatever happens next. */
    method StuckIsForever(frame: Frame, elapsedRealtime: int)
      requires Valid() && Stuck()
      modifies this, Repr
      ensures Valid() && Stuck() && resultFlow == old(resultFlow)
    {
      AnalyzeImage(frame, elapsedRealtime);
      OnFaceAnalysisResult();
    }
  }
}
