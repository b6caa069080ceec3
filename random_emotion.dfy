/**
 * The app's older `RandomEmotion` flow: randomly drawn emotions are requested one after the
 * other; no sample is captured and there is no consistency check.
 */
module RandomEmotion {
  import opened Wrappers
  import opened Graphics
  import opened Verification
  import ConvenienceFunctions
  import LabelDraw

  datatype State = Start | Detecting | Detected
  datatype Event = Start | Detected | Finished

  /** The confidence an emotion must exceed (`0.5f`). */
  const ConfidenceThreshold: real := 0.5

  /** `"Please try to be $emotionToDetect"`, where a null target prints as "null". */
  function Prompt(emotionToDetect: Option<string>): string
  {
    "Please try to be " + (if emotionToDetect.Some? then emotionToDetect.value else "null")
  }

  function NextState(from: State, event: Event): (next: Option<State>)
    ensures from == State.Detected ==> next.None?
    ensures next.Some? ==> next.value != State.Start
    ensures next == Some(State.Detected) <==> from == State.Detecting && event == Event.Finished
  {
    match (from, event)
    case (Start, Start) => Some(State.Detecting)
    case (Detecting, Detected) => Some(State.Detecting)
    case (Detecting, Finished) => Some(State.Detected)
    case _ => None
  }

  datatype FlowModel = FlowModel(
    machine: State,
    verificationFlowState: VerificationState,
    faceList: seq<Bitmap>,
    emotionsToDetect: seq<string>,
    emotionToDetect: Option<string>)

  function Initial(emotionsToDetect: seq<string>): FlowModel
  {
    FlowModel(State.Start, VerificationState.Start, [], emotionsToDetect, Some(ConvenienceFunctions.EmptyString()))
  }

  /** The `onEnter` hooks: Detecting pops the next target and always prompts for it. */
  function OnEnter(m: FlowModel, state: State): FlowModel
  {
    match state
    case Detecting =>
      var (emotion, rest) := ConvenienceFunctions.PopOrNull(m.emotionsToDetect);
      m.(emotionsToDetect := rest, emotionToDetect := emotion, verificationFlowState := Working(Prompt(emotion)))
    case Detected => m.(verificationFlowState := VerificationState.Finished)
    case Start => m
  }

  function Fired(m: FlowModel, event: Event): FlowModel
  {
    match NextState(m.machine, event)
    case None => m
    case Some(next) => OnEnter(m.(machine := next), next)
  }

  /**
   * `initialise()`: only fires Start. From Start it enters Detecting, pops the first target
   * and prompts for it (printing "null" when nothing was drawn); anywhere else nothing changes.
   */
  function Initialised(m: FlowModel): (r: FlowModel)
    ensures m.machine == State.Start ==>
      r.machine == State.Detecting
      && (r.emotionToDetect, r.emotionsToDetect) == ConvenienceFunctions.PopOrNull(m.emotionsToDetect)
      && r.verificationFlowState == Working(Prompt(r.emotionToDetect))
      && r.faceList == m.faceList
    ensures m.machine != State.Start ==> r == m
  {
    Fired(m, Event.Start)
  }

  /**
   * `invokeVerificationFlow(face)`, with no state guard. With no target left the flow moves
   * from Detecting to Detected and publishes Finished. Otherwise a best result naming the
   * target with confidence above 0.5 re-enters Detecting, popping and prompting for the next
   * target. No sample is ever captured, and outside Detecting nothing changes.
   */
  function Invoked(topResult: Bitmap -> ClassifierResult, m: FlowModel, face: FaceDetected): (r: FlowModel)
    ensures r.faceList == m.faceList
    ensures m.machine != State.Detecting ==> r == m
    ensures m.machine == State.Detecting && m.emotionToDetect.None? ==>
      r == m.(machine := State.Detected, verificationFlowState := VerificationState.Finished)
    ensures m.machine == State.Detecting && m.emotionToDetect.Some? ==>
      var result := topResult(CroppedFace(face));
      if result.title == m.emotionToDetect.value && result.confidence > ConfidenceThreshold then
        r.machine == State.Detecting
        && (r.emotionToDetect, r.emotionsToDetect) == ConvenienceFunctions.PopOrNull(m.emotionsToDetect)
        && r.verificationFlowState == Working(Prompt(r.emotionToDetect))
      else r == m
  {
    var croppedBitmap := CroppedFace(face);
    if m.emotionToDetect.None? then Fired(m, Event.Finished)
    else
      var result := topResult(croppedBitmap);
      if result.title == m.emotionToDetect.value && result.confidence > ConfidenceThreshold then
        Fired(m, Event.Detected)
      else m
  }

  function Step(topResult: Bitmap -> ClassifierResult, m: FlowModel, input: Input): FlowModel
  {
    match input
    case Initialise(_) => Initialised(m)
    case Observe(face) => Invoked(topResult, m, face)
  }

  function Run(topResult: Bitmap -> ClassifierResult, m: FlowModel, inputs: seq<Input>): FlowModel
    decreases |inputs|
  {
    if |inputs| == 0 then m else Run(topResult, Step(topResult, m, inputs[0]), inputs[1..])
  }

  /**
   * What holds of every reachable state: no sample is ever captured; before `initialise` the
   * target is the empty string; in Detecting the current target is what is shown and a
   * missing target means nothing is left to draw; Detected has published Finished.
   */
  ghost predicate Consistent(m: FlowModel)
  {
    m.faceList == []
    && (m.machine == State.Start ==> m.emotionToDetect == Some("") && m.verificationFlowState == VerificationState.Start)
    && (m.machine == State.Detecting ==> m.verificationFlowState == Working(Prompt(m.emotionToDetect)))
    && (m.machine != State.Start && m.emotionToDetect.None? ==> m.emotionsToDetect == [])
    && (m.machine == State.Detected ==> m.verificationFlowState == VerificationState.Finished)
  }

  lemma InitialConsistent(emotionsToDetect: seq<string>)
    ensures Consistent(Initial(emotionsToDetect))
  {
  }

  lemma StepKeepsConsistent(topResult: Bitmap -> ClassifierResult, m: FlowModel, input: Input)
    requires Consistent(m)
    ensures Consistent(Step(topResult, m, input))
  {
  }

  /** The sample list stays empty and the published state stays consistent on any run. */
  lemma {:induction false} RunKeepsConsistent(topResult: Bitmap -> ClassifierResult, m: FlowModel, inputs: seq<Input>)
    requires Consistent(m)
    ensures Consistent(Run(topResult, m, inputs))
    ensures Run(topResult, m, inputs).faceList == []
    decreases |inputs|
  {
    if |inputs| > 0 {
      StepKeepsConsistent(topResult, m, inputs[0]);
      RunKeepsConsistent(topResult, Step(topResult, m, inputs[0]), inputs[1..]);
    }
  }

  /** Detected has no transitions: no later input changes the machine or the published Finished. */
  lemma {:induction false} DetectedIsTerminal(topResult: Bitmap -> ClassifierResult, m: FlowModel, inputs: seq<Input>)
    requires m.machine == State.Detected
    ensures Run(topResult, m, inputs) == m
    decreases |inputs|
  {
    if |inputs| > 0 {
      DetectedIsTerminal(topResult, Step(topResult, m, inputs[0]), inputs[1..]);
    }
  }

  /**
   * Builds the flow (`RandomEmotion(...)`): the draw has no exclusions and succeeds exactly
   * when 0 <= `emotionsNumberToDetect` <= the number of distinct labels.
   */
  method Create(labels: seq<string>, emotionsNumberToDetect: int, rnd: nat -> nat)
    returns (flow: Option<RandomEmotion>)
    ensures flow.Some? <==> 0 <= emotionsNumberToDetect <= |set l | l in labels|
    ensures flow.Some? ==>
      fresh(flow.value) && flow.value.Model() == Initial(flow.value.emotionsToDetect)
      && |flow.value.emotionsToDetect| == emotionsNumberToDetect
      && LabelDraw.Distinct(flow.value.emotionsToDetect)
      && forall i :: 0 <= i < |flow.value.emotionsToDetect| ==> flow.value.emotionsToDetect[i] in labels
  {
    assert LabelDraw.Drawable(labels, {}) == set l | l in labels;
    var drawn := LabelDraw.DrawLabels(labels, {}, emotionsNumberToDetect, rnd);
    if drawn.Failure? {
      return None;
    }
    var created := new RandomEmotion(drawn.value);
    return Some(created);
  }

  /** The flow object; its methods are proved to act as the functions above. */
  class RandomEmotion {
    var machine: State
    var verificationFlowState: VerificationState
    var faceList: seq<Bitmap>
    var emotionsToDetect: seq<string>
    var emotionToDetect: Option<string>

    function Model(): FlowModel
      reads this
    {
      FlowModel(machine, verificationFlowState, faceList, emotionsToDetect, emotionToDetect)
    }

    constructor (emotionsToDetect: seq<string>)
      ensures Model() == Initial(emotionsToDetect)
    {
      machine := State.Start;
      verificationFlowState := VerificationState.Start;
      faceList := [];
      this.emotionsToDetect := emotionsToDetect;
      emotionToDetect := Some(ConvenienceFunctions.EmptyString());
    }

    method Transition(event: Event)
      modifies this
      ensures Model() == Fired(old(Model()), event)
    {
      var next := NextState(machine, event);
      if next.Some? {
        machine := next.value;
        match machine
        case Detecting =>
          var popped := ConvenienceFunctions.PopOrNull(emotionsToDetect);
          emotionToDetect := popped.0;
          emotionsToDetect := popped.1;
          verificationFlowState := Working(Prompt(emotionToDetect));
        case Detected => verificationFlowState := VerificationState.Finished;
        case Start =>
      }
    }

    /** `initialise()`. */
    method Initialise()
      modifies this
      ensures Model() == Initialised(old(Model()))
    {
      Transition(Event.Start);
    }

    /** `invokeVerificationFlow(face)`; `topResult` is the classifier's best result for a crop. */
    method InvokeVerificationFlow(topResult: Bitmap -> ClassifierResult, face: FaceDetected)
      modifies this
      ensures Model() == Invoked(topResult, old(Model()), face)
    {
      var croppedBitmap := CroppedFace(face);
      if emotionToDetect.None? {
        Transition(Event.Finished);
      } else {
        var result := topResult(croppedBitmap);
        if result.title == emotionToDetect.value && result.confidence > ConfidenceThreshold {
          Transition(Event.Detected);
        }
      }
    }
  }
}
