/**
 * The app's older `Smile` flow (`app/.../detection_option_flows/Smile.kt`): no state guard on
 * observations, no way out of Detected, and an `initialise` that only fires Start.
 */
module AppSmile {
  import opened Wrappers
  import opened Graphics
  import opened Verification

  datatype State = Start | Detecting | Detected
  datatype Event = Start | Detected

  const SmilePrompt: string := "Please try to smile"

  /** The declared transitions; Detected declares none. */
  function NextState(from: State, event: Event): (next: Option<State>)
    ensures from == State.Detected ==> next.None?
    ensures next.Some? ==> next.value != State.Start
  {
    if from == State.Start && event == Event.Start then Some(State.Detecting)
    else if from == State.Detecting && event == Event.Detected then Some(State.Detected)
    else None
  }

  function OnEnter(state: State, published: VerificationState): VerificationState
  {
    match state
    case Detecting => Working(SmilePrompt)
    case Detected => Finished
    case Start => published
  }

  datatype SmileModel = SmileModel(machine: State, verificationFlowState: VerificationState, faceList: seq<Bitmap>)

  function Initial(): SmileModel
  {
    SmileModel(State.Start, VerificationState.Start, [])
  }

  function Fired(m: SmileModel, event: Event): SmileModel
  {
    match NextState(m.machine, event)
    case None => m
    case Some(next) => m.(machine := next, verificationFlowState := OnEnter(next, m.verificationFlowState))
  }

  /**
   * `initialise()`: only fires Start. From Start it enters Detecting and asks for a smile;
   * anywhere else nothing changes, samples and published state included.
   */
  function Initialised(m: SmileModel): (r: SmileModel)
    ensures m.machine == State.Start ==>
      r == SmileModel(State.Detecting, Working(SmilePrompt), m.faceList)
    ensures m.machine != State.Start ==> r == m
  {
    Fired(m, Event.Start)
  }

  /**
   * `invokeVerificationFlow(face)`: every smiling observation appends a sample, whatever the
   * state; only in Detecting does it also move to Detected and publish Finished.
   */
  function Invoked(m: SmileModel, face: FaceDetected): (r: SmileModel)
    ensures face.smiling == Some(true) ==> r.faceList == m.faceList + [CroppedFace(face)]
    ensures face.smiling == Some(true) && m.machine == State.Detecting ==>
      r.machine == State.Detected && r.verificationFlowState == Finished
    ensures face.smiling == Some(true) && m.machine != State.Detecting ==>
      r.machine == m.machine && r.verificationFlowState == m.verificationFlowState
    ensures face.smiling != Some(true) ==> r == m
  {
    if face.smiling == Some(true) then
      Fired(m.(faceList := m.faceList + [CroppedFace(face)]), Event.Detected)
    else m
  }

  function Step(m: SmileModel, input: Input): SmileModel
  {
    match input
    case Initialise(_) => Initialised(m)
    case Observe(face) => Invoked(m, face)
  }

  function Run(m: SmileModel, inputs: seq<Input>): SmileModel
    decreases |inputs|
  {
    if |inputs| == 0 then m else Run(Step(m, inputs[0]), inputs[1..])
  }

  /** How many of the inputs are smiling observations. */
  function SmilingCount(inputs: seq<Input>): nat
  {
    if |inputs| == 0 then 0
    else (if inputs[0].Observe? && inputs[0].face.smiling == Some(true) then 1 else 0) + SmilingCount(inputs[1..])
  }

  /**
   * Samples are never cleared: after any inputs the list has grown by exactly one sample per
   * smiling observation, so it keeps growing after Finished.
   */
  lemma {:induction false} SamplesGrowWithEverySmile(m: SmileModel, inputs: seq<Input>)
    ensures |Run(m, inputs).faceList| == |m.faceList| + SmilingCount(inputs)
    ensures m.faceList <= Run(m, inputs).faceList
    decreases |inputs|
  {
    if |inputs| > 0 {
      SamplesGrowWithEverySmile(Step(m, inputs[0]), inputs[1..]);
    }
  }

  /**
   * Detected is terminal: no input sequence, `initialise` included, changes the machine or
   * the published Finished.
   */
  lemma {:induction false} DetectedIsTerminal(m: SmileModel, inputs: seq<Input>)
    requires m.machine == State.Detected && m.verificationFlowState == Finished
    ensures Run(m, inputs).machine == State.Detected
    ensures Run(m, inputs).verificationFlowState == Finished
    decreases |inputs|
  {
    if |inputs| > 0 {
      DetectedIsTerminal(Step(m, inputs[0]), inputs[1..]);
    }
  }

  /** The older `Smile` object. */
  class Smile {
    var machine: State
    var verificationFlowState: VerificationState
    var faceList: seq<Bitmap>

    function Model(): SmileModel
      reads this
    {
      SmileModel(machine, verificationFlowState, faceList)
    }

    constructor ()
      ensures Model() == Initial()
    {
      machine := State.Start;
      verificationFlowState := VerificationState.Start;
      faceList := [];
    }

    method Transition(event: Event)
      modifies this
      ensures Model() == Fired(old(Model()), event)
    {
      var next := NextState(machine, event);
      if next.Some? {
        machine := next.value;
        match machine
        case Detecting => verificationFlowState := Working(SmilePrompt);
        case Detected => verificationFlowState := Finished;
        case Start =>
      }
    }

    /** `initialise()`. */
    method Initialise()
      modifies this
      ensures Model() == Initialised(old(Model()))
    {
      Transition(Event.Start);
    }

    /** `invokeVerificationFlow(face)`. */
    method InvokeVerificationFlow(face: FaceDetected)
      modifies this
      ensures Model() == Invoked(old(Model()), face)
    {
      if face.smiling == Some(true) {
        var croppedBitmap := CroppedFace(face);
        faceList := faceList + [croppedBitmap];
        Transition(Event.Detected);
      }
    }
  }
}
