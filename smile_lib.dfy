/**
 * The library's `Smile` flow (`LivelinesDetection/.../detection_option_flows/Smile.kt`): one
 * smiling observation while Detecting captures the single sample and finishes the flow.
 */
module LibSmile {
  import opened Wrappers
  import opened Graphics
  import opened Verification

  datatype State = Start | Detecting | Detected
  datatype Event = Start | Detected

  const SmilePrompt: string := "Please try to smile"

  /** The declared transitions; `None` is an event the state does not declare, which is ignored. */
  function NextState(from: State, event: Event): (next: Option<State>)
    ensures next.Some? ==> next.value != State.Start
    ensures from == State.Detected ==> (next.Some? <==> event == Event.Start)
    ensures next == Some(State.Detected) ==> from == State.Detecting
  {
    if from == State.Start && event == Event.Start then Some(State.Detecting)
    else if from == State.Detecting && event == Event.Detected then Some(State.Detected)
    else if from == State.Detected && event == Event.Start then Some(State.Detecting)
    else None
  }

  /** The `onEnter` hooks: what entering `state` publishes. */
  function OnEnter(state: State, published: VerificationState): VerificationState
  {
    match state
    case Detecting => Working(SmilePrompt)
    case Detected => Finished
    case Start => published
  }

  /** The whole state of one `Smile` object. */
  datatype SmileModel = SmileModel(machine: State, verificationState: VerificationState, faceList: seq<Bitmap>)

  function Initial(): SmileModel
  {
    SmileModel(State.Start, VerificationState.Start, [])
  }

  /** `machine.transition(event)`. */
  function Fired(m: SmileModel, event: Event): SmileModel
  {
    match NextState(m.machine, event)
    case None => m
    case Some(next) => m.(machine := next, verificationState := OnEnter(next, m.verificationState))
  }

  /** `initialise()`: publish Start, clear the samples, fire Start. */
  function Initialised(m: SmileModel): (r: SmileModel)
    ensures r.faceList == [] && r.machine == State.Detecting
    ensures m.machine != State.Detecting ==> r.verificationState == Working(SmilePrompt)
    ensures m.machine == State.Detecting ==> r.verificationState == VerificationState.Start
  {
    Fired(m.(verificationState := VerificationState.Start, faceList := []), Event.Start)
  }

  /** `performFaceCheck(face)`. */
  function Checked(m: SmileModel, face: FaceDetected): (r: SmileModel)
    ensures m.machine == State.Detecting && face.smiling == Some(true) ==>
      r == SmileModel(State.Detected, Finished, m.faceList + [CroppedFace(face)])
    ensures !(m.machine == State.Detecting && face.smiling == Some(true)) ==> r == m
  {
    if m.machine == State.Detecting && face.smiling == Some(true) then
      Fired(m.(faceList := m.faceList + [CroppedFace(face)]), Event.Detected)
    else m
  }

  function Step(m: SmileModel, input: Input): SmileModel
  {
    match input
    case Initialise(_) => Initialised(m)
    case Observe(face) => Checked(m, face)
  }

  /** The state after a sequence of inputs. */
  function Run(m: SmileModel, inputs: seq<Input>): SmileModel
    decreases |inputs|
  {
    if |inputs| == 0 then m else Run(Step(m, inputs[0]), inputs[1..])
  }

  /**
   * What every reachable state satisfies: at most one sample, held exactly when the flow
   * is Detected, which is exactly when it publishes Finished; Start publishes Start.
   */
  ghost predicate Consistent(m: SmileModel)
  {
    && |m.faceList| <= 1
    && (|m.faceList| == 1 <==> m.machine == State.Detected)
    && (m.machine == State.Detected <==> m.verificationState == Finished)
    && (m.machine == State.Start ==> m.verificationState == VerificationState.Start)
  }

  lemma StepKeepsConsistent(m: SmileModel, input: Input)
    requires Consistent(m)
    ensures Consistent(Step(m, input))
  {
  }

  /** From a fresh object, any sequence of `initialise` and observations keeps a session to one sample. */
  lemma {:induction false} RunKeepsConsistent(m: SmileModel, inputs: seq<Input>)
    requires Consistent(m)
    ensures Consistent(Run(m, inputs))
    decreases |inputs|
  {
    if |inputs| > 0 {
      StepKeepsConsistent(m, inputs[0]);
      RunKeepsConsistent(Step(m, inputs[0]), inputs[1..]);
    }
  }

  lemma InitialConsistent()
    ensures Consistent(Initial())
  {
  }

  /**
   * Observations alone never leave Detected: once the smile is captured, the flow stays
   * finished with the same sample until `initialise` starts a fresh session.
   */
  lemma {:induction false} DetectedIsStable(m: SmileModel, faces: seq<FaceDetected>)
    requires m.machine == State.Detected
    ensures Run(m, seq(|faces|, i requires 0 <= i < |faces| => Observe(faces[i]))) == m
    decreases |faces|
  {
    var inputs := seq(|faces|, i requires 0 <= i < |faces| => Observe(faces[i]));
    if |faces| > 0 {
      assert inputs[1..] == seq(|faces[1..]|, i requires 0 <= i < |faces[1..]| => Observe(faces[1..][i]));
      DetectedIsStable(m, faces[1..]);
    }
  }

  /** The `Smile` object: its machine, published state and captured samples. */
  class Smile {
    var machine: State
    var verificationState: VerificationState
    var faceList: seq<Bitmap>

    function Model(): SmileModel
      reads this
    {
      SmileModel(machine, verificationState, faceList)
    }

    constructor ()
      ensures Model() == Initial()
    {
      machine := State.Start;
      verificationState := VerificationState.Start;
      faceList := [];
    }

    /** `machine.transition(event)`, running the entered state's `onEnter` hook. */
    method Transition(event: Event)
      modifies this
      ensures Model() == Fired(old(Model()), event)
    {
      var next := NextState(machine, event);
      if next.Some? {
        machine := next.value;
        match machine
        case Detecting => verificationState := Working(SmilePrompt);
        case Detected => verificationState := Finished;
        case Start =>
      }
    }

    /** `initialise()`. */
    method Initialise()
      modifies this
      ensures Model() == Initialised(old(Model()))
    {
      verificationState := VerificationState.Start;
      faceList := [];
      Transition(Event.Start);
    }

    /** `performFaceCheck(face)`: acts only while Detecting. */
    method PerformFaceCheck(face: FaceDetected)
      modifies this
      ensures Model() == Checked(old(Model()), face)
    {
      if machine == State.Detecting {
        if face.smiling == Some(true) {
          var croppedBitmap := CroppedFace(face);
          faceList := faceList + [croppedBitmap];
          Transition(Event.Detected);
        }
      }
    }
  }
}
