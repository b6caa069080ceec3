/**
 * The app's `AngledFaces` flow: the user shows the face straight, then the left side, then
 * the right side; one sample is captured per accepted pose, and the samples are optionally
 * checked to be of one person.
 */
module AngledFaces {
  import opened Wrappers
  import opened Graphics
  import opened Verification

  datatype State = Start | DetectingFaceStraight | DetectingLeftSide | DetectingRightSide
                 | CheckAreAllImagesSame | Error | Finished
  datatype Event = Start | Detected | Error | Reset

  const StraightMessage: string := "Please look at the camera straight"
  const LeftSideMessage: string := "Please show left side of face"
  const RightSideMessage: string := "Please show right side of face"

  /** `requiredFaceAngle` of the two side poses; each accepts this angle plus or minus 5. */
  const LeftRequiredFaceAngle: int := -25
  const RightRequiredFaceAngle: int := 25

  /** The least Kotlin `Int`. */
  const IntMinValue: int := -0x8000_0000

  /** `Int.absoluteValue`: the least `Int` has no positive counterpart and is its own value. */
  function AbsoluteValue(angle: int): (r: int)
    ensures angle != IntMinValue ==> r >= 0 && (r == angle || r == -angle)
    ensures angle == IntMinValue ==> r < 0
  {
    if angle == IntMinValue then angle else if angle < 0 then -angle else angle
  }

  /** Whether `angle` is the pose the detecting `state` waits for. */
  predicate AcceptsAngle(state: State, angle: int)
  {
    match state
    case DetectingFaceStraight => AbsoluteValue(angle) < 5
    case DetectingLeftSide => LeftRequiredFaceAngle - 5 <= angle <= LeftRequiredFaceAngle + 5
    case DetectingRightSide => RightRequiredFaceAngle - 5 <= angle <= RightRequiredFaceAngle + 5
    case _ => false
  }

  /**
   * The pose windows: straight is strictly inside (-5, 5) (so ±5 is rejected; the least `Int`
   * also slips through, its absolute value being negative), the left side is [-30, -20] and
   * the right side [20, 30], both bounds included.
   */
  lemma PoseWindows(angle: int)
    ensures AcceptsAngle(DetectingFaceStraight, angle) <==> -5 < angle < 5 || angle == IntMinValue
    ensures AcceptsAngle(DetectingLeftSide, angle) <==> -30 <= angle <= -20
    ensures AcceptsAngle(DetectingRightSide, angle) <==> 20 <= angle <= 30
    ensures !AcceptsAngle(DetectingFaceStraight, 5) && !AcceptsAngle(DetectingFaceStraight, -5)
  {
  }

  /** The declared transitions; `Reset` is declared but never fired. */
  function NextState(from: State, event: Event, shouldCheckFaceSimilarity: bool): (next: Option<State>)
    ensures from in {State.Finished, State.Error} ==> next.None?
    ensures next == Some(CheckAreAllImagesSame) ==> shouldCheckFaceSimilarity && from == DetectingRightSide
    ensures next == Some(State.Error) ==> from == CheckAreAllImagesSame
    ensures next == Some(State.Start) <==> event == Reset && from !in {State.Start, State.Finished, State.Error}
  {
    match (from, event)
    case (Start, Start) => Some(DetectingFaceStraight)
    case (DetectingFaceStraight, Detected) => Some(DetectingLeftSide)
    case (DetectingLeftSide, Detected) => Some(DetectingRightSide)
    case (DetectingRightSide, Detected) =>
      if shouldCheckFaceSimilarity then Some(CheckAreAllImagesSame) else Some(State.Finished)
    case (CheckAreAllImagesSame, Detected) => Some(State.Finished)
    case (CheckAreAllImagesSame, Error) => Some(State.Error)
    case (DetectingFaceStraight, Reset) => Some(State.Start)
    case (DetectingLeftSide, Reset) => Some(State.Start)
    case (DetectingRightSide, Reset) => Some(State.Start)
    case (CheckAreAllImagesSame, Reset) => Some(State.Start)
    case _ => None
  }

  /** What entering `state` publishes (Start publishes nothing). */
  function OnEnter(state: State, published: VerificationState): VerificationState
  {
    match state
    case DetectingFaceStraight => Working(StraightMessage)
    case DetectingLeftSide => Working(LeftSideMessage)
    case DetectingRightSide => Working(RightSideMessage)
    case CheckAreAllImagesSame => Working(AdditionalChecksMessage)
    case Error => VerificationState.Error(DifferentPersonMessage)
    case Finished => VerificationState.Finished
    case Start => published
  }

  /** What the flow is built with: the recognition model and whether the final check runs. */
  datatype Config = Config(faceRecognition: FaceRecognition, shouldCheckFaceSimilarity: bool)

  datatype FlowModel = FlowModel(machine: State, verificationStateFlow: VerificationState, faceList: seq<Bitmap>)

  function Initial(): FlowModel
  {
    FlowModel(State.Start, VerificationState.Start, [])
  }

  function Fired(config: Config, m: FlowModel, event: Event): FlowModel
  {
    match NextState(m.machine, event, config.shouldCheckFaceSimilarity)
    case None => m
    case Some(next) => m.(machine := next, verificationStateFlow := OnEnter(next, m.verificationStateFlow))
  }

  /**
   * `initialise()`: only fires Start, so it starts the straight pose from Start and does
   * nothing anywhere else; in particular it neither clears samples nor leaves Finished or Error.
   */
  function Initialised(config: Config, m: FlowModel): (r: FlowModel)
    ensures m.machine == State.Start ==> r == m.(machine := DetectingFaceStraight, verificationStateFlow := Working(StraightMessage))
    ensures m.machine != State.Start ==> r == m
  {
    Fired(config, m, Event.Start)
  }

  /** `performStateTransition(face)`: capture the crop, then fire Detected. */
  function Performed(config: Config, m: FlowModel, face: FaceDetected): FlowModel
  {
    Fired(config, m.(faceList := m.faceList + [CroppedFace(face)]), Event.Detected)
  }

  /** The state an accepted pose leads to. */
  function NextPose(config: Config, state: State): State
  {
    match state
    case DetectingFaceStraight => DetectingLeftSide
    case DetectingLeftSide => DetectingRightSide
    case _ => if config.shouldCheckFaceSimilarity then CheckAreAllImagesSame else State.Finished
  }

  /**
   * `invokeVerificationFlow(face)`. In a detecting state a face in the pose window adds exactly
   * one sample and advances straight → left → right → check (or Finished when the check is
   * off); a face outside the window changes nothing. In the check, all-pairs agreement gives
   * Finished and anything else Error. In Start, Error and Finished nothing happens.
   */
  function Invoked(config: Config, m: FlowModel, face: FaceDetected): (r: FlowModel)
    requires FixedDimension(config.faceRecognition)
    ensures m.machine in {DetectingFaceStraight, DetectingLeftSide, DetectingRightSide} ==>
      if AcceptsAngle(m.machine, face.headAngle) then
        r.faceList == m.faceList + [CroppedFace(face)] && r.machine == NextPose(config, m.machine)
        && r.verificationStateFlow == OnEnter(r.machine, m.verificationStateFlow)
      else r == m
    ensures m.machine == CheckAreAllImagesSame ==>
      if AreAllImagesSamePerson(config.faceRecognition, m.faceList) then
        r == m.(machine := State.Finished, verificationStateFlow := VerificationState.Finished)
      else r == m.(machine := State.Error, verificationStateFlow := VerificationState.Error(DifferentPersonMessage))
    ensures m.machine in {State.Start, State.Error, State.Finished} ==> r == m
  {
    match m.machine
    case DetectingFaceStraight =>
      if AbsoluteValue(face.headAngle) < 5 then Performed(config, m, face) else m
    case DetectingLeftSide =>
      if LeftRequiredFaceAngle - 5 <= face.headAngle <= LeftRequiredFaceAngle + 5 then Performed(config, m, face) else m
    case DetectingRightSide =>
      if RightRequiredFaceAngle - 5 <= face.headAngle <= RightRequiredFaceAngle + 5 then Performed(config, m, face) else m
    case CheckAreAllImagesSame =>
      if AreAllImagesSamePerson(config.faceRecognition, m.faceList) then Fired(config, m, Event.Detected)
      else Fired(config, m, Event.Error)
    case _ => m
  }

  function Step(config: Config, m: FlowModel, input: Input): FlowModel
    requires FixedDimension(config.faceRecognition)
  {
    match input
    case Initialise(_) => Initialised(config, m)
    case Observe(face) => Invoked(config, m, face)
  }

  function Run(config: Config, m: FlowModel, inputs: seq<Input>): FlowModel
    requires FixedDimension(config.faceRecognition)
    decreases |inputs|
  {
    if |inputs| == 0 then m else Run(config, Step(config, m, inputs[0]), inputs[1..])
  }

  /** How many poses have been accepted on the way to `state`. */
  function PosesTaken(state: State): nat
  {
    match state
    case Start => 0
    case DetectingFaceStraight => 0
    case DetectingLeftSide => 1
    case DetectingRightSide => 2
    case _ => 3
  }

  /**
   * What holds of every reachable state: one sample per accepted pose, and the published
   * state is the one the current state announces.
   */
  ghost predicate Consistent(m: FlowModel)
  {
    |m.faceList| == PosesTaken(m.machine)
    && m.verificationStateFlow == OnEnter(m.machine, VerificationState.Start)
  }

  lemma InitialConsistent()
    ensures Consistent(Initial())
  {
  }

  lemma StepKeepsConsistent(config: Config, m: FlowModel, input: Input)
    requires FixedDimension(config.faceRecognition) && Consistent(m)
    ensures Consistent(Step(config, m, input))
  {
  }

  /**
   * On any run from a consistent state the number of samples is the number of poses
   * accepted, so a finished session holds exactly three samples.
   */
  lemma {:induction false} RunKeepsConsistent(config: Config, m: FlowModel, inputs: seq<Input>)
    requires FixedDimension(config.faceRecognition) && Consistent(m)
    ensures Consistent(Run(config, m, inputs))
    ensures Run(config, m, inputs).machine == State.Finished ==> |Run(config, m, inputs).faceList| == 3
    decreases |inputs|
  {
    if |inputs| > 0 {
      StepKeepsConsistent(config, m, inputs[0]);
      RunKeepsConsistent(config, Step(config, m, inputs[0]), inputs[1..]);
    }
  }

  /** Error and Finished have no transitions and `initialise` cannot restart them. */
  lemma {:induction false} EndStatesAreTerminal(config: Config, m: FlowModel, inputs: seq<Input>)
    requires FixedDimension(config.faceRecognition)
    requires m.machine in {State.Error, State.Finished}
    ensures Run(config, m, inputs) == m
    decreases |inputs|
  {
    if |inputs| > 0 {
      EndStatesAreTerminal(config, Step(config, m, inputs[0]), inputs[1..]);
    }
  }

  /**
   * With the check off, `initialise` followed by faces at yaw 0, -25 and 25 finishes in three
   * observations with those three crops as samples.
   */
  lemma StraightLeftRightFinishes(config: Config, straight: FaceDetected, left: FaceDetected, right: FaceDetected)
    requires FixedDimension(config.faceRecognition) && !config.shouldCheckFaceSimilarity
    requires straight.headAngle == 0 && left.headAngle == -25 && right.headAngle == 25
    ensures Run(config, Initial(), [Initialise(false), Observe(straight), Observe(left), Observe(right)])
         == FlowModel(State.Finished, VerificationState.Finished, [CroppedFace(straight), CroppedFace(left), CroppedFace(right)])
  {
    var inputs := [Initialise(false), Observe(straight), Observe(left), Observe(right)];
    var m1 := Step(config, Initial(), Initialise(false));
    assert m1 == FlowModel(DetectingFaceStraight, Working(StraightMessage), []);
    var m2 := Step(config, m1, Observe(straight));
    assert m2 == FlowModel(DetectingLeftSide, Working(LeftSideMessage), [CroppedFace(straight)]);
    var m3 := Step(config, m2, Observe(left));
    assert m3.machine == DetectingRightSide && m3.faceList == [CroppedFace(straight), CroppedFace(left)];
    var m4 := Step(config, m3, Observe(right));
    assert inputs[1..][1..][1..][1..] == [];
    calc {
      Run(config, Initial(), inputs);
      Run(config, m1, inputs[1..]);
      Run(config, m2, inputs[1..][1..]);
      Run(config, m3, inputs[1..][1..][1..]);
      Run(config, m4, []);
    }
  }

  /** With fewer than two samples there is no pair to compare, so the check passes. */
  lemma CheckWithFewSamplesPasses(config: Config, m: FlowModel, face: FaceDetected)
    requires FixedDimension(config.faceRecognition)
    requires m.machine == CheckAreAllImagesSame && |m.faceList| < 2
    ensures Invoked(config, m, face).machine == State.Finished
  {
    FewSamplesAreSamePerson(config.faceRecognition, m.faceList);
    assert Invoked(config, m, face) == Fired(config, m, Event.Detected);
  }

  /** The flow object; its methods are proved to act as the functions above. */
  class AngledFaces {
    const config: Config
    var machine: State
    var verificationStateFlow: VerificationState
    var faceList: seq<Bitmap>

    function Model(): FlowModel
      reads this
    {
      FlowModel(machine, verificationStateFlow, faceList)
    }

    constructor (faceRecognition: FaceRecognition, shouldCheckFaceSimilarity: bool)
      ensures config == Config(faceRecognition, shouldCheckFaceSimilarity) && Model() == Initial()
    {
      config := Config(faceRecognition, shouldCheckFaceSimilarity);
      machine := State.Start;
      verificationStateFlow := VerificationState.Start;
      faceList := [];
    }

    method Transition(event: Event)
      modifies this
      ensures Model() == Fired(config, old(Model()), event)
    {
      var next := NextState(machine, event, config.shouldCheckFaceSimilarity);
      if next.Some? {
        machine := next.value;
        if machine != State.Start {
          verificationStateFlow := OnEnter(machine, verificationStateFlow);
        }
      }
    }

    /** `initialise()`. */
    method Initialise()
      modifies this
      ensures Model() == Initialised(config, old(Model()))
    {
      Transition(Event.Start);
    }

    /** `performStateTransition(face)`. */
    method PerformStateTransition(face: FaceDetected)
      modifies this
      ensures Model() == Performed(config, old(Model()), face)
    {
      var croppedBitmap := CroppedFace(face);
      faceList := faceList + [croppedBitmap];
      Transition(Event.Detected);
    }

    /** `invokeVerificationFlow(face)`. */
    method InvokeVerificationFlow(face: FaceDetected)
      requires FixedDimension(config.faceRecognition)
      modifies this
      ensures Model() == Invoked(config, old(Model()), face)
    {
      match machine
      case DetectingFaceStraight =>
        if AbsoluteValue(face.headAngle) < 5 {
          PerformStateTransition(face);
        }
      case DetectingLeftSide =>
        if LeftRequiredFaceAngle - 5 <= face.headAngle <= LeftRequiredFaceAngle + 5 {
          PerformStateTransition(face);
        }
      case DetectingRightSide =>
        if RightRequiredFaceAngle - 5 <= face.headAngle <= RightRequiredFaceAngle + 5 {
          PerformStateTransition(face);
        }
      case CheckAreAllImagesSame =>
        if AreAllImagesSamePerson(config.faceRecognition, faceList) {
          Transition(Event.Detected);
        } else {
          Transition(Event.Error);
        }
      case _ =>
    }
  }
}
