/**
 * The library's `RandomFacialExpression` flow: the user is asked for a sequence of randomly
 * drawn facial expressions, one sample is captured per expression shown, and the samples are
 * then optionally checked to be of one person.
 */
module RandomFacialExpression {
  import opened Wrappers
  import opened Graphics
  import opened Verification
  import ConvenienceFunctions
  import LabelDraw

  datatype State = Start | Detecting | CheckAreAllImagesSame | Finished | Error
  datatype Event = Start | Detected | FinishedEmotions | Error

  /** The labels the draw never picks. */
  const ExcludedEmotions: set<string> := {"Disgusted", "Sad"}

  function Prompt(emotion: string): string
  {
    "Please try to be " + emotion
  }

  /**
   * What the flow is built with: the classifier's best result for a cropped face
   * (`classifyEmotions(..).first()`), the recognition model, whether the final check runs,
   * and the confidence threshold an expression must exceed.
   */
  datatype Config = Config(
    topResult: Bitmap -> ClassifierResult,
    faceRecognition: FaceRecognition,
    shouldCheckFaceSimilarity: bool,
    confidenceThreshold: real)

  /** The declared transitions; `FinishedEmotions` is decided by `shouldCheckFaceSimilarity`. */
  function NextState(from: State, event: Event, shouldCheckFaceSimilarity: bool): (next: Option<State>)
    ensures next.Some? ==> next.value != State.Start
    ensures next == Some(CheckAreAllImagesSame) ==> shouldCheckFaceSimilarity && from == State.Detecting
    ensures from in {State.Finished, State.Error} ==> (next.Some? <==> event == Event.Start)
    ensures next == Some(State.Error) ==> from == CheckAreAllImagesSame
  {
    match (from, event)
    case (Start, Start) => Some(State.Detecting)
    case (Detecting, Detected) => Some(State.Detecting)
    case (Detecting, FinishedEmotions) =>
      if shouldCheckFaceSimilarity then Some(CheckAreAllImagesSame) else Some(State.Finished)
    case (CheckAreAllImagesSame, Detected) => Some(State.Finished)
    case (CheckAreAllImagesSame, Error) => Some(State.Error)
    case (Finished, Start) => Some(State.Detecting)
    case (Error, Start) => Some(State.Detecting)
    case _ => None
  }

  /**
   * The flow's state: the machine, the published state, the captured samples, the labels
   * still to request (in insertion order) and the current target (`emotionToDetect`).
   */
  datatype FlowModel = FlowModel(
    machine: State,
    verificationState: VerificationState,
    faceList: seq<Bitmap>,
    emotionsToDetect: seq<string>,
    emotionToDetect: Option<string>)

  /** A freshly built flow whose draw produced `emotionsToDetect`; the target starts as "". */
  function Initial(emotionsToDetect: seq<string>): FlowModel
  {
    FlowModel(State.Start, VerificationState.Start, [], emotionsToDetect, Some(ConvenienceFunctions.EmptyString()))
  }

  /** The `onEnter` hooks, run after the machine has moved to `state`. */
  function OnEnter(m: FlowModel, state: State): FlowModel
  {
    match state
    case Detecting =>
      var (emotion, rest) := ConvenienceFunctions.PopOrNull(m.emotionsToDetect);
      m.(emotionsToDetect := rest, emotionToDetect := emotion,
         verificationState := if emotion.Some? then Working(Prompt(emotion.value)) else m.verificationState)
    case CheckAreAllImagesSame => m.(verificationState := Working(AdditionalChecksMessage))
    case Finished => m.(verificationState := VerificationState.Finished)
    case Error => m.(verificationState := VerificationState.Error(DifferentPersonMessage))
    case Start => m
  }

  function Fired(config: Config, m: FlowModel, event: Event): FlowModel
  {
    match NextState(m.machine, event, config.shouldCheckFaceSimilarity)
    case None => m
    case Some(next) => OnEnter(m.(machine := next), next)
  }

  /**
   * `initialise()`: publishes Start and clears the samples, then fires Start. Start, Finished
   * and Error re-enter Detecting, popping the next label of a set that is never refilled;
   * Detecting and the check stay where they are.
   */
  function Initialised(config: Config, m: FlowModel): (r: FlowModel)
    ensures r.faceList == []
    ensures m.machine in {State.Start, State.Finished, State.Error} ==>
      r.machine == State.Detecting
      && (r.emotionToDetect, r.emotionsToDetect) == ConvenienceFunctions.PopOrNull(m.emotionsToDetect)
      && r.verificationState == (if r.emotionToDetect.Some? then Working(Prompt(r.emotionToDetect.value))
                                 else VerificationState.Start)
    ensures m.machine in {State.Detecting, State.CheckAreAllImagesSame} ==>
      r == m.(verificationState := VerificationState.Start, faceList := [])
  {
    Fired(config, m.(verificationState := VerificationState.Start, faceList := []), Event.Start)
  }

  /**
   * `performFaceCheck(face)`. In Detecting with a target, a best result naming the target with
   * a confidence above the threshold re-enters Detecting (popping the next target) and appends
   * the crop; any other result changes nothing. With no target left the flow moves to the
   * check or straight to Finished. In the check, all-pairs agreement gives Finished and
   * anything else Error. Outside these states nothing happens.
   */
  function Checked(config: Config, m: FlowModel, face: FaceDetected): (r: FlowModel)
    requires FixedDimension(config.faceRecognition)
    ensures m.machine == State.Detecting && m.emotionToDetect.None? ==>
      r == m.(machine := if config.shouldCheckFaceSimilarity then CheckAreAllImagesSame else State.Finished,
              verificationState := if config.shouldCheckFaceSimilarity then Working(AdditionalChecksMessage)
                                   else VerificationState.Finished)
    ensures m.machine == State.Detecting && m.emotionToDetect.Some? ==>
      var result := config.topResult(CroppedFace(face));
      if result.title == m.emotionToDetect.value && result.confidence > config.confidenceThreshold then
        r.machine == State.Detecting && r.faceList == m.faceList + [CroppedFace(face)]
        && (r.emotionToDetect, r.emotionsToDetect) == ConvenienceFunctions.PopOrNull(m.emotionsToDetect)
        && r.verificationState == (if r.emotionToDetect.Some? then Working(Prompt(r.emotionToDetect.value))
                                   else m.verificationState)
      else r == m
    ensures m.machine == CheckAreAllImagesSame ==>
      if AreAllImagesSamePerson(config.faceRecognition, m.faceList) then
        r == m.(machine := State.Finished, verificationState := VerificationState.Finished)
      else r == m.(machine := State.Error, verificationState := VerificationState.Error(DifferentPersonMessage))
    ensures m.machine !in {State.Detecting, CheckAreAllImagesSame} ==> r == m
  {
    match m.machine
    case Detecting =>
      if m.emotionToDetect.None? then Fired(config, m, FinishedEmotions)
      else
        var croppedBitmap := CroppedFace(face);
        var result := config.topResult(croppedBitmap);
        if result.title == m.emotionToDetect.value && result.confidence > config.confidenceThreshold then
          var next := Fired(config, m, Event.Detected);
          next.(faceList := next.faceList + [croppedBitmap])
        else m
    case CheckAreAllImagesSame =>
      if AreAllImagesSamePerson(config.faceRecognition, m.faceList) then Fired(config, m, Event.Detected)
      else Fired(config, m, Event.Error)
    case _ => m
  }

  function Step(config: Config, m: FlowModel, input: Input): FlowModel
    requires FixedDimension(config.faceRecognition)
  {
    match input
    case Initialise(_) => Initialised(config, m)
    case Observe(face) => Checked(config, m, face)
  }

  function Run(config: Config, m: FlowModel, inputs: seq<Input>): FlowModel
    requires FixedDimension(config.faceRecognition)
    decreases |inputs|
  {
    if |inputs| == 0 then m else Run(config, Step(config, m, inputs[0]), inputs[1..])
  }

  function Pending(m: FlowModel): nat
  {
    if m.emotionToDetect.Some? then 1 else 0
  }

  /**
   * What holds of a flow built with `requested` labels: before the first `initialise` the
   * set is full and nothing is captured; afterwards samples, labels left and the pending
   * target never add up to more than `requested`. In Detecting a missing target means the
   * set is empty, and a present one is what is shown (unless `initialise` just reset the
   * published state); after Detecting the set is used up; Finished and Error are published.
   */
  ghost predicate Consistent(m: FlowModel, requested: nat)
  {
    (m.machine == State.Start ==>
      m.faceList == [] && |m.emotionsToDetect| == requested && m.verificationState == VerificationState.Start)
    && (m.machine != State.Start ==> |m.faceList| + |m.emotionsToDetect| + Pending(m) <= requested)
    && (m.machine == State.Detecting && m.emotionToDetect.None? ==> m.emotionsToDetect == [])
    && (m.machine == State.Detecting && m.emotionToDetect.Some? ==>
          m.verificationState in {Working(Prompt(m.emotionToDetect.value)), VerificationState.Start})
    && (m.machine in {CheckAreAllImagesSame, State.Finished, State.Error} ==>
          m.emotionToDetect.None? && m.emotionsToDetect == [])
    && (m.machine == State.Finished ==> m.verificationState == VerificationState.Finished)
    && (m.machine == State.Error ==> m.verificationState == VerificationState.Error(DifferentPersonMessage))
  }

  lemma InitialConsistent(emotionsToDetect: seq<string>)
    ensures Consistent(Initial(emotionsToDetect), |emotionsToDetect|)
  {
  }

  lemma StepKeepsConsistent(config: Config, m: FlowModel, requested: nat, input: Input)
    requires FixedDimension(config.faceRecognition) && Consistent(m, requested)
    ensures Consistent(Step(config, m, input), requested)
  {
  }

  /**
   * Every reachable state is consistent; in particular a session never holds more samples
   * than labels were drawn, whatever is observed and however often `initialise` is called.
   */
  lemma {:induction false} RunKeepsConsistent(config: Config, m: FlowModel, requested: nat, inputs: seq<Input>)
    requires FixedDimension(config.faceRecognition) && Consistent(m, requested)
    ensures Consistent(Run(config, m, inputs), requested)
    ensures |Run(config, m, inputs).faceList| <= requested
    decreases |inputs|
  {
    if |inputs| > 0 {
      StepKeepsConsistent(config, m, requested, inputs[0]);
      RunKeepsConsistent(config, Step(config, m, inputs[0]), requested, inputs[1..]);
    }
  }

  /**
   * The set is filled only at construction: after a finished session it is empty, so
   * `initialise` starts a session with no target, and the next observation ends it without
   * asking for anything or capturing any sample.
   */
  lemma RestartAfterFinishedAsksForNothing(config: Config, m: FlowModel, requested: nat, face: FaceDetected)
    requires FixedDimension(config.faceRecognition) && Consistent(m, requested)
    requires m.machine == State.Finished
    ensures var restarted := Initialised(config, m);
      restarted.machine == State.Detecting && restarted.emotionToDetect.None?
      && restarted.verificationState == VerificationState.Start
      && Checked(config, restarted, face).faceList == []
      && Checked(config, restarted, face).machine != State.Detecting
  {
  }

  /**
   * Builds the flow (`RandomFacialExpression(...)`): `coerceIn(1..labels.size)` throws on an
   * empty label list, and the draw fails unless 0 <= `emotionsNumberToDetect` <= the number of
   * distinct labels other than "Disgusted" and "Sad". On success the flow asks for exactly
   * that many distinct such labels.
   */
  method Create(config: Config, labels: seq<string>, emotionsNumberToDetect: int, rnd: nat -> nat)
    returns (flow: Option<RandomFacialExpression>)
    ensures flow.Some? <==>
      1 <= |labels| && 0 <= emotionsNumberToDetect <= |LabelDraw.Drawable(labels, ExcludedEmotions)|
    ensures flow.Some? ==>
      fresh(flow.value) && flow.value.config == config
      && flow.value.Model() == Initial(flow.value.emotionsToDetect)
      && |flow.value.emotionsToDetect| == emotionsNumberToDetect
      && LabelDraw.Distinct(flow.value.emotionsToDetect)
      && forall i :: 0 <= i < |flow.value.emotionsToDetect| ==>
           flow.value.emotionsToDetect[i] in labels && flow.value.emotionsToDetect[i] !in ExcludedEmotions
  {
    if |labels| == 0 {
      return None;
    }
    var drawn := LabelDraw.DrawLabels(labels, ExcludedEmotions, emotionsNumberToDetect, rnd);
    if drawn.Failure? {
      return None;
    }
    var created := new RandomFacialExpression(config, drawn.value);
    return Some(created);
  }

  /** The flow object; its methods are proved to act as the functions above. */
  class RandomFacialExpression {
    const config: Config
    var machine: State
    var verificationState: VerificationState
    var faceList: seq<Bitmap>
    var emotionsToDetect: seq<string>
    var emotionToDetect: Option<string>

    function Model(): FlowModel
      reads this
    {
      FlowModel(machine, verificationState, faceList, emotionsToDetect, emotionToDetect)
    }

    constructor (config: Config, emotionsToDetect: seq<string>)
      ensures this.config == config && Model() == Initial(emotionsToDetect)
    {
      this.config := config;
      machine := State.Start;
      verificationState := VerificationState.Start;
      faceList := [];
      this.emotionsToDetect := emotionsToDetect;
      emotionToDetect := Some(ConvenienceFunctions.EmptyString());
    }

    method Transition(event: Event)
      modifies this
      ensures Model() == Fired(config, old(Model()), event)
    {
      var next := NextState(machine, event, config.shouldCheckFaceSimilarity);
      if next.Some? {
        machine := next.value;
        match machine
        case Detecting =>
          var popped := ConvenienceFunctions.PopOrNull(emotionsToDetect);
          emotionToDetect := popped.0;
          emotionsToDetect := popped.1;
          if emotionToDetect.Some? {
            verificationState := Working(Prompt(emotionToDetect.value));
          }
        case CheckAreAllImagesSame => verificationState := Working(AdditionalChecksMessage);
        case Finished => verificationState := VerificationState.Finished;
        case Error => verificationState := VerificationState.Error(DifferentPersonMessage);
        case Start =>
      }
    }

    /** `initialise()`. */
    method Initialise()
      modifies this
      ensures Model() == Initialised(config, old(Model()))
    {
      verificationState := VerificationState.Start;
      faceList := [];
      Transition(Event.Start);
    }

    /** `performFaceCheck(face)`. */
    method PerformFaceCheck(face: FaceDetected)
      requires FixedDimension(config.faceRecognition)
      modifies this
      ensures Model() == Checked(config, old(Model()), face)
    {
      match machine
      case Detecting =>
        if emotionToDetect.None? {
          Transition(FinishedEmotions);
        } else {
          var croppedBitmap := CroppedFace(face);
          var result := config.topResult(croppedBitmap);
          if result.title == emotionToDetect.value && result.confidence > config.confidenceThreshold {
            Transition(Event.Detected);
            faceList := faceList + [croppedBitmap];
          }
        }
      case CheckAreAllImagesSame =>
        if AreAllImagesSamePerson(config.faceRecognition, faceList) {
          Transition(Event.Detected);
        } else {
          Transition(Event.Error);
        }
      case _ =>
    }
  }
}
