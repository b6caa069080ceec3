/**
 * The option-to-flow mapping of the library analyzers (`verificationFlow` in
 * `ImageAnalyzer.kt` and `ImageAnalyzerCommon.kt`): each option builds a fresh
 * challenge flow and initialises it, and detected faces are forwarded to it.
 */
module FlowDispatch {
  import opened Wrappers
  import opened Graphics
  import opened Verification
  import opened Analysis
  import LabelDraw
  import LibSmile
  import RandomFacialExpression
  import AngledFaces
  import AngledFacesWithSmile

  /**
   * What the flows are built from: the recognition model, the classifier's best
   * result for a crop, the classifier's labels and the expression threshold.
   */
  datatype FlowsConfig = FlowsConfig(
    faceRecognition: FaceRecognition,
    topResult: Bitmap -> ClassifierResult,
    labels: seq<string>,
    confidenceThreshold: real)

  /** The default `emotionsNumberToDetect` of the facial-expression flow. */
  const EmotionsNumberToDetect: int := 2

  /** The facial-expression flow is built with the similarity check on (the default). */
  function FacialExpressionConfig(config: FlowsConfig): RandomFacialExpression.Config {
    RandomFacialExpression.Config(config.topResult, config.faceRecognition, true, config.confidenceThreshold)
  }

  /** The angled-faces flow is built with the similarity check on (the default). */
  function AngledFacesConfig(config: FlowsConfig): AngledFaces.Config {
    AngledFaces.Config(config.faceRecognition, true)
  }

  /**
   * Every embedding has the model's size, and the labels leave enough expressions
   * to draw, so building any flow succeeds.
   */
  ghost predicate ValidConfig(config: FlowsConfig) {
    && FixedDimension(config.faceRecognition)
    && 1 <= |config.labels|
    && EmotionsNumberToDetect <= |LabelDraw.Drawable(config.labels, RandomFacialExpression.ExcludedEmotions)|
  }

  /** The options this model builds a flow for. */
  predicate HasFlow(option: LivelinessDetectionOption) {
    option != ANGLED_FACES_WITH_FACIAL_EXPRESSION
  }

  /** A reference to the current flow object, tagged with its type. */
  datatype FlowRef =
    | SmileFlow(smile: LibSmile.Smile)
    | FacialExpressionFlow(facialExpression: RandomFacialExpression.RandomFacialExpression)
    | AngledFacesFlow(angledFaces: AngledFaces.AngledFaces)
    | AngledFacesWithSmileFlow(composite: AngledFacesWithSmile.AngledFacesWithSmile)

  /** The option a flow was built for. */
  function OptionOf(flow: FlowRef): (option: LivelinessDetectionOption)
    ensures HasFlow(option)
  {
    match flow
    case SmileFlow(_) => SMILE
    case FacialExpressionFlow(_) => RANDOM_FACIAL_EXPRESSION
    case AngledFacesFlow(_) => ANGLED_FACES
    case AngledFacesWithSmileFlow(_) => ANGLED_FACES_WITH_SMILE
  }

  /** The objects that hold the flow's state. */
  function Footprint(flow: FlowRef): set<object>
    reads if flow.AngledFacesWithSmileFlow? then {flow.composite} else {}
  {
    match flow
    case SmileFlow(smile) => {smile}
    case FacialExpressionFlow(facialExpression) => {facialExpression}
    case AngledFacesFlow(angledFaces) => {angledFaces}
    case AngledFacesWithSmileFlow(composite) => {composite, composite.smileFlow, composite.angledFacesFlow}
  }

  /** The objects behind an optional flow: none before the flow exists. */
  function Objects(flow: Option<FlowRef>): set<object>
    reads if flow.Some? && flow.value.AngledFacesWithSmileFlow? then {flow.value.composite} else {}
  {
    if flow.Some? then Footprint(flow.value) else {}
  }

  /** The flow was built from `config`. */
  ghost predicate FlowValid(config: FlowsConfig, flow: FlowRef)
    reads Footprint(flow)
  {
    match flow
    case SmileFlow(_) => true
    case FacialExpressionFlow(facialExpression) => facialExpression.config == FacialExpressionConfig(config)
    case AngledFacesFlow(angledFaces) => angledFaces.config == AngledFacesConfig(config)
    case AngledFacesWithSmileFlow(composite) =>
      composite.Valid() && composite.faceRecognition == config.faceRecognition
  }

  /** A flow's state as a value. */
  datatype FlowState =
    | SmileState(smile: LibSmile.SmileModel)
    | FacialExpressionState(facialExpression: RandomFacialExpression.FlowModel)
    | AngledFacesState(angledFaces: AngledFaces.FlowModel)
    | AngledFacesWithSmileState(composite: AngledFacesWithSmile.FlowModel)

  function StateOf(flow: FlowRef): FlowState
    reads Footprint(flow)
  {
    match flow
    case SmileFlow(smile) => SmileState(smile.Model())
    case FacialExpressionFlow(facialExpression) => FacialExpressionState(facialExpression.Model())
    case AngledFacesFlow(angledFaces) => AngledFacesState(angledFaces.Model())
    case AngledFacesWithSmileFlow(composite) => AngledFacesWithSmileState(composite.Model())
  }

  /** `verificationStateFlow`: what the flow publishes. */
  function Published(state: FlowState): VerificationState {
    match state
    case SmileState(m) => m.verificationState
    case FacialExpressionState(m) => m.verificationState
    case AngledFacesState(m) => m.verificationStateFlow
    case AngledFacesWithSmileState(m) => m.verificationStateFlow
  }

  /** A newly built flow of the option's type, before `initialise`. */
  function Fresh(option: LivelinessDetectionOption, emotionsToDetect: seq<string>): FlowState
    requires HasFlow(option)
  {
    match option
    case SMILE => SmileState(LibSmile.Initial())
    case RANDOM_FACIAL_EXPRESSION => FacialExpressionState(RandomFacialExpression.Initial(emotionsToDetect))
    case ANGLED_FACES => AngledFacesState(AngledFaces.Initial())
    case ANGLED_FACES_WITH_SMILE => AngledFacesWithSmileState(AngledFacesWithSmile.Initial())
  }

  /** `initialise()` on the flow, whatever its type. */
  function Initialised(config: FlowsConfig, state: FlowState, coin: bool): FlowState {
    match state
    case SmileState(m) => SmileState(LibSmile.Initialised(m))
    case FacialExpressionState(m) =>
      FacialExpressionState(RandomFacialExpression.Initialised(FacialExpressionConfig(config), m))
    case AngledFacesState(m) => AngledFacesState(AngledFaces.Initialised(AngledFacesConfig(config), m))
    case AngledFacesWithSmileState(m) =>
      AngledFacesWithSmileState(AngledFacesWithSmile.Initialised(config.faceRecognition, m, coin))
  }

  /** The flow's handling of one detected face. */
  function Handled(config: FlowsConfig, state: FlowState, face: FaceDetected): FlowState
    requires FixedDimension(config.faceRecognition)
  {
    match state
    case SmileState(m) => SmileState(LibSmile.Checked(m, face))
    case FacialExpressionState(m) =>
      FacialExpressionState(RandomFacialExpression.Checked(FacialExpressionConfig(config), m, face))
    case AngledFacesState(m) => AngledFacesState(AngledFaces.Invoked(AngledFacesConfig(config), m, face))
    case AngledFacesWithSmileState(m) =>
      AngledFacesWithSmileState(AngledFacesWithSmile.Invoked(config.faceRecognition, m, face))
  }

  /**
   * A flow built when the option changes: the fresh flow is initialised, and then
   * `combine` hands it the latest face the analyzer forwarded, if there is one.
   */
  function Rebuilt(config: FlowsConfig, option: LivelinessDetectionOption, emotionsToDetect: seq<string>,
                   coin: bool, lastFace: Option<FaceDetected>): FlowState
    requires FixedDimension(config.faceRecognition) && HasFlow(option)
  {
    var initialised := Initialised(config, Fresh(option, emotionsToDetect), coin);
    if lastFace.Some? then Handled(config, initialised, lastFace.value) else initialised
  }

  /** Initialising or handling a face never changes a flow's type. */
  lemma StepsKeepTheFlowType(config: FlowsConfig, state: FlowState, coin: bool, face: FaceDetected)
    requires FixedDimension(config.faceRecognition)
    ensures Initialised(config, state, coin).SmileState? == state.SmileState?
    ensures Initialised(config, state, coin).FacialExpressionState? == state.FacialExpressionState?
    ensures Initialised(config, state, coin).AngledFacesState? == state.AngledFacesState?
    ensures Handled(config, state, face).SmileState? == state.SmileState?
    ensures Handled(config, state, face).FacialExpressionState? == state.FacialExpressionState?
    ensures Handled(config, state, face).AngledFacesState? == state.AngledFacesState?
  {
  }

  /**
   * The `when (detectionOption)` block followed by `.also { it.initialise() }`: a
   * fresh flow of the option's type, initialised. The facial-expression flow draws
   * `emotionsToDetect` (two distinct eligible labels) when it is built.
   */
  method MakeFlow(config: FlowsConfig, option: LivelinessDetectionOption, rnd: nat -> nat, coin: bool)
    returns (flow: FlowRef, ghost emotionsToDetect: seq<string>)
    requires ValidConfig(config) && HasFlow(option)
    ensures fresh(Footprint(flow))
    ensures FlowValid(config, flow) && OptionOf(flow) == option
    ensures StateOf(flow) == Initialised(config, Fresh(option, emotionsToDetect), coin)
    ensures option == RANDOM_FACIAL_EXPRESSION ==>
      && |emotionsToDetect| == EmotionsNumberToDetect
      && LabelDraw.Distinct(emotionsToDetect)
      && forall e | e in emotionsToDetect :: e in config.labels && e !in RandomFacialExpression.ExcludedEmotions
  {
    emotionsToDetect := [];
    match option
    case SMILE =>
      var smile := new LibSmile.Smile();
      smile.Initialise();
      flow := SmileFlow(smile);
    case RANDOM_FACIAL_EXPRESSION =>
      var created := RandomFacialExpression.Create(FacialExpressionConfig(config), config.labels,
                                                   EmotionsNumberToDetect, rnd);
      var facialExpression := created.value;
      emotionsToDetect := facialExpression.emotionsToDetect;
      facialExpression.Initialise();
      flow := FacialExpressionFlow(facialExpression);
    case ANGLED_FACES =>
      var angledFaces := new AngledFaces.AngledFaces(config.faceRecognition, true);
      angledFaces.Initialise();
      flow := AngledFacesFlow(angledFaces);
    case ANGLED_FACES_WITH_SMILE =>
      var composite := new AngledFacesWithSmile.AngledFacesWithSmile(config.faceRecognition);
      composite.Initialise(coin);
      flow := AngledFacesWithSmileFlow(composite);
  }

  /**
   * A flow for a new option, as `combine` delivers it: built and initialised, then
   * given the latest face, if any.
   */
  method RebuildFlow(config: FlowsConfig, option: LivelinessDetectionOption, rnd: nat -> nat, coin: bool,
                     lastFace: Option<FaceDetected>)
    returns (flow: FlowRef, ghost emotionsToDetect: seq<string>)
    requires ValidConfig(config) && HasFlow(option)
    ensures fresh(Footprint(flow))
    ensures FlowValid(config, flow) && OptionOf(flow) == option
    ensures StateOf(flow) == Rebuilt(config, option, emotionsToDetect, coin, lastFace)
  {
    flow, emotionsToDetect := MakeFlow(config, option, rnd, coin);
    if lastFace.Some? {
      HandleFace(config, flow, lastFace.value);
    }
  }

  /** `initialise()` on the current flow. */
  method InitialiseFlow(config: FlowsConfig, flow: FlowRef, coin: bool)
    requires FlowValid(config, flow)
    modifies Footprint(flow)
    ensures FlowValid(config, flow)
    ensures fresh(Footprint(flow) - old(Footprint(flow)))
    ensures StateOf(flow) == Initialised(config, old(StateOf(flow)), coin)
  {
    match flow
    case SmileFlow(smile) => smile.Initialise();
    case FacialExpressionFlow(facialExpression) => facialExpression.Initialise();
    case AngledFacesFlow(angledFaces) => angledFaces.Initialise();
    case AngledFacesWithSmileFlow(composite) => composite.Initialise(coin);
  }

  /** `performFaceCheck(face)` / `invokeVerificationFlow(face)` on the current flow. */
  method HandleFace(config: FlowsConfig, flow: FlowRef, face: FaceDetected)
    requires ValidConfig(config) && FlowValid(config, flow)
    modifies Footprint(flow)
    ensures FlowValid(config, flow) && Footprint(flow) == old(Footprint(flow))
    ensures StateOf(flow) == Handled(config, old(StateOf(flow)), face)
  {
    match flow
    case SmileFlow(smile) => smile.PerformFaceCheck(face);
    case FacialExpressionFlow(facialExpression) => facialExpression.PerformFaceCheck(face);
    case AngledFacesFlow(angledFaces) => angledFaces.InvokeVerificationFlow(face);
    case AngledFacesWithSmileFlow(composite) => composite.InvokeVerificationFlow(face);
  }
}
