/**
 * The app's composite `AngledFacesWithSmile` flow: a coin decides whether the smile or the
 * angled-faces challenge runs first; each runs once, on its own sub-flow object, and the
 * samples of both are finally checked to be of one person.
 */
module AngledFacesWithSmile {
  import opened Wrappers
  import opened Graphics
  import opened Verification
  import AppSmile
  import AngledFaces

  datatype State = Start | DetectSmile | DetectAngledFaces | CheckAreAllImagesSamePerson | Error | Finished
  datatype Event = Start | DetectSmile | DetectAngledFaces | Error | Finish | Reset

  /** The angled-faces sub-flow always runs with its own check switched off. */
  function AngledConfig(faceRecognition: FaceRecognition): AngledFaces.Config
  {
    AngledFaces.Config(faceRecognition, false)
  }

  /**
   * The declared transitions. Moving on from one challenge goes to the check instead when
   * the other sub-flow has already published Finished. `Start` and `Reset` are never used.
   */
  function NextState(from: State, event: Event, smileFinished: bool, angledFacesFinished: bool): (next: Option<State>)
    ensures next.Some? ==> next.value != State.Start
    ensures event in {Event.Start, Event.Reset} ==> next.None?
    ensures next == Some(CheckAreAllImagesSamePerson) <==>
      (from == State.DetectSmile && event == Event.DetectAngledFaces && angledFacesFinished)
      || (from == State.DetectAngledFaces && event == Event.DetectSmile && smileFinished)
    ensures next.Some? && next.value in {State.Finished, State.Error} ==> from == CheckAreAllImagesSamePerson
  {
    match (from, event)
    case (Start, DetectSmile) => Some(State.DetectSmile)
    case (Start, DetectAngledFaces) => Some(State.DetectAngledFaces)
    case (DetectAngledFaces, DetectSmile) =>
      if smileFinished then Some(CheckAreAllImagesSamePerson) else Some(State.DetectSmile)
    case (DetectSmile, DetectAngledFaces) =>
      if angledFacesFinished then Some(CheckAreAllImagesSamePerson) else Some(State.DetectAngledFaces)
    case (CheckAreAllImagesSamePerson, Finish) => Some(State.Finished)
    case (CheckAreAllImagesSamePerson, Error) => Some(State.Error)
    case (Error, DetectSmile) => Some(State.DetectSmile)
    case (Error, DetectAngledFaces) => Some(State.DetectAngledFaces)
    case (Finished, DetectSmile) => Some(State.DetectSmile)
    case (Finished, DetectAngledFaces) => Some(State.DetectAngledFaces)
    case _ => None
  }

  /** The composite's own state and the state of its two current sub-flow objects. */
  datatype FlowModel = FlowModel(
    machine: State,
    verificationStateFlow: VerificationState,
    faceList: seq<Bitmap>,
    smileFlow: AppSmile.SmileModel,
    angledFacesFlow: AngledFaces.FlowModel)

  function Initial(): FlowModel
  {
    FlowModel(State.Start, VerificationState.Start, [], AppSmile.Initial(), AngledFaces.Initial())
  }

  /** The `onEnter` hooks: entering a challenge initialises its sub-flow. */
  function OnEnter(faceRecognition: FaceRecognition, m: FlowModel, state: State): FlowModel
  {
    match state
    case DetectAngledFaces =>
      m.(angledFacesFlow := AngledFaces.Initialised(AngledConfig(faceRecognition), m.angledFacesFlow))
    case DetectSmile => m.(smileFlow := AppSmile.Initialised(m.smileFlow))
    case CheckAreAllImagesSamePerson => m.(verificationStateFlow := Working(AdditionalChecksMessage))
    case Error => m.(verificationStateFlow := VerificationState.Error(DifferentPersonMessage))
    case Finished => m.(verificationStateFlow := VerificationState.Finished)
    case Start => m
  }

  function Fired(faceRecognition: FaceRecognition, m: FlowModel, event: Event): FlowModel
  {
    var smileFinished := m.smileFlow.verificationFlowState == VerificationState.Finished;
    var angledFacesFinished := m.angledFacesFlow.verificationStateFlow == VerificationState.Finished;
    match NextState(m.machine, event, smileFinished, angledFacesFinished)
    case None => m
    case Some(next) => OnEnter(faceRecognition, m.(machine := next), next)
  }

  /** Only Working and Error states of a sub-flow are passed on to the composite. */
  predicate IsMirrored(state: VerificationState)
  {
    state.Working? || state.Error?
  }

  /**
   * The subscription to both sub-flows, applied after each call: a sub-flow whose published
   * state has changed since `smileBefore`/`angledFacesBefore` to a Working or Error state has
   * that state copied into the composite.
   */
  function Mirrored(m: FlowModel, smileBefore: VerificationState, angledFacesBefore: VerificationState): (r: FlowModel)
    ensures r.machine == m.machine && r.faceList == m.faceList
    ensures r.smileFlow == m.smileFlow && r.angledFacesFlow == m.angledFacesFlow
    ensures r.verificationStateFlow == m.verificationStateFlow
         || r.verificationStateFlow == m.smileFlow.verificationFlowState != smileBefore
         || r.verificationStateFlow == m.angledFacesFlow.verificationStateFlow != angledFacesBefore
    ensures r.verificationStateFlow != m.verificationStateFlow ==> IsMirrored(r.verificationStateFlow)
  {
    if m.smileFlow.verificationFlowState != smileBefore && IsMirrored(m.smileFlow.verificationFlowState) then
      m.(verificationStateFlow := m.smileFlow.verificationFlowState)
    else if m.angledFacesFlow.verificationStateFlow != angledFacesBefore && IsMirrored(m.angledFacesFlow.verificationStateFlow) then
      m.(verificationStateFlow := m.angledFacesFlow.verificationStateFlow)
    else m
  }

  /** The challenge state the coin of `initialise` picks. */
  function Picked(coin: bool): State
  {
    if coin then State.DetectSmile else State.DetectAngledFaces
  }

  /**
   * `initialise()`: publishes Start, replaces both sub-flows by fresh ones, clears the samples
   * and fires the challenge the coin picks; a fresh subscription then copies the current
   * Working or Error state of either sub-flow. The picked challenge starts, with its prompt,
   * from every state except the check and that challenge itself, which declare no such
   * transition: there the machine stays put, Start is published and the sub-flows stay unstarted.
   */
  function Initialised(faceRecognition: FaceRecognition, m: FlowModel, coin: bool): (r: FlowModel)
    ensures r.faceList == []
    ensures m.machine in {CheckAreAllImagesSamePerson, Picked(coin)} ==> r == Initial().(machine := m.machine)
    ensures m.machine !in {CheckAreAllImagesSamePerson, Picked(coin)} ==>
      if coin then
        r.machine == State.DetectSmile && r.smileFlow == AppSmile.Initialised(AppSmile.Initial())
        && r.angledFacesFlow == AngledFaces.Initial() && r.verificationStateFlow == Working(AppSmile.SmilePrompt)
      else
        r.machine == State.DetectAngledFaces && r.smileFlow == AppSmile.Initial()
        && r.angledFacesFlow == AngledFaces.Initialised(AngledConfig(faceRecognition), AngledFaces.Initial())
        && r.verificationStateFlow == Working(AngledFaces.StraightMessage)
  {
    var reset := m.(verificationStateFlow := VerificationState.Start, smileFlow := AppSmile.Initial(),
                    angledFacesFlow := AngledFaces.Initial(), faceList := []);
    var fired := Fired(faceRecognition, reset, if coin then Event.DetectSmile else Event.DetectAngledFaces);
    Mirrored(fired, VerificationState.Start, VerificationState.Start)
  }

  /**
   * `invokeVerificationFlow(face)`. In a challenge state only the active sub-flow sees the
   * face; when it publishes Finished the composite moves to the other challenge, or to the
   * check if the other has already finished. In the check the Smile samples and then the
   * angled-face samples are appended and all pairs are compared: Finished if all agree, else
   * Error. In Start, Error and Finished nothing happens.
   */
  function Invoked(faceRecognition: FaceRecognition, m: FlowModel, face: FaceDetected): (r: FlowModel)
    requires FixedDimension(faceRecognition)
    ensures m.machine == State.DetectSmile ==>
      var smiled := AppSmile.Invoked(m.smileFlow, face);
      r.smileFlow == smiled && r.faceList == m.faceList
      && (smiled.verificationFlowState != VerificationState.Finished ==>
            r.machine == State.DetectSmile && r.angledFacesFlow == m.angledFacesFlow
            && r.verificationStateFlow ==
                 (if smiled.verificationFlowState != m.smileFlow.verificationFlowState && IsMirrored(smiled.verificationFlowState)
                  then smiled.verificationFlowState else m.verificationStateFlow))
      && (smiled.verificationFlowState == VerificationState.Finished
          && m.angledFacesFlow.verificationStateFlow == VerificationState.Finished ==>
            r.machine == CheckAreAllImagesSamePerson && r.angledFacesFlow == m.angledFacesFlow
            && r.verificationStateFlow == Working(AdditionalChecksMessage))
      && (smiled.verificationFlowState == VerificationState.Finished
          && m.angledFacesFlow.verificationStateFlow != VerificationState.Finished ==>
            var started := AngledFaces.Initialised(AngledConfig(faceRecognition), m.angledFacesFlow);
            r.machine == State.DetectAngledFaces && r.angledFacesFlow == started
            && r.verificationStateFlow ==
                 (if started.verificationStateFlow != m.angledFacesFlow.verificationStateFlow && IsMirrored(started.verificationStateFlow)
                  then started.verificationStateFlow else m.verificationStateFlow))
    ensures m.machine == State.DetectAngledFaces ==>
      var turned := AngledFaces.Invoked(AngledConfig(faceRecognition), m.angledFacesFlow, face);
      r.angledFacesFlow == turned && r.faceList == m.faceList
      && (turned.verificationStateFlow != VerificationState.Finished ==>
            r.machine == State.DetectAngledFaces && r.smileFlow == m.smileFlow
            && r.verificationStateFlow ==
                 (if turned.verificationStateFlow != m.angledFacesFlow.verificationStateFlow && IsMirrored(turned.verificationStateFlow)
                  then turned.verificationStateFlow else m.verificationStateFlow))
      && (turned.verificationStateFlow == VerificationState.Finished
          && m.smileFlow.verificationFlowState == VerificationState.Finished ==>
            r.machine == CheckAreAllImagesSamePerson && r.smileFlow == m.smileFlow
            && r.verificationStateFlow == Working(AdditionalChecksMessage))
      && (turned.verificationStateFlow == VerificationState.Finished
          && m.smileFlow.verificationFlowState != VerificationState.Finished ==>
            var started := AppSmile.Initialised(m.smileFlow);
            r.machine == State.DetectSmile && r.smileFlow == started
            && r.verificationStateFlow ==
                 (if started.verificationFlowState != m.smileFlow.verificationFlowState && IsMirrored(started.verificationFlowState)
                  then started.verificationFlowState else m.verificationStateFlow))
    ensures m.machine == CheckAreAllImagesSamePerson ==>
      var collected := m.faceList + m.smileFlow.faceList + m.angledFacesFlow.faceList;
      r == m.(faceList := collected,
              machine := if AreAllImagesSamePerson(faceRecognition, collected) then State.Finished else State.Error,
              verificationStateFlow := if AreAllImagesSamePerson(faceRecognition, collected) then VerificationState.Finished
                                       else VerificationState.Error(DifferentPersonMessage))
    ensures m.machine in {State.Start, State.Error, State.Finished} ==> r == m
  {
    match m.machine
    case DetectAngledFaces =>
      var stepped := m.(angledFacesFlow := AngledFaces.Invoked(AngledConfig(faceRecognition), m.angledFacesFlow, face));
      var next := if stepped.angledFacesFlow.verificationStateFlow == VerificationState.Finished
                  then Fired(faceRecognition, stepped, Event.DetectSmile) else stepped;
      Mirrored(next, m.smileFlow.verificationFlowState, m.angledFacesFlow.verificationStateFlow)
    case DetectSmile =>
      var stepped := m.(smileFlow := AppSmile.Invoked(m.smileFlow, face));
      var next := if stepped.smileFlow.verificationFlowState == VerificationState.Finished
                  then Fired(faceRecognition, stepped, Event.DetectAngledFaces) else stepped;
      Mirrored(next, m.smileFlow.verificationFlowState, m.angledFacesFlow.verificationStateFlow)
    case CheckAreAllImagesSamePerson =>
      var collected := m.(faceList := m.faceList + m.smileFlow.faceList + m.angledFacesFlow.faceList);
      if AreAllImagesSamePerson(faceRecognition, collected.faceList) then Fired(faceRecognition, collected, Finish)
      else Fired(faceRecognition, collected, Event.Error)
    case _ => m
  }

  function Step(faceRecognition: FaceRecognition, m: FlowModel, input: Input): FlowModel
    requires FixedDimension(faceRecognition)
  {
    match input
    case Initialise(coin) => Initialised(faceRecognition, m, coin)
    case Observe(face) => Invoked(faceRecognition, m, face)
  }

  function Run(faceRecognition: FaceRecognition, m: FlowModel, inputs: seq<Input>): FlowModel
    requires FixedDimension(faceRecognition)
    decreases |inputs|
  {
    if |inputs| == 0 then m else Run(faceRecognition, Step(faceRecognition, m, inputs[0]), inputs[1..])
  }

  /** What holds of the Smile sub-flow inside the composite: at most its one sample once smiling. */
  ghost predicate SmileSane(m: FlowModel)
  {
    var smile := m.smileFlow;
    (smile.machine == AppSmile.State.Detecting ==> smile.faceList == [] && smile.verificationFlowState == Working(AppSmile.SmilePrompt))
    && (smile.machine == AppSmile.State.Detected ==> |smile.faceList| == 1 && smile.verificationFlowState == VerificationState.Finished)
    && (smile.machine == AppSmile.State.Start ==>
          smile.verificationFlowState == VerificationState.Start && (m.machine != State.DetectSmile ==> smile.faceList == []))
  }

  /**
   * What holds of every reachable state: the challenges run one at a time (the active one
   * has not finished; the other has not started or has finished); the check and the end
   * states follow one finished run of each (or a re-initialisation during the check, with
   * fresh empty sub-flows); and an end state holds the Smile samples followed by the
   * angled-face samples.
   */
  ghost predicate Consistent(m: FlowModel)
  {
    SmileSane(m)
    && AngledFaces.Consistent(m.angledFacesFlow)
    && (m.machine == State.Start ==> m.smileFlow == AppSmile.Initial() && m.angledFacesFlow == AngledFaces.Initial() && m.faceList == [])
    && (m.machine == State.DetectSmile ==>
          m.faceList == [] && m.smileFlow.machine != AppSmile.State.Detected
          && m.angledFacesFlow.machine in {AngledFaces.State.Start, AngledFaces.State.Finished})
    && (m.machine == State.DetectAngledFaces ==>
          m.faceList == [] && m.angledFacesFlow.machine != AngledFaces.State.Finished
          && m.smileFlow.machine in {AppSmile.State.Start, AppSmile.State.Detected})
    && (m.machine in {CheckAreAllImagesSamePerson, State.Finished, State.Error} ==>
          (m.smileFlow.machine == AppSmile.State.Detected && m.angledFacesFlow.machine == AngledFaces.State.Finished)
          || (m.smileFlow == AppSmile.Initial() && m.angledFacesFlow == AngledFaces.Initial()))
    && (m.machine == CheckAreAllImagesSamePerson ==> m.faceList == [])
    && (m.machine in {State.Finished, State.Error} ==> m.faceList == m.smileFlow.faceList + m.angledFacesFlow.faceList)
    && (m.machine == State.Finished ==> m.verificationStateFlow == VerificationState.Finished)
    && (m.machine == State.Error ==> m.verificationStateFlow == VerificationState.Error(DifferentPersonMessage))
  }

  lemma InitialConsistent()
    ensures Consistent(Initial())
  {
  }

  lemma InitialisedKeepsConsistent(faceRecognition: FaceRecognition, m: FlowModel, coin: bool)
    requires Consistent(m)
    ensures Consistent(Initialised(faceRecognition, m, coin))
  {
  }

  lemma InvokedKeepsConsistent(faceRecognition: FaceRecognition, m: FlowModel, face: FaceDetected)
    requires FixedDimension(faceRecognition) && Consistent(m)
    ensures Consistent(Invoked(faceRecognition, m, face))
  {
    if m.machine == State.DetectAngledFaces {
      AngledFaces.StepKeepsConsistent(AngledConfig(faceRecognition), m.angledFacesFlow, Observe(face));
    }
  }

  lemma StepKeepsConsistent(faceRecognition: FaceRecognition, m: FlowModel, input: Input)
    requires FixedDimension(faceRecognition) && Consistent(m)
    ensures Consistent(Step(faceRecognition, m, input))
  {
    match input
    case Initialise(coin) => InitialisedKeepsConsistent(faceRecognition, m, coin);
    case Observe(face) => InvokedKeepsConsistent(faceRecognition, m, face);
  }

  /** An ended session holds one Smile sample and three angled-face samples, or nothing. */
  lemma EndedSessionSamples(m: FlowModel)
    requires Consistent(m) && m.machine in {State.Finished, State.Error}
    ensures |m.faceList| in {0, 4}
  {
  }

  /**
   * Every reachable state is consistent; so a session that ends holds the one Smile sample
   * followed by the three angled-face samples (or nothing, when it was re-initialised during
   * the check).
   */
  lemma {:induction false} RunKeepsConsistent(faceRecognition: FaceRecognition, m: FlowModel, inputs: seq<Input>)
    requires FixedDimension(faceRecognition) && Consistent(m)
    ensures Consistent(Run(faceRecognition, m, inputs))
    decreases |inputs|
  {
    if |inputs| > 0 {
      StepKeepsConsistent(faceRecognition, m, inputs[0]);
      RunKeepsConsistent(faceRecognition, Step(faceRecognition, m, inputs[0]), inputs[1..]);
    }
  }

  /** From the start, any session that ends holds either no sample or exactly four. */
  lemma SessionSamples(faceRecognition: FaceRecognition, inputs: seq<Input>)
    requires FixedDimension(faceRecognition)
    ensures Run(faceRecognition, Initial(), inputs).machine in {State.Finished, State.Error} ==>
      |Run(faceRecognition, Initial(), inputs).faceList| in {0, 4}
  {
    InitialConsistent();
    RunKeepsConsistent(faceRecognition, Initial(), inputs);
    if Run(faceRecognition, Initial(), inputs).machine in {State.Finished, State.Error} {
      EndedSessionSamples(Run(faceRecognition, Initial(), inputs));
    }
  }

  /** The inputs that only observe faces. */
  function Observations(faces: seq<FaceDetected>): (inputs: seq<Input>)
    ensures |inputs| == |faces| && forall i :: 0 <= i < |faces| ==> inputs[i] == Observe(faces[i])
  {
    seq(|faces|, i requires 0 <= i < |faces| => Observe(faces[i]))
  }

  lemma {:induction false} StalledSmileStaysStalled(faceRecognition: FaceRecognition, m: FlowModel, faces: seq<FaceDetected>)
    requires FixedDimension(faceRecognition)
    requires m.machine == State.DetectSmile && m.smileFlow.machine == AppSmile.State.Start
    requires m.smileFlow.verificationFlowState == VerificationState.Start
    ensures Run(faceRecognition, m, Observations(faces)).machine == State.DetectSmile
    ensures Run(faceRecognition, m, Observations(faces)).verificationStateFlow == m.verificationStateFlow
    decreases |faces|
  {
    if |faces| > 0 {
      assert Observations(faces)[1..] == Observations(faces[1..]);
      StalledSmileStaysStalled(faceRecognition, Invoked(faceRecognition, m, faces[0]), faces[1..]);
    }
  }

  lemma {:induction false} StalledAngledFacesStayStalled(faceRecognition: FaceRecognition, m: FlowModel, faces: seq<FaceDetected>)
    requires FixedDimension(faceRecognition)
    requires m.machine == State.DetectAngledFaces && m.angledFacesFlow.machine == AngledFaces.State.Start
    requires m.angledFacesFlow.verificationStateFlow == VerificationState.Start
    ensures Run(faceRecognition, m, Observations(faces)).machine == State.DetectAngledFaces
    ensures Run(faceRecognition, m, Observations(faces)).verificationStateFlow == m.verificationStateFlow
    decreases |faces|
  {
    if |faces| > 0 {
      assert Observations(faces)[1..] == Observations(faces[1..]);
      StalledAngledFacesStayStalled(faceRecognition, Invoked(faceRecognition, m, faces[0]), faces[1..]);
    }
  }

  /**
   * Re-initialising while a challenge is active, with the coin picking that same challenge,
   * fires an event the state does not declare: the fresh sub-flow is never initialised, the
   * composite keeps publishing Start and no observation ever moves it on.
   */
  lemma ReinitialisingActiveChallengeStalls(faceRecognition: FaceRecognition, m: FlowModel, faces: seq<FaceDetected>)
    requires FixedDimension(faceRecognition)
    requires m.machine in {State.DetectSmile, State.DetectAngledFaces}
    ensures var coin := m.machine == State.DetectSmile;
      var stalled := Initialised(faceRecognition, m, coin);
      stalled.machine == m.machine && stalled.verificationStateFlow == VerificationState.Start
      && Run(faceRecognition, stalled, Observations(faces)).machine == m.machine
      && Run(faceRecognition, stalled, Observations(faces)).verificationStateFlow == VerificationState.Start
  {
    var coin := m.machine == State.DetectSmile;
    var stalled := Initialised(faceRecognition, m, coin);
    if coin {
      StalledSmileStaysStalled(faceRecognition, stalled, faces);
    } else {
      StalledAngledFacesStayStalled(faceRecognition, stalled, faces);
    }
  }

  /** The composite flow object, holding its two current sub-flow objects. */
  class AngledFacesWithSmile {
    const faceRecognition: FaceRecognition
    var smileFlow: AppSmile.Smile
    var angledFacesFlow: AngledFaces.AngledFaces
    var machine: State
    var verificationStateFlow: VerificationState
    var faceList: seq<Bitmap>

    /** The angled-faces sub-flow is built with this flow's recognition model and no check. */
    ghost predicate Valid()
      reads this
    {
      angledFacesFlow.config == AngledConfig(faceRecognition)
    }

    function Model(): FlowModel
      reads this, smileFlow, angledFacesFlow
    {
      FlowModel(machine, verificationStateFlow, faceList, smileFlow.Model(), angledFacesFlow.Model())
    }

    constructor (faceRecognition: FaceRecognition)
      ensures Valid() && this.faceRecognition == faceRecognition && Model() == Initial()
    {
      this.faceRecognition := faceRecognition;
      smileFlow := new AppSmile.Smile();
      angledFacesFlow := new AngledFaces.AngledFaces(faceRecognition, false);
      machine := State.Start;
      verificationStateFlow := VerificationState.Start;
      faceList := [];
    }

    method Transition(event: Event)
      requires Valid()
      modifies this, smileFlow, angledFacesFlow
      ensures Valid() && smileFlow == old(smileFlow) && angledFacesFlow == old(angledFacesFlow)
      ensures Model() == Fired(faceRecognition, old(Model()), event)
    {
      var smileFinished := smileFlow.verificationFlowState == VerificationState.Finished;
      var angledFacesFinished := angledFacesFlow.verificationStateFlow == VerificationState.Finished;
      var next := NextState(machine, event, smileFinished, angledFacesFinished);
      if next.Some? {
        machine := next.value;
        match machine
        case DetectAngledFaces => angledFacesFlow.Initialise();
        case DetectSmile => smileFlow.Initialise();
        case CheckAreAllImagesSamePerson => verificationStateFlow := Working(AdditionalChecksMessage);
        case Error => verificationStateFlow := VerificationState.Error(DifferentPersonMessage);
        case Finished => verificationStateFlow := VerificationState.Finished;
        case Start =>
      }
    }

    /** The subscription's effect after a call: copy a changed Working or Error sub-flow state. */
    method Mirror(smileBefore: VerificationState, angledFacesBefore: VerificationState)
      modifies this
      ensures smileFlow == old(smileFlow) && angledFacesFlow == old(angledFacesFlow) && Valid() == old(Valid())
      ensures Model() == Mirrored(old(Model()), smileBefore, angledFacesBefore)
    {
      if smileFlow.verificationFlowState != smileBefore && IsMirrored(smileFlow.verificationFlowState) {
        verificationStateFlow := smileFlow.verificationFlowState;
      } else if angledFacesFlow.verificationStateFlow != angledFacesBefore && IsMirrored(angledFacesFlow.verificationStateFlow) {
        verificationStateFlow := angledFacesFlow.verificationStateFlow;
      }
    }

    /** `initialise()`; `coin` is `Random.nextBoolean()`. */
    method Initialise(coin: bool)
      requires Valid()
      modifies this
      ensures Valid() && fresh(smileFlow) && fresh(angledFacesFlow)
      ensures Model() == Initialised(faceRecognition, old(Model()), coin)
    {
      verificationStateFlow := VerificationState.Start;
      smileFlow := new AppSmile.Smile();
      angledFacesFlow := new AngledFaces.AngledFaces(faceRecognition, false);
      faceList := [];
      if coin {
        Transition(Event.DetectSmile);
      } else {
        Transition(Event.DetectAngledFaces);
      }
      Mirror(VerificationState.Start, VerificationState.Start);
    }

    /** `invokeVerificationFlow(face)`. */
    method InvokeVerificationFlow(face: FaceDetected)
      requires Valid() && FixedDimension(faceRecognition)
      modifies this, smileFlow, angledFacesFlow
      ensures Valid() && smileFlow == old(smileFlow) && angledFacesFlow == old(angledFacesFlow)
      ensures Model() == Invoked(faceRecognition, old(Model()), face)
    {
      var smileBefore := smileFlow.verificationFlowState;
      var angledFacesBefore := angledFacesFlow.verificationStateFlow;
      match machine
      case DetectAngledFaces =>
        angledFacesFlow.InvokeVerificationFlow(face);
        if angledFacesFlow.verificationStateFlow == VerificationState.Finished {
          Transition(Event.DetectSmile);
        }
        Mirror(smileBefore, angledFacesBefore);
      case DetectSmile =>
        smileFlow.InvokeVerificationFlow(face);
        if smileFlow.verificationFlowState == VerificationState.Finished {
          Transition(Event.DetectAngledFaces);
        }
        Mirror(smileBefore, angledFacesBefore);
      case CheckAreAllImagesSamePerson =>
        faceList := faceList + smileFlow.faceList;
        faceList := faceList + angledFacesFlow.faceList;
        if AreAllImagesSamePerson(faceRecognition, faceList) {
          Transition(Finish);
        } else {
          Transition(Event.Error);
        }
      case _ =>
    }
  }
}
