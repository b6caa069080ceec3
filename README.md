# Liveness detection: a Dafny model

This project models the core of an Android liveness-detection library and its demo app. Camera frames go through a face detector (ML Kit). A detected face drives a *challenge flow*, a small state machine that asks the user to smile, to show randomly chosen facial expressions, or to turn the head straight, left and right. Each flow collects face samples and publishes a `VerificationState` (`Start`, `Working(message)`, `Finished`, `Error(message)`) to the UI. When a challenge is complete, the samples are optionally checked to show one person. The check compares FaceNet embeddings pairwise under the L2 distance. The debug analyzers instead classify each face's emotions and identify it against an enrolled gallery.

The model covers:

- **Detection** (`LibFaceDetection`, `AppFaceDetection`, `AppMlChecksFaceDetection`, `AppFacedetection`). Each revision of `detectFace`/`analyzeImage` is a function of the frame and the detector's answer:
  - the width filter (`isFaceWideEnough`);
  - the feature thresholds (`checkFeatureOverThreshold`);
  - the one-face rule;
  - the error path.
- **Challenge flows** (`LibSmile`, `AppSmile`, `RandomFacialExpression`, `RandomEmotion`, `AngledFaces`, `AngledFacesWithSmile`). Each flow is a class whose fields the source updates in place. Its methods are proved equal to pure transition functions over a value record. Lemmas over runs of inputs state each flow's invariants: samples per state, terminal states, and the state published to the UI.
- **Random label draw** (`LabelDraw`). This is the `while` loop both emotion flows run at construction, written as an imperative method.
- **Face recognition** (`FaceNetFaceRecognition`, `Verification`):
  - the L2 and cosine formulas;
  - the same-person thresholds;
  - the all-pairs consistency check over `elementPairs` (`ConvenienceFunctions`);
  - the shared output buffer of `getImageProcessing`.
- **Ranking** (`Ranking`, `ClassifierService`, `ImageClassifierService`, `EmotionImageClassifier`). This is the top-k selection every classifier revision applies: it keeps labelled probabilities, sorts them stably by descending confidence and takes `min(size, k)`.
- **Analyzers** (`LibImageAnalyzer`, `LibImageAnalyzerCommon`, `LibImageAnalyzerDebug`, `AppImageAnalyzer`, `AppImageAnalyzerCommon`, with `FlowDispatch`, `Analysis` and `Gallery`):
  - the `isProcessing` gate, which drops frames while one is in flight;
  - routing of detection results to the result flow or to the current challenge flow;
  - rebuilding the flow when the detection option changes;
  - gallery identification: per-name average distance, best name under the metric.

Conventions:

- The detector's callback runs after `analyzeImage` returns. Each analyzer therefore handles a frame in two steps:
  - `AnalyzeImage`/`Analyze` records the detection result the callback will receive (`pending`);
  - `OnFaceAnalysisResult` runs the callback's coroutine.
- A frame without a media image never calls back. The analyzer then stays busy forever (`Stuck`).
- Inputs that are outside the model's reach are parameters:
  - the detector's answer;
  - the classifier's top result;
  - the embedder and the square root;
  - the random draw (a stream of indices);
  - the coin that orders the composite challenge;
  - the clock value `elapsedRealtime`.

## Model

| member | source | states |
|---|---|---|
| Analysis.Routed | LivelinesDetection/src/main/java/com/ionutv/livelinesdetection/features/ml_checks/ImageAnalyzer.kt:109-124 | Detector errors go to the result flow with their message. Several faces become the multiple-faces error, no face becomes `NoFaceDetected`. Only a detected face is not emitted directly (None exactly for `Detected`). |
| Analysis.Emotions | app/src/main/java/com/ionutv/livelinesdetection/features/emotion_detection/EmotionImageClassifier.kt:46-47 | The emotions of a crop are at most `maxResultNumber` (3) ranked results. |
| Analysis.Classified | LivelinesDetection/src/main/java/com/ionutv/livelinesdetection/features/ml_checks/ImageAnalyzerCommon.kt:146-165 | The emitted `FaceClassified` keeps the face box, the frame bitmap and the head angle, crops the face by its box, and carries that crop's emotions and the given name. |
| Analysis.ClassifyAndMatch | LivelinesDetection/src/main/java/com/ionutv/livelinesdetection/features/ml_checks/ImageAnalyzerCommon.kt:143-239 | Fails exactly when the gallery is empty. Otherwise it returns the classified face named with a best-average gallery name under L2 for the crop's embedding. The gallery is unchanged. |
| AngledFaces.AbsoluteValue | app/src/main/java/com/ionutv/livelinesdetection/features/ml_checks/detection_option_flows/AngledFaces.kt:146 | Kotlin's `Int.absoluteValue`: non-negative and equal to ±angle, except at `Int.MIN_VALUE`, where it stays negative. |
| AngledFaces.AcceptsAngle | app/src/main/java/com/ionutv/livelinesdetection/features/ml_checks/detection_option_flows/AngledFaces.kt:143-161 | The pose each detecting state waits for. `PoseWindows` states the three windows. |
| AngledFaces.NextState | app/src/main/java/com/ionutv/livelinesdetection/features/ml_checks/detection_option_flows/AngledFaces.kt:51-137 | The declared transitions: Finished and Error have none, Error follows only the check, the check follows the right side only when it is switched on, and Reset returns to Start from exactly the detecting states and the check. |
| AngledFaces.PoseWindows | app/src/main/java/com/ionutv/livelinesdetection/features/ml_checks/detection_option_flows/AngledFaces.kt:143-161 | The straight pose accepts `|angle| < 5`, and also `Int.MIN_VALUE`, because its `absoluteValue` stays negative. The left pose accepts [-30,-20] and the right pose [20,30]. ±5 is not straight. |
| AngledFaces.Initialised | app/src/main/java/com/ionutv/livelinesdetection/features/ml_checks/detection_option_flows/AngledFaces.kt:51-57 | `initialise` moves Start to DetectingFaceStraight with the straight prompt. In any other state it does nothing. |
| AngledFaces.Invoked | app/src/main/java/com/ionutv/livelinesdetection/features/ml_checks/detection_option_flows/AngledFaces.kt:143-176 | In a pose state, an accepted angle adds the crop and advances to the next pose with that state's message. CheckAreAllImagesSame goes to Finished or Error by the pairwise check. Start, Error and Finished ignore faces. |
| AngledFaces.InitialConsistent | app/src/main/java/com/ionutv/livelinesdetection/features/ml_checks/detection_option_flows/AngledFaces.kt:51-52 | The fresh flow satisfies the flow invariant. |
| AngledFaces.StepKeepsConsistent | app/src/main/java/com/ionutv/livelinesdetection/features/ml_checks/detection_option_flows/AngledFaces.kt:51-196 | Every `initialise` and every observed face keep the invariant. The invariant says the sample count equals the poses taken, and the published state is the one entered with the current machine state. |
| AngledFaces.RunKeepsConsistent | app/src/main/java/com/ionutv/livelinesdetection/features/ml_checks/detection_option_flows/AngledFaces.kt:51-196 | Any run keeps the invariant. A finished session holds exactly three samples. |
| AngledFaces.EndStatesAreTerminal | app/src/main/java/com/ionutv/livelinesdetection/features/ml_checks/detection_option_flows/AngledFaces.kt:121-138 | From Error or Finished, no input changes the flow. |
| AngledFaces.StraightLeftRightFinishes | app/src/main/java/com/ionutv/livelinesdetection/features/ml_checks/detection_option_flows/AngledFaces.kt:143-161 | Without the similarity check, angles 0, -25, 25 after `initialise` finish the challenge with three samples. |
| AngledFaces.CheckWithFewSamplesPasses | app/src/main/java/com/ionutv/livelinesdetection/features/ml_checks/detection_option_flows/AngledFaces.kt:178-189 | Fewer than two samples have no pairs, so the check passes and the flow finishes. |
| AngledFaces.AngledFaces.constructor | app/src/main/java/com/ionutv/livelinesdetection/features/ml_checks/detection_option_flows/AngledFaces.kt:17-50 | A new flow is in Start, publishes Start and has no samples. |
| AngledFaces.AngledFaces.Transition | app/src/main/java/com/ionutv/livelinesdetection/features/ml_checks/detection_option_flows/AngledFaces.kt:51-138 | Firing an event updates the machine and published state as the transition table says. |
| AngledFaces.AngledFaces.Initialise | app/src/main/java/com/ionutv/livelinesdetection/features/ml_checks/detection_option_flows/AngledFaces.kt:139-141 | The object after `initialise` is the specification's `Initialised`. |
| AngledFaces.AngledFaces.PerformStateTransition | app/src/main/java/com/ionutv/livelinesdetection/features/ml_checks/detection_option_flows/AngledFaces.kt:190-196 | Appends the face crop to the samples, then fires Detected. |
| AngledFaces.AngledFaces.InvokeVerificationFlow | app/src/main/java/com/ionutv/livelinesdetection/features/ml_checks/detection_option_flows/AngledFaces.kt:143-176 | The object after handling a face is the specification's `Invoked`. |
| AngledFacesWithSmile.NextState | app/src/main/java/com/ionutv/livelinesdetection/features/ml_checks/detection_option_flows/AngledFacesWithSmile.kt:56-131 | The declared transitions: Start is never re-entered and its Start and Reset events are never declared. Moving on from one challenge goes to the check exactly when the other has finished. Finished and Error follow only the check. |
| AngledFacesWithSmile.Mirrored | app/src/main/java/com/ionutv/livelinesdetection/features/ml_checks/detection_option_flows/AngledFacesWithSmile.kt:133-155 | The composite's published state either stays or becomes the state of a sub-flow that changed. Nothing else changes. |
| AngledFacesWithSmile.Initialised | app/src/main/java/com/ionutv/livelinesdetection/features/ml_checks/detection_option_flows/AngledFacesWithSmile.kt:56-155 | `initialise` always clears the samples and builds fresh sub-flows. From Start, Error, Finished or the challenge the coin did not pick, it starts the picked challenge and publishes its prompt. During the check or the picked challenge itself, no transition is declared: the machine stays put, Start is published and both sub-flows stay unstarted. |
| AngledFacesWithSmile.Invoked | app/src/main/java/com/ionutv/livelinesdetection/features/ml_checks/detection_option_flows/AngledFacesWithSmile.kt:156-192 | The active sub-flow handles the face, and its changed Working or Error state is published. When it finishes, the other challenge is started, or the pairwise check is announced when both are done. The check ends in Finished or Error. |
| AngledFacesWithSmile.InitialConsistent | app/src/main/java/com/ionutv/livelinesdetection/features/ml_checks/detection_option_flows/AngledFacesWithSmile.kt:56-57 | The fresh composite satisfies its invariant. |
| AngledFacesWithSmile.InitialisedKeepsConsistent | app/src/main/java/com/ionutv/livelinesdetection/features/ml_checks/detection_option_flows/AngledFacesWithSmile.kt:133-155 | `initialise` keeps the invariant: one challenge runs at a time, and an ended session holds smile samples then angled samples. |
| AngledFacesWithSmile.InvokedKeepsConsistent | app/src/main/java/com/ionutv/livelinesdetection/features/ml_checks/detection_option_flows/AngledFacesWithSmile.kt:156-192 | Handling a face keeps the invariant. |
| AngledFacesWithSmile.StepKeepsConsistent | app/src/main/java/com/ionutv/livelinesdetection/features/ml_checks/detection_option_flows/AngledFacesWithSmile.kt:56-192 | Every input keeps the invariant. |
| AngledFacesWithSmile.EndedSessionSamples | app/src/main/java/com/ionutv/livelinesdetection/features/ml_checks/detection_option_flows/AngledFacesWithSmile.kt:89-132 | An ended session holds either no samples or exactly four (one smile plus three poses). |
| AngledFacesWithSmile.RunKeepsConsistent | app/src/main/java/com/ionutv/livelinesdetection/features/ml_checks/detection_option_flows/AngledFacesWithSmile.kt:56-192 | Any run keeps the invariant. |
| AngledFacesWithSmile.SessionSamples | app/src/main/java/com/ionutv/livelinesdetection/features/ml_checks/detection_option_flows/AngledFacesWithSmile.kt:56-203 | Every session started fresh that reaches Finished or Error holds 0 or 4 samples. |
| AngledFacesWithSmile.Observations | app/src/main/java/com/ionutv/livelinesdetection/features/ml_checks/detection_option_flows/AngledFacesWithSmile.kt:156-168 | A sequence of faces becomes the sequence of observations, one for one. |
| AngledFacesWithSmile.StalledSmileStaysStalled | app/src/main/java/com/ionutv/livelinesdetection/features/ml_checks/detection_option_flows/AngledFacesWithSmile.kt:77-168 | If the smile challenge is active but its sub-flow was never started, no face ever advances the composite or its published state. |
| AngledFacesWithSmile.StalledAngledFacesStayStalled | app/src/main/java/com/ionutv/livelinesdetection/features/ml_checks/detection_option_flows/AngledFacesWithSmile.kt:66-168 | The same holds for an unstarted angled-faces sub-flow. |
| AngledFacesWithSmile.ReinitialisingActiveChallengeStalls | app/src/main/java/com/ionutv/livelinesdetection/features/ml_checks/detection_option_flows/AngledFacesWithSmile.kt:133-155 | Calling `initialise` during an active challenge, with the coin picking that same challenge, replaces its sub-flow by an unstarted one. From then on, faces never move the composite and it publishes Start. |
| AngledFacesWithSmile.AngledFacesWithSmile.constructor | app/src/main/java/com/ionutv/livelinesdetection/features/ml_checks/detection_option_flows/AngledFacesWithSmile.kt:22-57 | A new composite is in Start with fresh sub-flows and no samples. |
| AngledFacesWithSmile.AngledFacesWithSmile.Transition | app/src/main/java/com/ionutv/livelinesdetection/features/ml_checks/detection_option_flows/AngledFacesWithSmile.kt:56-132 | Firing an event follows the composite's transition table. |
| AngledFacesWithSmile.AngledFacesWithSmile.Mirror | app/src/main/java/com/ionutv/livelinesdetection/features/ml_checks/detection_option_flows/AngledFacesWithSmile.kt:147-153 | Mirroring sub-flow states into the composite is `Mirrored`. |
| AngledFacesWithSmile.AngledFacesWithSmile.Initialise | app/src/main/java/com/ionutv/livelinesdetection/features/ml_checks/detection_option_flows/AngledFacesWithSmile.kt:133-155 | The object after `initialise` is the specification's `Initialised`, with freshly allocated sub-flows. |
| AngledFacesWithSmile.AngledFacesWithSmile.InvokeVerificationFlow | app/src/main/java/com/ionutv/livelinesdetection/features/ml_checks/detection_option_flows/AngledFacesWithSmile.kt:156-192 | The object after handling a face is the specification's `Invoked`. |
| AppImageAnalyzer.Routed | app/src/main/java/com/ionutv/livelinesdetection/features/ml_checks/ImageAnalyzer.kt:55-71 | Same routing as the library, over the app detector's result type. |
| AppImageAnalyzer.ImageAnalyzer.constructor | app/src/main/java/com/ionutv/livelinesdetection/features/ml_checks/ImageAnalyzer.kt:24-38 | Idle, no pending callback, empty result flow and gallery. |
| AppImageAnalyzer.ImageAnalyzer.AddImageToFaceList | app/src/main/java/com/ionutv/livelinesdetection/features/ml_checks/ImageAnalyzer.kt:39-44 | Enrols the bitmap's embedding under the name at the end of the gallery. |
| AppImageAnalyzer.ImageAnalyzer.Analyze | app/src/main/java/com/ionutv/livelinesdetection/features/ml_checks/ImageAnalyzer.kt:46-75 | A busy analyzer drops the frame unchanged. An idle one becomes busy with the app detector's result (literal 0.30 width bound). A frame without media stays busy forever. |
| AppImageAnalyzer.ImageAnalyzer.OnFaceAnalysisResult | app/src/main/java/com/ionutv/livelinesdetection/features/ml_checks/ImageAnalyzer.kt:55-172 | Routes a non-face result and frees the gate. A face with an empty gallery throws and leaves the analyzer busy. Otherwise it appends exactly one identification (best L2 average) and frees the gate. |
| AppImageAnalyzerCommon.ImageAnalyzerCommon.constructor | app/src/main/java/com/ionutv/livelinesdetection/features/ml_checks/ImageAnalyzerCommon.kt:27-36 | Idle, no pending callback, empty result flow and gallery. |
| AppImageAnalyzerCommon.ImageAnalyzerCommon.AddImageToFaceList | app/src/main/java/com/ionutv/livelinesdetection/features/ml_checks/ImageAnalyzerCommon.kt:38-43 | Enrols the bitmap's embedding under the name. |
| AppImageAnalyzerCommon.ImageAnalyzerCommon.Analyze | app/src/main/java/com/ionutv/livelinesdetection/features/ml_checks/ImageAnalyzerCommon.kt:50-79 | A busy analyzer drops the frame. An idle one becomes busy with the detection result without classification. |
| AppImageAnalyzerCommon.ImageAnalyzerCommon.OnFaceAnalysisResult | app/src/main/java/com/ionutv/livelinesdetection/features/ml_checks/ImageAnalyzerCommon.kt:59-188 | Routes non-face results. Every face is classified and identified (one result appended), or the analyzer stays busy when the gallery is empty. |
| ClassifierService.GetTopProbability | app/src/main/java/com/ionutv/livelinesdetection/features/emotion_detection/Classifier.kt:111-131 | Fails exactly for a negative count. Otherwise returns `min(#labelled, k)` results, sorted by descending confidence. |
| ClassifierService.RecognitionsCarryTheirProbability | app/src/main/java/com/ionutv/livelinesdetection/features/emotion_detection/Classifier.kt:63-127 | Each `Recognition` is a label with its raw probability as confidence, `id == title`, null location. |
| ClassifierService.DefaultReturnsUpToThree | app/src/main/java/com/ionutv/livelinesdetection/features/emotion_detection/Classifier.kt:28-113 | With the default `maxResultNumber`, at most three results; fewer only when fewer labels have a probability. |
| ConvenienceFunctions.EmptyString | app/src/main/java/com/ionutv/livelinesdetection/utils/ConvenienceFunctions.kt:3 | The empty text has length 0. |
| ConvenienceFunctions.RowStartClosedForm | app/src/main/java/com/ionutv/livelinesdetection/utils/ConvenienceFunctions.kt:6-10 | The position where the pairs of element i start has a closed form. |
| ConvenienceFunctions.RowStartMonotone | app/src/main/java/com/ionutv/livelinesdetection/utils/ConvenienceFunctions.kt:6-10 | Later elements start their pairs later. |
| ConvenienceFunctions.RowsFromLength | app/src/main/java/com/ionutv/livelinesdetection/utils/ConvenienceFunctions.kt:6-10 | Counts the pairs produced from a suffix of the list. |
| ConvenienceFunctions.ElementPairs | app/src/main/java/com/ionutv/livelinesdetection/utils/ConvenienceFunctions.kt:6-10 | `elementPairs`: the pairs (list[i], list[j]) for i < j, outer index first. Its length, entries and order are stated by `ElementPairsLength`, `PairAtPosition` and `PairPositionOrdered`. |
| ConvenienceFunctions.ElementPairsLength | app/src/main/java/com/ionutv/livelinesdetection/utils/ConvenienceFunctions.kt:6-10 | `elementPairs` of n elements has n(n-1)/2 pairs. It is empty exactly when n < 2. |
| ConvenienceFunctions.RowsFromAt | app/src/main/java/com/ionutv/livelinesdetection/utils/ConvenienceFunctions.kt:6-10 | Each produced pair is (list[i], list[j]) with i < j. |
| ConvenienceFunctions.ElementPairsAt | app/src/main/java/com/ionutv/livelinesdetection/utils/ConvenienceFunctions.kt:6-10 | Every entry of `elementPairs` is (list[i], list[j]) for some i < j. |
| ConvenienceFunctions.RowsFromPosition | app/src/main/java/com/ionutv/livelinesdetection/utils/ConvenienceFunctions.kt:6-10 | Each i < j pair of a suffix sits at its computed position. |
| ConvenienceFunctions.PairAtPosition | app/src/main/java/com/ionutv/livelinesdetection/utils/ConvenienceFunctions.kt:6-10 | Every i < j pair occurs in `elementPairs`, at its computed position. |
| ConvenienceFunctions.PairPositionOrdered | app/src/main/java/com/ionutv/livelinesdetection/utils/ConvenienceFunctions.kt:6-10 | Positions follow the nested loops' lexicographic order and are unique. |
| ConvenienceFunctions.AllElementPairs | app/src/main/java/com/ionutv/livelinesdetection/utils/ConvenienceFunctions.kt:6-10 | A predicate holds on every produced pair exactly when it holds on (list[i], list[j]) for all i < j. |
| ConvenienceFunctions.PopOrNull | app/src/main/java/com/ionutv/livelinesdetection/utils/ConvenienceFunctions.kt:12-16 | An empty collection gives null and stays empty. Otherwise it returns the first element and removes it. |
| ConvenienceFunctions.PopOrNullRemovesOne | app/src/main/java/com/ionutv/livelinesdetection/utils/ConvenienceFunctions.kt:12-16 | Popping shrinks a non-empty collection by exactly one, and the popped element plus the rest is the original. |
| EmotionImageClassifier.KeyIndex | app/src/main/java/com/ionutv/livelinesdetection/features/emotion_detection/EmotionImageClassifier.kt:50-53 | Finds the first entry with the key, or -1 exactly when the key is absent. |
| EmotionImageClassifier.Put | app/src/main/java/com/ionutv/livelinesdetection/features/emotion_detection/EmotionImageClassifier.kt:50-53 | A map put overwrites the key's value in place, or appends a new key at the end. |
| EmotionImageClassifier.PutKeepsAMap | app/src/main/java/com/ionutv/livelinesdetection/features/emotion_detection/EmotionImageClassifier.kt:50-53 | A put keeps keys distinct, keeps other entries, and adds only the new pair. |
| EmotionImageClassifier.Labelled | app/src/main/java/com/ionutv/livelinesdetection/features/emotion_detection/EmotionImageClassifier.kt:50-53 | Labelling the output gives at most one entry per label. |
| EmotionImageClassifier.LabelledIsAMap | app/src/main/java/com/ionutv/livelinesdetection/features/emotion_detection/EmotionImageClassifier.kt:50-53 | The labelled map has distinct keys, all from the labels. A repeated label keeps its last value. |
| EmotionImageClassifier.DistinctLabelsPairInOrder | app/src/main/java/com/ionutv/livelinesdetection/features/emotion_detection/EmotionImageClassifier.kt:50-53 | With distinct labels, entry i is (label i, output i). |
| EmotionImageClassifier.LabelledProbabilities | app/src/main/java/com/ionutv/livelinesdetection/features/emotion_detection/EmotionImageClassifier.kt:50-53 | Labelling fails exactly when label and output counts differ. |
| EmotionImageClassifier.GetProbabilityFromOutput | app/src/main/java/com/ionutv/livelinesdetection/features/emotion_detection/EmotionImageClassifier.kt:49-88 | Succeeds exactly for matching sizes and a non-negative count. The result is `min(|map|, k)` sorted results, named by labels. |
| EmotionImageClassifier.AllProbabilitiesPresent | app/src/main/java/com/ionutv/livelinesdetection/features/emotion_detection/EmotionImageClassifier.kt:50-84 | When every entry has a value, none is skipped by the ranking. |
| EmotionImageClassifier.ClassifyEmotions | app/src/main/java/com/ionutv/livelinesdetection/features/emotion_detection/EmotionImageClassifier.kt:46-47 | Classifying a bitmap is the ranking of the model run's output: at most k results, sorted. |
| EmotionImageClassifier.DefaultEmotionRanking | app/src/main/java/com/ionutv/livelinesdetection/features/emotion_detection/EmotionImageClassifier.kt:28-55 | For distinct labels: `min(|labels|, 3)` results, each a label with its output as a rounded percentage. |
| AppFaceDetection.AnalyzeImage | app/src/main/java/com/ionutv/livelinesdetection/features/face_detection/FaceDetectionImageAnalyzer.kt:27-78 | No media: no callback. Detector failure becomes Error(message). 0 / >1 faces become NoFaceDetected / multiple faces. A lone face is reported with its box, the upright bitmap and the upright frame dimensions, without a width filter. |
| AppMlChecksFaceDetection.IsFaceTooNarrow | app/src/main/java/com/ionutv/livelinesdetection/features/ml_checks/face_detection/FaceDetectionImageAnalyzer.kt:55-70 | The face is too narrow when its width is strictly below 0.30 of the frame width (rotation 0 or 180) or height (otherwise). `AgreesWithLibraryExceptAtTheBound` compares it with the library's filter. |
| AppMlChecksFaceDetection.AnalyzeImage | app/src/main/java/com/ionutv/livelinesdetection/features/ml_checks/face_detection/FaceDetectionImageAnalyzer.kt:25-90 | As the library, but a lone face is rejected only when its width ratio is strictly below 0.30 of the oriented dimension, and no classification is requested. |
| AppMlChecksFaceDetection.AllowedFaceWidthIsIgnored | app/src/main/java/com/ionutv/livelinesdetection/features/ml_checks/face_detection/FaceDetectionImageAnalyzer.kt:27-67 | The `allowedFaceWidth` parameter has no effect on the result. |
| AppMlChecksFaceDetection.AgreesWithLibraryExceptAtTheBound | app/src/main/java/com/ionutv/livelinesdetection/features/ml_checks/face_detection/FaceDetectionImageAnalyzer.kt:55-75 | App and library accept the same lone faces except one exactly at the 0.30 bound, which only the app accepts. Accepted faces agree on box and bitmap. |
| AppFacedetection.AnalyzeImage | app/src/main/java/com/ionutv/livelinesdetection/features/facedetection/FaceDetectionImageAnalyzer.kt:21-63 | The same outcomes, with a lone face reported by its box and upright dimensions only. |
| AppFacedetection.SameAsLaterRevision | app/src/main/java/com/ionutv/livelinesdetection/features/facedetection/FaceDetectionImageAnalyzer.kt:21-63 | The oldest revision and the `face_detection` revision give the same result for every frame, apart from the later one's added bitmap. |
| LibFaceDetection.CheckFeatureOverThreshold | LivelinesDetection/src/main/java/com/ionutv/livelinesdetection/features/ml_checks/face_detection/FaceDetectionImageAnalyzer.kt:110-115 | True exactly when the probability is present and strictly greater than the threshold. |
| LibFaceDetection.IsFaceWideEnough | LivelinesDetection/src/main/java/com/ionutv/livelinesdetection/features/ml_checks/face_detection/FaceDetectionImageAnalyzer.kt:117-127 | True exactly when the face width exceeds the allowed fraction of the frame width (rotation 0/180) or height (otherwise). |
| LibFaceDetection.DetectFace | LivelinesDetection/src/main/java/com/ionutv/livelinesdetection/features/ml_checks/face_detection/FaceDetectionImageAnalyzer.kt:31-108 | No media: no callback. Failure becomes Error(message); 0 faces NoFaceDetected; >1 MultipleFaceInsideFrame; a narrow face NoFaceDetected. Otherwise `Detected` with box, upright bitmap, rounded head angle, timestamp, and smile/eyes thresholded when classification is on (else null). |
| LibFaceDetection.DetectedFeaturesAreNeverNull | LivelinesDetection/src/main/java/com/ionutv/livelinesdetection/features/ml_checks/face_detection/FaceDetectionImageAnalyzer.kt:67-115 | With classification on, a missing probability reads as `false`, never null. |
| FaceNetFaceRecognition.SquaredDifferences | LivelinesDetection/src/main/java/com/ionutv/livelinesdetection/features/ml_checks/face_recognition/FaceNetFaceRecognition.kt:29-31 | The sum of squared differences is non-negative. |
| FaceNetFaceRecognition.SquaredDifferencesOfPrefix | LivelinesDetection/src/main/java/com/ionutv/livelinesdetection/features/ml_checks/face_recognition/FaceNetFaceRecognition.kt:29-31 | A vector against one it is a prefix of has zero squared difference. |
| FaceNetFaceRecognition.SquaredDifferencesSymmetric | LivelinesDetection/src/main/java/com/ionutv/livelinesdetection/features/ml_checks/face_recognition/FaceNetFaceRecognition.kt:29-31 | The squared difference is symmetric for equal lengths. |
| FaceNetFaceRecognition.L2Normalisation | LivelinesDetection/src/main/java/com/ionutv/livelinesdetection/features/ml_checks/face_recognition/FaceNetFaceRecognition.kt:29-31 | `computeL2Normalisation`: the square root of the squared differences over the first vector's indices. Its meaning is stated by `L2IsRootOfSquaredDifferences`, `L2OfSelf` and `L2Symmetric`. |
| FaceNetFaceRecognition.L2IsRootOfSquaredDifferences | LivelinesDetection/src/main/java/com/ionutv/livelinesdetection/features/ml_checks/face_recognition/FaceNetFaceRecognition.kt:29-31 | The L2 distance is the non-negative root of the squared differences. |
| FaceNetFaceRecognition.L2OfSelf | LivelinesDetection/src/main/java/com/ionutv/livelinesdetection/features/ml_checks/face_recognition/FaceNetFaceRecognition.kt:29-31 | A vector is at distance 0 from itself. |
| FaceNetFaceRecognition.L2Symmetric | LivelinesDetection/src/main/java/com/ionutv/livelinesdetection/features/ml_checks/face_recognition/FaceNetFaceRecognition.kt:29-31 | The L2 distance is symmetric. |
| FaceNetFaceRecognition.RootAtMostTen | LivelinesDetection/src/main/java/com/ionutv/livelinesdetection/features/ml_checks/face_recognition/FaceNetFaceRecognition.kt:52-58 | A root is at most 10 exactly when its square is at most 100. |
| FaceNetFaceRecognition.SumOfSquares | LivelinesDetection/src/main/java/com/ionutv/livelinesdetection/features/ml_checks/face_recognition/FaceNetFaceRecognition.kt:33-38 | A squared magnitude is non-negative. |
| FaceNetFaceRecognition.DotProductWithSelf | LivelinesDetection/src/main/java/com/ionutv/livelinesdetection/features/ml_checks/face_recognition/FaceNetFaceRecognition.kt:33-38 | A vector's dot product with itself is its squared magnitude. |
| FaceNetFaceRecognition.CosineSimilarity | LivelinesDetection/src/main/java/com/ionutv/livelinesdetection/features/ml_checks/face_recognition/FaceNetFaceRecognition.kt:33-38 | Undefined (NaN) exactly when a magnitude is 0. Otherwise it is the dot product over the product of magnitudes. |
| FaceNetFaceRecognition.CosineOfSelf | LivelinesDetection/src/main/java/com/ionutv/livelinesdetection/features/ml_checks/face_recognition/FaceNetFaceRecognition.kt:33-38 | A non-zero vector has similarity 1 with itself. |
| FaceNetFaceRecognition.IsImageSamePerson | LivelinesDetection/src/main/java/com/ionutv/livelinesdetection/features/ml_checks/face_recognition/FaceNetFaceRecognition.kt:40-59 | `isImageSamePerson`: COSINE accepts a similarity of at most 0.4 (and rejects NaN); L2 accepts a distance of at most 10. `SamePersonUnderL2` and `CosineRuleRejectsIdenticalFaces` state what each rule accepts. |
| FaceNetFaceRecognition.SamePersonUnderL2 | LivelinesDetection/src/main/java/com/ionutv/livelinesdetection/features/ml_checks/face_recognition/FaceNetFaceRecognition.kt:40-59 | Under L2, two embeddings are the same person exactly when the squared distance is at most 100 (distance ≤ 10). Identical embeddings always are. |
| FaceNetFaceRecognition.CosineRuleRejectsIdenticalFaces | LivelinesDetection/src/main/java/com/ionutv/livelinesdetection/features/ml_checks/face_recognition/FaceNetFaceRecognition.kt:43-50 | As written, the COSINE rule rejects a non-zero embedding compared with itself. |
| FaceNetFaceRecognition.IntendedRuleAcceptsIdenticalFaces | LivelinesDetection/src/main/java/com/ionutv/livelinesdetection/features/ml_checks/face_recognition/FaceNetFaceRecognition.kt:40-59 | With the corrected COSINE comparison, identical faces are the same person under both metrics. |
| FaceNetFaceRecognition.ElementPairsFit | app/src/main/java/com/ionutv/livelinesdetection/utils/ConvenienceFunctions.kt:6-10 | The pairs of equally long embeddings can all be compared. |
| FaceNetFaceRecognition.AllImagesSamePerson | LivelinesDetection/src/main/java/com/ionutv/livelinesdetection/features/ml_checks/detection_option_flows/RandomFacialExpression.kt:175-185 | The fold over `elementPairs` of the embeddings with the L2 rule. `AllImagesSamePersonMeaning` states that it passes exactly when every two distinct samples agree. |
| FaceNetFaceRecognition.AllImagesSamePersonMeaning | LivelinesDetection/src/main/java/com/ionutv/livelinesdetection/features/ml_checks/detection_option_flows/RandomFacialExpression.kt:175-185 | The all-pairs check passes exactly when every two distinct samples are within L2 distance 10. Fewer than two samples always pass. |
| FaceNetFaceRecognition.FaceNetInterpreter.constructor | LivelinesDetection/src/main/java/com/ionutv/livelinesdetection/features/ml_checks/face_recognition/FaceNetFaceRecognition.kt:20-27 | Allocates the output buffer once, of the embedding size. |
| FaceNetFaceRecognition.FaceNetInterpreter.ProcessImage | LivelinesDetection/src/main/java/com/ionutv/livelinesdetection/features/ml_checks/face_recognition/FaceNetFaceRecognition.kt:64-69 | Writes the embedding into the shared output buffer and returns that buffer. |
| FaceNetFaceRecognition.FaceNetInterpreter.GetImageProcessing | LivelinesDetection/src/main/java/com/ionutv/livelinesdetection/features/ml_checks/face_recognition/FaceNetFaceRecognition.kt:71-73 | Returns a fresh array holding the embedding. |
| FaceNetFaceRecognition.FaceNetInterpreter.SuccessiveEmbeddings | LivelinesDetection/src/main/java/com/ionutv/livelinesdetection/features/ml_checks/face_recognition/FaceNetFaceRecognition.kt:64-73 | Two `getImageProcessing` copies keep both embeddings. Two `processImage` results alias one buffer that holds only the last embedding. |
| FlowDispatch.HasFlow | LivelinesDetection/src/main/java/com/ionutv/livelinesdetection/features/ml_checks/ImageAnalyzer.kt:43-63 | The options the analyzer builds a flow for. `OptionOf` and `MakeFlow` state that every built flow belongs to such an option. |
| FlowDispatch.OptionOf | LivelinesDetection/src/main/java/com/ionutv/livelinesdetection/features/ml_checks/ImageAnalyzer.kt:43-63 | Every built flow belongs to an option that has a flow. |
| FlowDispatch.StepsKeepTheFlowType | LivelinesDetection/src/main/java/com/ionutv/livelinesdetection/features/ml_checks/ImageAnalyzer.kt:43-71 | `initialise` and a face never change which challenge a flow is. |
| FlowDispatch.MakeFlow | LivelinesDetection/src/main/java/com/ionutv/livelinesdetection/features/ml_checks/ImageAnalyzer.kt:43-63 | Builds and initialises the option's flow on fresh objects. For the facial-expression flow, it draws exactly two distinct, allowed labels. |
| FlowDispatch.RebuildFlow | LivelinesDetection/src/main/java/com/ionutv/livelinesdetection/features/ml_checks/ImageAnalyzer.kt:43-71 | A new option builds a fresh, initialised flow, which then receives the last detected face again, as `combine` re-delivers it. |
| FlowDispatch.InitialiseFlow | LivelinesDetection/src/main/java/com/ionutv/livelinesdetection/features/ml_checks/ImageAnalyzer.kt:86-88 | Re-initialises the current flow as its own `initialise` specifies. |
| FlowDispatch.HandleFace | LivelinesDetection/src/main/java/com/ionutv/livelinesdetection/features/ml_checks/ImageAnalyzer.kt:65-133 | Forwards a face to the current flow, as its own face handler specifies. |
| Gallery.ScoresFor | LivelinesDetection/src/main/java/com/ionutv/livelinesdetection/features/ml_checks/ImageAnalyzerCommon.kt:171-212 | A name has scores exactly when it is enrolled. |
| Gallery.Averages | LivelinesDetection/src/main/java/com/ionutv/livelinesdetection/features/ml_checks/ImageAnalyzerCommon.kt:213-215 | One average per enrolled name, and no other keys. |
| Gallery.LeastExists | LivelinesDetection/src/main/java/com/ionutv/livelinesdetection/features/ml_checks/ImageAnalyzerCommon.kt:230-236 | A non-empty score map has a least average. |
| Gallery.GreatestExists | LivelinesDetection/src/main/java/com/ionutv/livelinesdetection/features/ml_checks/ImageAnalyzerCommon.kt:221-228 | A non-empty score map has a greatest average. |
| Gallery.IsBestName | LivelinesDetection/src/main/java/com/ionutv/livelinesdetection/features/ml_checks/ImageAnalyzerCommon.kt:221-236 | The identification rule: under L2 a least average when some average is at most 10, otherwise "Unknown"; under COSINE a greatest average when some average is above 0.4, otherwise "Unknown". `SelectBestName` and `EnrolledSubjectIsIdentified` are proved against it. |
| Gallery.SelectBestName | LivelinesDetection/src/main/java/com/ionutv/livelinesdetection/features/ml_checks/ImageAnalyzerCommon.kt:221-236 | Fails exactly on an empty map (`minOrNull()!!` throws). Otherwise it returns a name with the least average (L2) or the greatest (COSINE). |
| Gallery.ScoresAreDistances | LivelinesDetection/src/main/java/com/ionutv/livelinesdetection/features/ml_checks/ImageAnalyzerCommon.kt:171-212 | L2 scores are non-negative, and all 0 for a subject identical to every entry of that name. |
| Gallery.SumOfDistances | LivelinesDetection/src/main/java/com/ionutv/livelinesdetection/features/ml_checks/ImageAnalyzerCommon.kt:213-215 | A sum of distances is non-negative, and 0 when all are 0. |
| Gallery.EnrolledSubjectIsIdentified | LivelinesDetection/src/main/java/com/ionutv/livelinesdetection/features/ml_checks/ImageAnalyzerCommon.kt:213-236 | A subject identical to every enrolment of some name is matched to a name with average distance 0. |
| Gallery.ScoreMapNextEntry | LivelinesDetection/src/main/java/com/ionutv/livelinesdetection/features/ml_checks/ImageAnalyzerCommon.kt:171-212 | Scoring one more entry appends its score to its own name's list, creating the list for a new name. Other names are untouched. |
| Gallery.FaceMatcher.GroupScores | LivelinesDetection/src/main/java/com/ionutv/livelinesdetection/features/ml_checks/ImageAnalyzerCommon.kt:171-212 | After the loop, the score map holds, for every enrolled name, the subject's L2 scores against that name's entries, in gallery order. |
| Gallery.FaceMatcher.constructor | LivelinesDetection/src/main/java/com/ionutv/livelinesdetection/features/ml_checks/ImageAnalyzerCommon.kt:84-89 | Empty gallery and score map. |
| Gallery.FaceMatcher.AddImageToFaceList | LivelinesDetection/src/main/java/com/ionutv/livelinesdetection/features/ml_checks/ImageAnalyzerCommon.kt:91-96 | Appends (name, embedding) to the gallery. |
| Gallery.FaceMatcher.CheckFaceSimilarity | LivelinesDetection/src/main/java/com/ionutv/livelinesdetection/features/ml_checks/ImageAnalyzerCommon.kt:168-239 | Fails exactly on an empty gallery. Otherwise it returns a best-average name under L2 and leaves the gallery and the cleared score map as they were. |
| ImageClassifierService.GetTopProbability | app/src/main/java/com/ionutv/livelinesdetection/features/ImageClassifierService.kt:100-120 | Fails exactly for a negative count. Otherwise it returns `min(#labelled, k)` results, sorted by descending confidence. |
| ImageClassifierService.ResultsCarryRoundedPercentages | app/src/main/java/com/ionutv/livelinesdetection/features/ImageClassifierService.kt:105-115 | Each result is a label whose confidence is its probability as a percentage rounded to two decimals. |
| ImageClassifierService.RoundingReordersOnlyNearTies | app/src/main/java/com/ionutv/livelinesdetection/features/ImageClassifierService.kt:111-119 | A probability omitted from the top-k can exceed a kept one only by less than 0.0001 (the rounding step). |
| LabelDraw.Remove | LivelinesDetection/src/main/java/com/ionutv/livelinesdetection/features/ml_checks/detection_option_flows/RandomFacialExpression.kt:57 | Removes the first occurrence, and nothing else. |
| LabelDraw.DrawableAfterRemove | LivelinesDetection/src/main/java/com/ionutv/livelinesdetection/features/ml_checks/detection_option_flows/RandomFacialExpression.kt:51-59 | Removing a label shrinks the set of drawable labels by that label only. |
| LabelDraw.Drawable | LivelinesDetection/src/main/java/com/ionutv/livelinesdetection/features/ml_checks/detection_option_flows/RandomFacialExpression.kt:51-59 | The drawable labels are the labels not excluded. |
| LabelDraw.DrawLabels | LivelinesDetection/src/main/java/com/ionutv/livelinesdetection/features/ml_checks/detection_option_flows/RandomFacialExpression.kt:51-59 | The loop ends exactly when 0 ≤ wanted ≤ #drawable. It then returns that many distinct labels, all from the labels and none excluded. |
| LabelDraw.SubsetCardinality | LivelinesDetection/src/main/java/com/ionutv/livelinesdetection/features/ml_checks/detection_option_flows/RandomFacialExpression.kt:51-59 | A set inside another is no larger. |
| LibImageAnalyzer.ImageAnalyzer.constructor | LivelinesDetection/src/main/java/com/ionutv/livelinesdetection/features/ml_checks/ImageAnalyzer.kt:32-84 | Starts with option SMILE, no flow yet, idle, empty result flow. |
| LibImageAnalyzer.ImageAnalyzer.StartCollecting | LivelinesDetection/src/main/java/com/ionutv/livelinesdetection/features/ml_checks/ImageAnalyzer.kt:43-63 | The first collector builds and initialises the current option's flow. |
| LibImageAnalyzer.ImageAnalyzer.UpdateDetectionOption | LivelinesDetection/src/main/java/com/ionutv/livelinesdetection/features/ml_checks/ImageAnalyzer.kt:65-97 | The same option changes nothing. A new option rebuilds the flow and feeds it the last face. |
| LibImageAnalyzer.ImageAnalyzer.ResetFlow | LivelinesDetection/src/main/java/com/ionutv/livelinesdetection/features/ml_checks/ImageAnalyzer.kt:86-88 | Re-initialises the current flow. Nothing else changes. |
| LibImageAnalyzer.ImageAnalyzer.AnalyzeImage | LivelinesDetection/src/main/java/com/ionutv/livelinesdetection/features/ml_checks/ImageAnalyzer.kt:75-108 | Busy: drops the frame unchanged. Idle: busy with the detector's result, classifying exactly for SMILE and ANGLED_FACES_WITH_SMILE. No media: stuck. |
| LibImageAnalyzer.ImageAnalyzer.OnFaceAnalysisResult | LivelinesDetection/src/main/java/com/ionutv/livelinesdetection/features/ml_checks/ImageAnalyzer.kt:109-129 | Emits a non-face result or forwards a face to the flow (remembering it as the last face), then frees the gate. |
| LibImageAnalyzer.ImageAnalyzer.StuckIsForever | LivelinesDetection/src/main/java/com/ionutv/livelinesdetection/features/ml_checks/ImageAnalyzer.kt:100-129 | A stuck analyzer stays stuck and emits nothing, whatever frame arrives. |
| LibImageAnalyzerCommon.ImageAnalyzerCommon.constructor | LivelinesDetection/src/main/java/com/ionutv/livelinesdetection/features/ml_checks/ImageAnalyzerCommon.kt:35-89 | Option SMILE, no flow, idle, empty gallery and result flow, with the given debug mode. |
| LibImageAnalyzerCommon.ImageAnalyzerCommon.AddImageToFaceList | LivelinesDetection/src/main/java/com/ionutv/livelinesdetection/features/ml_checks/ImageAnalyzerCommon.kt:91-96 | Enrols the bitmap's embedding under the name. |
| LibImageAnalyzerCommon.ImageAnalyzerCommon.StartCollecting | LivelinesDetection/src/main/java/com/ionutv/livelinesdetection/features/ml_checks/ImageAnalyzerCommon.kt:44-64 | The first collector builds and initialises the current option's flow. |
| LibImageAnalyzerCommon.ImageAnalyzerCommon.UpdateDetectionOption | LivelinesDetection/src/main/java/com/ionutv/livelinesdetection/features/ml_checks/ImageAnalyzerCommon.kt:66-109 | The same option changes nothing. A new option rebuilds the flow and feeds it the last face. |
| LibImageAnalyzerCommon.ImageAnalyzerCommon.ResetFlow | LivelinesDetection/src/main/java/com/ionutv/livelinesdetection/features/ml_checks/ImageAnalyzerCommon.kt:98-100 | Re-initialises the current flow. The gallery and the gate are unchanged. |
| LibImageAnalyzerCommon.ImageAnalyzerCommon.AnalyzeImage | LivelinesDetection/src/main/java/com/ionutv/livelinesdetection/features/ml_checks/ImageAnalyzerCommon.kt:74-120 | Busy: drops the frame. Idle: busy with the detector's result. No media: stuck. |
| LibImageAnalyzerCommon.ImageAnalyzerCommon.OnFaceAnalysisResult | LivelinesDetection/src/main/java/com/ionutv/livelinesdetection/features/ml_checks/ImageAnalyzerCommon.kt:121-166 | Routes non-face results. Outside debug mode a face goes to the flow. In debug mode a face is identified, one result appended, or the analyzer is stuck when the gallery is empty. |
| LibImageAnalyzerCommon.ImageAnalyzerCommon.ForwardFace | LivelinesDetection/src/main/java/com/ionutv/livelinesdetection/features/ml_checks/ImageAnalyzerCommon.kt:144-145 | Hands the face to the current flow and remembers it. With no flow yet, nothing happens. |
| LibImageAnalyzerCommon.ImageAnalyzerCommon.ClassifyFace | LivelinesDetection/src/main/java/com/ionutv/livelinesdetection/features/ml_checks/ImageAnalyzerCommon.kt:146-165 | Completes exactly when the gallery is non-empty, appending one identification. |
| LibImageAnalyzerDebug.ImageAnalyzerDebug.constructor | LivelinesDetection/src/debug/java/com/ionutv/livelinesdetection/features/ml_checks/ImageAnalyzerDebug.kt:24-44 | Option SMILE, idle, empty gallery and result flow. The verification state is Start. |
| LibImageAnalyzerDebug.ImageAnalyzerDebug.AddImageToFaceList | LivelinesDetection/src/debug/java/com/ionutv/livelinesdetection/features/ml_checks/ImageAnalyzerDebug.kt:46-51 | Enrols the bitmap's embedding under the name. |
| LibImageAnalyzerDebug.ImageAnalyzerDebug.ResetFlow | LivelinesDetection/src/debug/java/com/ionutv/livelinesdetection/features/ml_checks/ImageAnalyzerDebug.kt:53-55 | Does nothing. |
| LibImageAnalyzerDebug.ImageAnalyzerDebug.UpdateDetectionOption | LivelinesDetection/src/debug/java/com/ionutv/livelinesdetection/features/ml_checks/ImageAnalyzerDebug.kt:62-64 | Records the option. Nothing else changes. |
| LibImageAnalyzerDebug.ImageAnalyzerDebug.AnalyzeImage | LivelinesDetection/src/debug/java/com/ionutv/livelinesdetection/features/ml_checks/ImageAnalyzerDebug.kt:66-73 | Busy: drops the frame. Idle: busy with the detection result, classification always requested. |
| LibImageAnalyzerDebug.ImageAnalyzerDebug.OnFaceAnalysisResult | LivelinesDetection/src/debug/java/com/ionutv/livelinesdetection/features/ml_checks/ImageAnalyzerDebug.kt:74-189 | Routes non-face results. Every face is identified, or the analyzer is stuck on an empty gallery. |
| Numbers.RoundToInt | LivelinesDetection/src/main/java/com/ionutv/livelinesdetection/features/ml_checks/face_detection/FaceDetectionImageAnalyzer.kt:86 | The nearest integer, halves up. |
| Numbers.RoundToIntMonotone | LivelinesDetection/src/main/java/com/ionutv/livelinesdetection/features/ml_checks/face_detection/FaceDetectionImageAnalyzer.kt:86 | Rounding preserves order. |
| Numbers.Percentage | app/src/main/java/com/ionutv/livelinesdetection/features/ImageClassifierService.kt:111 | Within 0.005 of 100·p. |
| Numbers.PercentageMonotone | app/src/main/java/com/ionutv/livelinesdetection/features/ImageClassifierService.kt:111 | Percentages preserve order. |
| RandomEmotion.NextState | app/src/main/java/com/ionutv/livelinesdetection/features/ml_checks/detection_option_flows/RandomEmotion.kt:62-94 | The declared transitions: Detected has none, Start is never re-entered, and Detected is reached exactly by Finished from Detecting. |
| RandomEmotion.Initialised | app/src/main/java/com/ionutv/livelinesdetection/features/ml_checks/detection_option_flows/RandomEmotion.kt:62-100 | From Start, `initialise` pops the first emotion and prompts for it. Otherwise it does nothing. |
| RandomEmotion.Invoked | app/src/main/java/com/ionutv/livelinesdetection/features/ml_checks/detection_option_flows/RandomEmotion.kt:69-112 | While detecting, the requested emotion as the top result pops the next one. When none is left, the flow is Detected. |
| RandomEmotion.InitialConsistent | app/src/main/java/com/ionutv/livelinesdetection/features/ml_checks/detection_option_flows/RandomEmotion.kt:62-64 | The fresh flow satisfies the invariant. |
| RandomEmotion.StepKeepsConsistent | app/src/main/java/com/ionutv/livelinesdetection/features/ml_checks/detection_option_flows/RandomEmotion.kt:62-112 | Every input keeps the invariant: the prompt shows the current emotion, and Detected publishes Finished. |
| RandomEmotion.RunKeepsConsistent | app/src/main/java/com/ionutv/livelinesdetection/features/ml_checks/detection_option_flows/RandomEmotion.kt:62-112 | Any run keeps the invariant and never captures a sample. |
| RandomEmotion.DetectedIsTerminal | app/src/main/java/com/ionutv/livelinesdetection/features/ml_checks/detection_option_flows/RandomEmotion.kt:85-94 | From Detected, no input changes the flow. |
| RandomEmotion.Create | app/src/main/java/com/ionutv/livelinesdetection/features/ml_checks/detection_option_flows/RandomEmotion.kt:19-53 | Construction ends exactly when the wanted count fits the distinct labels. It then holds that many distinct labels. |
| RandomEmotion.RandomEmotion.constructor | app/src/main/java/com/ionutv/livelinesdetection/features/ml_checks/detection_option_flows/RandomEmotion.kt:19-61 | The new flow is the specification's initial state. |
| RandomEmotion.RandomEmotion.Transition | app/src/main/java/com/ionutv/livelinesdetection/features/ml_checks/detection_option_flows/RandomEmotion.kt:62-95 | Firing an event follows the transition table. |
| RandomEmotion.RandomEmotion.Initialise | app/src/main/java/com/ionutv/livelinesdetection/features/ml_checks/detection_option_flows/RandomEmotion.kt:96-100 | The object after `initialise` is `Initialised`. |
| RandomEmotion.RandomEmotion.InvokeVerificationFlow | app/src/main/java/com/ionutv/livelinesdetection/features/ml_checks/detection_option_flows/RandomEmotion.kt:101-112 | The object after a face is `Invoked`. |
| RandomFacialExpression.NextState | LivelinesDetection/src/main/java/com/ionutv/livelinesdetection/features/ml_checks/detection_option_flows/RandomFacialExpression.kt:68-133 | The declared transitions: Start is never re-entered, the check follows Detecting only when it is switched on, Error follows only the check, and Finished and Error restart exactly on Start. |
| RandomFacialExpression.Initialised | LivelinesDetection/src/main/java/com/ionutv/livelinesdetection/features/ml_checks/detection_option_flows/RandomFacialExpression.kt:68-141 | Clears the samples. From Start, Finished or Error, pops the next expression and prompts for it, or publishes Start when none is left. Mid-challenge the state is kept. |
| RandomFacialExpression.Checked | LivelinesDetection/src/main/java/com/ionutv/livelinesdetection/features/ml_checks/detection_option_flows/RandomFacialExpression.kt:96-174 | A shown expression above the threshold adds the crop and pops the next, prompting for it (the previous prompt stays when none is left). When none is left the similarity check runs (if enabled). The check decides Finished or Error. |
| RandomFacialExpression.InitialConsistent | LivelinesDetection/src/main/java/com/ionutv/livelinesdetection/features/ml_checks/detection_option_flows/RandomFacialExpression.kt:48-59 | The fresh flow satisfies the invariant for the drawn count. |
| RandomFacialExpression.StepKeepsConsistent | LivelinesDetection/src/main/java/com/ionutv/livelinesdetection/features/ml_checks/detection_option_flows/RandomFacialExpression.kt:68-174 | Every input keeps the invariant: samples, remaining and pending expressions never exceed those requested, and the end states publish their result. |
| RandomFacialExpression.RunKeepsConsistent | LivelinesDetection/src/main/java/com/ionutv/livelinesdetection/features/ml_checks/detection_option_flows/RandomFacialExpression.kt:68-174 | Any run keeps the invariant and never holds more samples than expressions requested. |
| RandomFacialExpression.RestartAfterFinishedAsksForNothing | LivelinesDetection/src/main/java/com/ionutv/livelinesdetection/features/ml_checks/detection_option_flows/RandomFacialExpression.kt:110-141 | Re-initialising a finished flow publishes Start with nothing left to ask. Later faces add no samples. |
| RandomFacialExpression.Create | LivelinesDetection/src/main/java/com/ionutv/livelinesdetection/features/ml_checks/detection_option_flows/RandomFacialExpression.kt:19-59 | Construction succeeds exactly when there are labels (`coerceIn` needs a non-empty range) and the count fits the allowed labels. It draws that many distinct allowed labels. |
| RandomFacialExpression.RandomFacialExpression.constructor | LivelinesDetection/src/main/java/com/ionutv/livelinesdetection/features/ml_checks/detection_option_flows/RandomFacialExpression.kt:19-66 | The new flow is the initial state. |
| RandomFacialExpression.RandomFacialExpression.Transition | LivelinesDetection/src/main/java/com/ionutv/livelinesdetection/features/ml_checks/detection_option_flows/RandomFacialExpression.kt:68-133 | Firing an event follows the transition table. |
| RandomFacialExpression.RandomFacialExpression.Initialise | LivelinesDetection/src/main/java/com/ionutv/livelinesdetection/features/ml_checks/detection_option_flows/RandomFacialExpression.kt:135-141 | The object after `initialise` is `Initialised`. |
| RandomFacialExpression.RandomFacialExpression.PerformFaceCheck | LivelinesDetection/src/main/java/com/ionutv/livelinesdetection/features/ml_checks/detection_option_flows/RandomFacialExpression.kt:143-174 | The object after a face is `Checked`. |
| Ranking.Entry | app/src/main/java/com/ionutv/livelinesdetection/features/ImageClassifierService.kt:109-112 | A result is named by its label (id and title) with a null location. |
| Ranking.BuildList | app/src/main/java/com/ionutv/livelinesdetection/features/ImageClassifierService.kt:105-115 | One result per label with a probability, in map order. |
| Ranking.NullLabelsAreSkipped | app/src/main/java/com/ionutv/livelinesdetection/features/ImageClassifierService.kt:107 | A label with a null probability yields no result. |
| Ranking.Insert | app/src/main/java/com/ionutv/livelinesdetection/features/ImageClassifierService.kt:116 | Inserting keeps the elements (one more) and keeps the order descending. |
| Ranking.PrependKeepsSorted | app/src/main/java/com/ionutv/livelinesdetection/features/ImageClassifierService.kt:116 | A maximum in front keeps a descending list sorted. |
| Ranking.SortByDescending | app/src/main/java/com/ionutv/livelinesdetection/features/ImageClassifierService.kt:116 | The sorted list is a permutation, in descending confidence. |
| Ranking.InsertKeepsEqualsInOrder | app/src/main/java/com/ionutv/livelinesdetection/features/ImageClassifierService.kt:116 | Inserting does not reorder equal confidences. |
| Ranking.SortIsStable | app/src/main/java/com/ionutv/livelinesdetection/features/ImageClassifierService.kt:116 | Sorting keeps equal confidences in their original order. |
| Ranking.CoerceAtMost | app/src/main/java/com/ionutv/livelinesdetection/features/ImageClassifierService.kt:118 | The result is the smaller of the two. |
| Ranking.TopProbability | app/src/main/java/com/ionutv/livelinesdetection/features/ImageClassifierService.kt:100-120 | Fails exactly for a negative count (`take`). Otherwise it returns `min(size, k)` sorted results from the built list. |
| Ranking.SortedPrefix | app/src/main/java/com/ionutv/livelinesdetection/features/ImageClassifierService.kt:118-119 | Taking a prefix of the sorted list keeps it sorted and keeps only elements of the list. |
| Ranking.TopProbabilityKeepsTheBest | app/src/main/java/com/ionutv/livelinesdetection/features/ImageClassifierService.kt:116-119 | No omitted result outranks a kept one, and kept plus omitted is the whole list. |
| Ranking.TopProbabilityIsStable | app/src/main/java/com/ionutv/livelinesdetection/features/ImageClassifierService.kt:116-119 | Among equal confidences, the kept ones are the earliest in map order. |
| Ranking.WithConfidenceOfConcat | app/src/main/java/com/ionutv/livelinesdetection/features/ImageClassifierService.kt:116 | Filtering by a confidence distributes over concatenation. |
| AppSmile.NextState | app/src/main/java/com/ionutv/livelinesdetection/features/ml_checks/detection_option_flows/Smile.kt:40-66 | The declared transitions: Detected has none and Start is never re-entered. |
| AppSmile.Initialised | app/src/main/java/com/ionutv/livelinesdetection/features/ml_checks/detection_option_flows/Smile.kt:40-69 | From Start, goes to Detecting and prompts. Otherwise it does nothing. |
| AppSmile.Invoked | app/src/main/java/com/ionutv/livelinesdetection/features/ml_checks/detection_option_flows/Smile.kt:71-79 | In any state a smile adds a sample. While Detecting it also finishes the flow. |
| AppSmile.SamplesGrowWithEverySmile | app/src/main/java/com/ionutv/livelinesdetection/features/ml_checks/detection_option_flows/Smile.kt:71-79 | Every smile adds a sample, even after Detected. The sample list only grows. |
| AppSmile.DetectedIsTerminal | app/src/main/java/com/ionutv/livelinesdetection/features/ml_checks/detection_option_flows/Smile.kt:58-65 | Detected has no way out: it stays Finished. |
| AppSmile.Smile.constructor | app/src/main/java/com/ionutv/livelinesdetection/features/ml_checks/detection_option_flows/Smile.kt:14-39 | The new flow is the initial state. |
| AppSmile.Smile.Transition | app/src/main/java/com/ionutv/livelinesdetection/features/ml_checks/detection_option_flows/Smile.kt:40-66 | Firing an event follows the transition table. |
| AppSmile.Smile.Initialise | app/src/main/java/com/ionutv/livelinesdetection/features/ml_checks/detection_option_flows/Smile.kt:67-69 | The object after `initialise` is `Initialised`. |
| AppSmile.Smile.InvokeVerificationFlow | app/src/main/java/com/ionutv/livelinesdetection/features/ml_checks/detection_option_flows/Smile.kt:71-79 | The object after a face is `Invoked`. |
| LibSmile.NextState | LivelinesDetection/src/main/java/com/ionutv/livelinesdetection/features/ml_checks/detection_option_flows/Smile.kt:35-64 | The declared transitions: Start is never re-entered, Detected follows only Detecting, and Detected restarts exactly on Start. |
| LibSmile.Initialised | LivelinesDetection/src/main/java/com/ionutv/livelinesdetection/features/ml_checks/detection_option_flows/Smile.kt:35-72 | Clears the sample and enters Detecting, publishing the prompt unless it was already detecting. |
| LibSmile.Checked | LivelinesDetection/src/main/java/com/ionutv/livelinesdetection/features/ml_checks/detection_option_flows/Smile.kt:74-91 | A smile while Detecting captures the crop and finishes. Everything else is ignored. |
| LibSmile.StepKeepsConsistent | LivelinesDetection/src/main/java/com/ionutv/livelinesdetection/features/ml_checks/detection_option_flows/Smile.kt:35-91 | Every input keeps the invariant: at most one sample, present exactly when Detected, which is exactly Finished. |
| LibSmile.RunKeepsConsistent | LivelinesDetection/src/main/java/com/ionutv/livelinesdetection/features/ml_checks/detection_option_flows/Smile.kt:35-91 | Any run keeps the invariant. |
| LibSmile.InitialConsistent | LivelinesDetection/src/main/java/com/ionutv/livelinesdetection/features/ml_checks/detection_option_flows/Smile.kt:35-37 | The fresh flow satisfies the invariant. |
| LibSmile.DetectedIsStable | LivelinesDetection/src/main/java/com/ionutv/livelinesdetection/features/ml_checks/detection_option_flows/Smile.kt:53-91 | Once Detected, faces change nothing. |
| LibSmile.Smile.constructor | LivelinesDetection/src/main/java/com/ionutv/livelinesdetection/features/ml_checks/detection_option_flows/Smile.kt:14-34 | The new flow is the initial state. |
| LibSmile.Smile.Transition | LivelinesDetection/src/main/java/com/ionutv/livelinesdetection/features/ml_checks/detection_option_flows/Smile.kt:35-64 | Firing an event follows the transition table. |
| LibSmile.Smile.Initialise | LivelinesDetection/src/main/java/com/ionutv/livelinesdetection/features/ml_checks/detection_option_flows/Smile.kt:66-72 | The object after `initialise` is `Initialised`. |
| LibSmile.Smile.PerformFaceCheck | LivelinesDetection/src/main/java/com/ionutv/livelinesdetection/features/ml_checks/detection_option_flows/Smile.kt:74-91 | The object after a face is `Checked`. |
| Verification.AreAllImagesSamePerson | LivelinesDetection/src/main/java/com/ionutv/livelinesdetection/features/ml_checks/detection_option_flows/RandomFacialExpression.kt:175-185 | `checkAreAllImagesSamePerson`: embeds every sample with the recognition model and applies the all-pairs L2 check. `FewSamplesAreSamePerson` and `AllImagesSamePersonMeaning` state when it passes. |
| Verification.EmbeddingsUniform | LivelinesDetection/src/main/java/com/ionutv/livelinesdetection/features/ml_checks/detection_option_flows/RandomFacialExpression.kt:175-178 | The embeddings of any samples all have the model's size. |
| Verification.FewSamplesAreSamePerson | LivelinesDetection/src/main/java/com/ionutv/livelinesdetection/features/ml_checks/detection_option_flows/RandomFacialExpression.kt:175-185 | Fewer than two samples always pass the same-person check. |

## Left out

- Coroutines, `StateFlow`/`SharedFlow` scheduling and thread interleavings are not modelled. A frame's callback is one atomic step. `combine` re-delivering the last face on an option change is modelled through `lastFace`.
- The composite flow's mirroring collectors run whenever the model calls `Mirror`. Their scheduling relative to faces is not modelled.
- Analysis.Emotions: the analyzers call other classifiers, and none of them is part of this model. The library's `ImageAnalyzerCommon` uses `ml_checks.emotion_detection.EmotionImageClassifier`. The library's `ImageAnalyzerDebug` uses `FacialExpressionImageClassifier`. The app's `ImageAnalyzer` and `ImageAnalyzerCommon` use the app's `ml_checks.emotion_detection.EmotionImageClassifier`. The model uses the app's `features.emotion_detection.EmotionImageClassifier` (top 3, rounded percentages, stable sort) in their place. So the `emotions` field of every emitted result follows that classifier's ranking, not the ranking of the classifier the analyzer really calls.
- TensorFlow Lite and ML Kit internals are not modelled. The detector, the embedder, the emotion model and the classifier's top result are parameters. `NormalizeOp` is the identity, and `StandardizeOp` is inside the embedder.
- Floats are exact reals, so NaN, IEEE rounding and the `roundToInt` clamp at the `Int` range are not modelled. The only NaN kept is the cosine of a zero vector (None).
- Frames always have positive dimensions.
- The UI, the Camera and ViewModel wiring, permissions, `image.close()` and `closeResource` are out of scope.
- The library's `RandomEmotion`, `AngledFaces`, `AngledFacesWithSmile`, `AngledFacesWithRandomEmotion`, `FacialExpressionImageClassifier` and `Constants` are not part of this model. The library analyzers' dispatch uses `RandomFacialExpression` and the app's `AngledFaces`/`AngledFacesWithSmile` flows. The emotion threshold is a parameter.
- FlowDispatch.HasFlow: the combined option `ANGLED_FACES_WITH_FACIAL_EXPRESSION` has no flow in the model, because its flow class is not part of this model. The analyzers' `when` names `RANDOM_EMOTION`/`ANGLED_FACES_WITH_EMOTION`, while the option enum names `RANDOM_FACIAL_EXPRESSION`/`ANGLED_FACES_WITH_FACIAL_EXPRESSION`. The model follows the enum.
- The app's `Blink` flow is not modelled (it is not used by any analyzer).
- Gallery.SelectBestName: the `HashMap` iteration order that breaks ties is unspecified, so any best name is allowed.
- The analyzers always use the L2 metric (a constant in the source). The COSINE branch of `checkFaceSimilarity` is stated only through `Gallery.IsBestName`.
- `TensorLabel` error messages are not modelled; a size mismatch is a failure without its text.
- AppImageAnalyzerCommon.ImageAnalyzerCommon.Analyze: the app's `detectFace` it calls is not part of this model, so the library `detectFace` with classification off and its default bounds stands in.
- AppImageAnalyzer.ImageAnalyzer.OnFaceAnalysisResult: `camera.FaceClassifierResult` is not part of this model; its shape (no head angle) is taken from the call site.
- An exception inside the callback's coroutine (`minOrNull()!!` on an empty list of averages) is modelled as the analyzer staying busy (`Stuck`). On the device it would also crash the coroutine scope.
- The app `ImageAnalyzerCommon`'s `detectionOption` field is never read and is not modelled. Its public `faceList` can be reassigned from outside, which the model does not allow.
- The flows' top result is a parameter and is not tied to `EmotionImageClassifier`'s ranking.
- The flows' `_verificationStateFlow` emissions are the published value only; subscribers and replay are not modelled.

## Findings

| source | as written | input that shows it | evidently intended | confidence | as-written member | corrected member |
|---|---|---|---|---|---|---|
| LivelinesDetection/src/main/java/com/ionutv/livelinesdetection/features/ml_checks/face_recognition/FaceNetFaceRecognition.kt:43-50 | Under COSINE, two embeddings are the same person when the similarity is at most 0.4. | Any non-zero embedding v compared with itself: similarity 1.0, judged a different person. | The same person when the similarity is above 0.4, as the gallery rule picks the greatest similarity. | not executed | FaceNetFaceRecognition.CosineRuleRejectsIdenticalFaces | FaceNetFaceRecognition.IntendedRuleAcceptsIdenticalFaces |
