/**
 * What every image analyzer shares: the result it emits for a frame
 * (`FaceClassifierResult.kt`), how a detection result is routed, the detection
 * options, and the emotion classifier a classified face is run through.
 */
module Analysis {
  import opened Wrappers
  import opened Graphics
  import opened Verification
  import LibFaceDetection
  import EmotionImageClassifier
  import Gallery
  import FaceNetFaceRecognition

  /** `FaceClassifierResult`: what an analyzer emits on its result flow. */
  datatype FaceClassifierResult =
    | NoFaceDetected
    | Error(message: string)
    | FaceClassified(boundaries: Rect, image: Bitmap, croppedImage: Bitmap, faceAngle: int,
                     emotions: seq<ClassifierResult>, name: string)

  const MultipleFacesMessage: string := "Multiple faces in frame"

  /** The library's `LivelinessDetectionOption`. */
  datatype LivelinessDetectionOption =
    | SMILE
    | RANDOM_FACIAL_EXPRESSION
    | ANGLED_FACES
    | ANGLED_FACES_WITH_SMILE
    | ANGLED_FACES_WITH_FACIAL_EXPRESSION

  /** `optionsWithMlKitClassification`: the options whose challenges read smiling and eyes. */
  const OptionsWithMlKitClassification: set<LivelinessDetectionOption> := {SMILE, ANGLED_FACES_WITH_SMILE}

  /**
   * The `when (it)` routing of a detection result: a detector error is emitted as
   * it is, several faces as an error, no face as `NoFaceDetected`; a detected face
   * (`None` here) is handed on to `analyzeFace`.
   */
  function Routed(result: LibFaceDetection.FaceDetectionResult): (r: Option<FaceClassifierResult>)
    ensures r.None? <==> result.Detected?
    ensures result.Error? ==> r == Some(FaceClassifierResult.Error(result.error))
    ensures result.MultipleFaceInsideFrame? ==> r == Some(FaceClassifierResult.Error(MultipleFacesMessage))
    ensures result.NoFaceDetected? ==> r == Some(FaceClassifierResult.NoFaceDetected)
  {
    match result
    case Error(error) => Some(FaceClassifierResult.Error(error))
    case Detected(_) => None
    case MultipleFaceInsideFrame => Some(FaceClassifierResult.Error(MultipleFacesMessage))
    case NoFaceDetected => Some(FaceClassifierResult.NoFaceDetected)
  }

  /**
   * The emotion classifier an analyzer owns: its labels and one model run
   * (`processImage`) per bitmap.
   */
  datatype EmotionClassifier = EmotionClassifier(labels: seq<string>, run: Bitmap -> seq<real>)

  /** The model's output always has one value per label, so classifying never throws. */
  ghost predicate Fits(classifier: EmotionClassifier) {
    forall b: Bitmap :: |classifier.run(b)| == |classifier.labels|
  }

  /** `emotionClassifier.classifyEmotions(bitmap)` with the default result count. */
  function Emotions(classifier: EmotionClassifier, bitmap: Bitmap): (emotions: seq<ClassifierResult>)
    requires Fits(classifier)
    ensures |emotions| <= EmotionImageClassifier.MaxResultNumber
  {
    EmotionImageClassifier.ClassifyEmotions(classifier.labels, classifier.run, bitmap,
                                            EmotionImageClassifier.MaxResultNumber).value
  }

  /** The debug-mode result for a face: the crop, its emotions, the matched name and the yaw. */
  function Classified(classifier: EmotionClassifier, face: FaceDetected, name: string): (r: FaceClassifierResult)
    requires Fits(classifier)
    ensures r.FaceClassified? && r.boundaries == face.boundaries && r.image == face.image
    ensures r.croppedImage == CroppedFace(face) && r.faceAngle == face.headAngle && r.name == name
    ensures r.emotions == Emotions(classifier, CroppedFace(face))
  {
    FaceClassified(face.boundaries, face.image, CroppedFace(face), face.headAngle,
                   Emotions(classifier, CroppedFace(face)), name)
  }

  /**
   * `r` is what the classify-and-match path emits for `face` against `gallery`: the
   * face's crop with its emotions, and a name that the L2 selection rule picks
   * for the crop's embedding.
   */
  ghost predicate IsIdentification(classifier: EmotionClassifier, faceRecognition: FaceRecognition,
                                   gallery: seq<Gallery.FaceRecognitionResult>, face: FaceDetected,
                                   r: FaceClassifierResult)
    requires Fits(classifier)
  {
    var subject := faceRecognition.embed(CroppedFace(face));
    && r.FaceClassified?
    && r == Classified(classifier, face, r.name)
    && Gallery.Comparable(gallery, subject)
    && Gallery.IsBestName(FaceNetFaceRecognition.L2, Gallery.Averages(gallery, subject, faceRecognition.sqrt), r.name)
  }

  /**
   * The debug path of `analyzeFace`: crop the face, classify its emotions, embed
   * the crop and match it against the gallery. `None` stands for the exception
   * matching throws when nothing is enrolled.
   */
  method ClassifyAndMatch(classifier: EmotionClassifier, matcher: Gallery.FaceMatcher, face: FaceDetected)
    returns (r: Option<FaceClassifierResult>)
    requires Fits(classifier) && matcher.Valid() && FixedDimension(matcher.faceRecognition)
    modifies matcher
    ensures matcher.Valid() && matcher.faceList == old(matcher.faceList)
    ensures r.None? <==> matcher.faceList == []
    ensures r.Some? ==> IsIdentification(classifier, matcher.faceRecognition, matcher.faceList, face, r.value)
  {
    var croppedBitmap := CroppedFace(face);
    var emotions := Emotions(classifier, croppedBitmap);
    var embedding := matcher.faceRecognition.embed(croppedBitmap);
    var userName := matcher.CheckFaceSimilarity(embedding);
    if userName.Failure? {
      return None;
    }
    r := Some(FaceClassified(face.boundaries, face.image, croppedBitmap, face.headAngle, emotions, userName.value));
  }
}
