/**
 * The vocabulary shared by every challenge flow (`VerificationFlow.kt`): the published
 * verification state, the detector's face observation, a classifier result, the
 * face-recognition oracle, and the inputs that drive a flow.
 */
module Verification {
  import opened Wrappers
  import opened Graphics
  import FaceNetFaceRecognition

  /** `VerificationState`: what a flow publishes to the UI. */
  datatype VerificationState = Start | Working(message: string) | Finished | Error(message: string)

  /**
   * `FaceDetected`: one face found in one frame. `headAngle` is the rounded yaw in degrees;
   * `smiling` and `eyesOpen` are Kotlin `Boolean?`.
   */
  datatype FaceDetected = FaceDetected(
    boundaries: Rect,
    image: Bitmap,
    headAngle: int,
    processedTimeStamp: int,
    smiling: Option<bool>,
    eyesOpen: Option<bool>)

  /** The sample a flow captures from an observation: the frame cropped to the face. */
  function CroppedFace(face: FaceDetected): Bitmap
  {
    CropBitmap(face.image, face.boundaries)
  }

  /** A classifier result (`Recognition` / `ClassifierResult`); `location` is a float rectangle. */
  datatype ClassifierResult = ClassifierResult(id: string, title: string, confidence: real, location: Option<Rect>)

  /**
   * The face-recognition model as the flows use it: `embed` is one run of the network on a
   * bitmap (`getImageProcessing`), and `sqrt` the square root in the L2 distance.
   */
  datatype FaceRecognition = FaceRecognition(embed: Bitmap -> seq<real>, dimension: nat, sqrt: real -> real)

  /** Every embedding the model produces has the model's output size. */
  ghost predicate FixedDimension(faceRecognition: FaceRecognition)
  {
    forall b: Bitmap :: |faceRecognition.embed(b)| == faceRecognition.dimension
  }

  /** `faceList.map { faceRecognition.getImageProcessing(it) }`. */
  function Embeddings(faceRecognition: FaceRecognition, samples: seq<Bitmap>): seq<seq<real>>
  {
    seq(|samples|, i requires 0 <= i < |samples| => faceRecognition.embed(samples[i]))
  }

  lemma EmbeddingsUniform(faceRecognition: FaceRecognition, samples: seq<Bitmap>)
    requires FixedDimension(faceRecognition)
    ensures FaceNetFaceRecognition.Uniform(Embeddings(faceRecognition, samples))
  {
  }

  /** `checkAreAllImagesSamePerson()`: every pair of samples passes the L2 same-person test. */
  predicate AreAllImagesSamePerson(faceRecognition: FaceRecognition, samples: seq<Bitmap>)
    requires FixedDimension(faceRecognition)
  {
    EmbeddingsUniform(faceRecognition, samples);
    FaceNetFaceRecognition.AllImagesSamePerson(Embeddings(faceRecognition, samples), faceRecognition.sqrt)
  }

  /** Fewer than two samples form no pair, so the check passes. */
  lemma FewSamplesAreSamePerson(faceRecognition: FaceRecognition, samples: seq<Bitmap>)
    requires FixedDimension(faceRecognition) && |samples| < 2
    ensures AreAllImagesSamePerson(faceRecognition, samples)
  {
    EmbeddingsUniform(faceRecognition, samples);
    FaceNetFaceRecognition.AllImagesSamePersonMeaning(Embeddings(faceRecognition, samples), faceRecognition.sqrt);
  }

  /**
   * The inputs that drive a flow, in arrival order: `initialise()` (with the coin flip the
   * composite flow draws, ignored by the others) or one observed face.
   */
  datatype Input = Initialise(coin: bool) | Observe(face: FaceDetected)

  /** The message every flow publishes when the consistency check fails. */
  const DifferentPersonMessage: string := "Different person in at least one of the images"

  /** The message published while the consistency check is pending. */
  const AdditionalChecksMessage: string := "Please wait for additional checks"
}
