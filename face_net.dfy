/**
 * `face_recognition/FaceNetFaceRecognition.kt` (library): the distance and similarity
 * formulas on embeddings, the same-person thresholds, the all-pairs consistency fold used
 * by the challenge flows, and the copy semantics of `getImageProcessing`.
 *
 * Embeddings are sequences of reals. The square root is a parameter of the formulas;
 * `IsSquareRoot` states what the lemmas assume about it.
 */
module FaceNetFaceRecognition {
  import opened Wrappers
  import opened Graphics
  import ConvenienceFunctions

  datatype MetricUsed = COSINE | L2

  /**
   * `sqrt` returns the non-negative square root of every non-negative real; the root of
   * zero, which follows, is stated outright.
   */
  ghost predicate IsSquareRoot(sqrt: real -> real)
  {
    && sqrt(0.0) == 0.0
    && forall x: real :: 0.0 <= x ==> 0.0 <= sqrt(x) && sqrt(x) * sqrt(x) == x
  }

  // ---------------------------------------------------------------------------
  // computeL2Normalisation
  // ---------------------------------------------------------------------------

  /** Sum, over the indices of `first`, of the squared component differences. */
  function SquaredDifferences(first: seq<real>, second: seq<real>): (total: real)
    requires |first| <= |second|
    ensures total >= 0.0
  {
    if |first| == 0 then 0.0
    else (first[0] - second[0]) * (first[0] - second[0]) + SquaredDifferences(first[1..], second[1..])
  }

  /** `computeL2Normalisation(first, second)`; `second` must be at least as long as `first`. */
  function L2Normalisation(first: seq<real>, second: seq<real>, sqrt: real -> real): real
    requires |first| <= |second|
  {
    sqrt(SquaredDifferences(first, second))
  }

  /** The squared differences vanish when `first` is a prefix of `second`. */
  lemma {:induction false} SquaredDifferencesOfPrefix(first: seq<real>, second: seq<real>)
    requires |first| <= |second| && first == second[..|first|]
    ensures SquaredDifferences(first, second) == 0.0
  {
    if |first| > 0 {
      assert first[1..] == second[1..][..|first| - 1];
      SquaredDifferencesOfPrefix(first[1..], second[1..]);
      assert first[0] - second[0] == 0.0;
    }
  }

  lemma {:induction false} SquaredDifferencesSymmetric(a: seq<real>, b: seq<real>)
    requires |a| == |b|
    ensures SquaredDifferences(a, b) == SquaredDifferences(b, a)
  {
    if |a| > 0 {
      SquaredDifferencesSymmetric(a[1..], b[1..]);
      assert (a[0] - b[0]) * (a[0] - b[0]) == (b[0] - a[0]) * (b[0] - a[0]);
    }
  }

  /** L2 is the non-negative root of the squared differences. */
  lemma L2IsRootOfSquaredDifferences(first: seq<real>, second: seq<real>, sqrt: real -> real)
    requires |first| <= |second| && IsSquareRoot(sqrt)
    ensures L2Normalisation(first, second, sqrt) >= 0.0
    ensures L2Normalisation(first, second, sqrt) * L2Normalisation(first, second, sqrt)
         == SquaredDifferences(first, second)
  {
  }

  /** The L2 distance of an embedding to itself is zero. */
  lemma L2OfSelf(v: seq<real>, sqrt: real -> real)
    requires IsSquareRoot(sqrt)
    ensures L2Normalisation(v, v, sqrt) == 0.0
  {
    assert v == v[..|v|];
    SquaredDifferencesOfPrefix(v, v);
  }

  /** Swapping two equal-length embeddings gives the same distance. */
  lemma L2Symmetric(a: seq<real>, b: seq<real>, sqrt: real -> real)
    requires |a| == |b|
    ensures L2Normalisation(a, b, sqrt) == L2Normalisation(b, a, sqrt)
  {
    SquaredDifferencesSymmetric(a, b);
  }

  /** A root is at most 10 exactly when its square is at most 100. */
  lemma RootAtMostTen(r: real, x: real)
    requires r >= 0.0 && r * r == x
    ensures r <= 10.0 <==> x <= 100.0
  {
    if r <= 10.0 {
      assert r * r <= 10.0 * r <= 100.0;
    } else {
      assert r * r > 10.0 * r > 100.0;
    }
  }

  // ---------------------------------------------------------------------------
  // computeCosineSimilarity
  // ---------------------------------------------------------------------------

  /** `v.map { it * it }.sum()`. */
  function SumOfSquares(v: seq<real>): (total: real)
    ensures total >= 0.0
  {
    if |v| == 0 then 0.0 else v[0] * v[0] + SumOfSquares(v[1..])
  }

  /** `first.mapIndexed { i, j -> j * second[i] }.sum()`. */
  function DotProduct(first: seq<real>, second: seq<real>): real
    requires |first| <= |second|
  {
    if |first| == 0 then 0.0 else first[0] * second[0] + DotProduct(first[1..], second[1..])
  }

  lemma {:induction false} DotProductWithSelf(v: seq<real>)
    ensures DotProduct(v, v) == SumOfSquares(v)
  {
    if |v| > 0 {
      DotProductWithSelf(v[1..]);
    }
  }

  /**
   * `computeCosineSimilarity(first, second)`: the dot product divided by the product of
   * the two magnitudes. `None` is the NaN that the float division yields when that product
   * is zero.
   */
  function CosineSimilarity(first: seq<real>, second: seq<real>, sqrt: real -> real): (similarity: Option<real>)
    requires |first| <= |second|
    ensures similarity.None? <==> sqrt(SumOfSquares(first)) * sqrt(SumOfSquares(second)) == 0.0
    ensures similarity.Some? ==>
      similarity.value * (sqrt(SumOfSquares(first)) * sqrt(SumOfSquares(second))) == DotProduct(first, second)
  {
    var magnitudes := sqrt(SumOfSquares(first)) * sqrt(SumOfSquares(second));
    if magnitudes == 0.0 then None else Some(DotProduct(first, second) / magnitudes)
  }

  /** A non-zero embedding has cosine similarity 1 with itself. */
  lemma CosineOfSelf(v: seq<real>, sqrt: real -> real)
    requires IsSquareRoot(sqrt) && SumOfSquares(v) > 0.0
    ensures CosineSimilarity(v, v, sqrt) == Some(1.0)
  {
    DotProductWithSelf(v);
    var r := sqrt(SumOfSquares(v));
    assert r >= 0.0 && r * r == SumOfSquares(v);
    assert r * r != 0.0;
    assert DotProduct(v, v) / (r * r) == 1.0;
  }

  // ---------------------------------------------------------------------------
  // isImageSamePerson
  // ---------------------------------------------------------------------------

  /** `isImageSamePerson(metricToBeUsed, imagePair)` as written. */
  predicate IsImageSamePerson(metricToBeUsed: MetricUsed, imagePair: (seq<real>, seq<real>), sqrt: real -> real)
    requires |imagePair.0| <= |imagePair.1|
  {
    match metricToBeUsed
    case COSINE =>
      var similarity := CosineSimilarity(imagePair.0, imagePair.1, sqrt);
      similarity.Some? && similarity.value <= 0.4
    case L2 => L2Normalisation(imagePair.0, imagePair.1, sqrt) <= 10.0
  }

  /**
   * With L2, two embeddings show the same person exactly when their squared differences
   * are at most 100; in particular every embedding matches itself.
   */
  lemma SamePersonUnderL2(imagePair: (seq<real>, seq<real>), sqrt: real -> real)
    requires |imagePair.0| <= |imagePair.1| && IsSquareRoot(sqrt)
    ensures IsImageSamePerson(L2, imagePair, sqrt) <==> SquaredDifferences(imagePair.0, imagePair.1) <= 100.0
    ensures imagePair.0 == imagePair.1 ==> IsImageSamePerson(L2, imagePair, sqrt)
  {
    L2IsRootOfSquaredDifferences(imagePair.0, imagePair.1, sqrt);
    RootAtMostTen(L2Normalisation(imagePair.0, imagePair.1, sqrt), SquaredDifferences(imagePair.0, imagePair.1));
    if imagePair.0 == imagePair.1 {
      L2OfSelf(imagePair.0, sqrt);
    }
  }

  /**
   * As written, the COSINE rule accepts exactly the pairs whose similarity is at most 0.4,
   * the complement of the gallery's "greater than 0.4" match rule; so an embedding compared
   * with itself (similarity 1) is judged a different person.
   */
  lemma CosineRuleRejectsIdenticalFaces(v: seq<real>, sqrt: real -> real)
    requires IsSquareRoot(sqrt) && SumOfSquares(v) > 0.0
    ensures CosineSimilarity(v, v, sqrt) == Some(1.0)
    ensures !IsImageSamePerson(COSINE, (v, v), sqrt)
  {
    CosineOfSelf(v, sqrt);
  }

  /**
   * The intended rule: COSINE accepts similarities above 0.4, matching the gallery rule;
   * L2 is unchanged. The consistency fold below uses this definition.
   */
  predicate IsImageSamePersonIntended(metricToBeUsed: MetricUsed, imagePair: (seq<real>, seq<real>), sqrt: real -> real)
    requires |imagePair.0| <= |imagePair.1|
  {
    match metricToBeUsed
    case COSINE =>
      var similarity := CosineSimilarity(imagePair.0, imagePair.1, sqrt);
      similarity.Some? && similarity.value > 0.4
    case L2 => IsImageSamePerson(L2, imagePair, sqrt)
  }

  /** Under the intended rule every non-zero embedding matches itself with either metric. */
  lemma IntendedRuleAcceptsIdenticalFaces(metric: MetricUsed, v: seq<real>, sqrt: real -> real)
    requires IsSquareRoot(sqrt) && SumOfSquares(v) > 0.0
    ensures IsImageSamePersonIntended(metric, (v, v), sqrt)
  {
    CosineOfSelf(v, sqrt);
    SamePersonUnderL2((v, v), sqrt);
  }

  // ---------------------------------------------------------------------------
  // The consistency fold: `elementPairs(processed).map { isImageSamePerson(L2, it) }.any { !it }`
  // ---------------------------------------------------------------------------

  /** All embeddings have the same length (they come from one model). */
  predicate Uniform(embeddings: seq<seq<real>>)
  {
    forall i, j :: 0 <= i < |embeddings| && 0 <= j < |embeddings| ==> |embeddings[i]| == |embeddings[j]|
  }

  predicate PairsFit(pairs: seq<(seq<real>, seq<real>)>)
  {
    forall k :: 0 <= k < |pairs| ==> |pairs[k].0| <= |pairs[k].1|
  }

  lemma ElementPairsFit(embeddings: seq<seq<real>>)
    requires Uniform(embeddings)
    ensures PairsFit(ConvenienceFunctions.ElementPairs(embeddings))
  {
    forall k | 0 <= k < |ConvenienceFunctions.ElementPairs(embeddings)|
      ensures |ConvenienceFunctions.ElementPairs(embeddings)[k].0| <= |ConvenienceFunctions.ElementPairs(embeddings)[k].1|
    {
      var i, j := ConvenienceFunctions.PairAtPosition(embeddings, k);
    }
  }

  /** No pair in `pairs` fails the L2 same-person test. */
  predicate NoPairFails(pairs: seq<(seq<real>, seq<real>)>, sqrt: real -> real)
    requires PairsFit(pairs)
  {
    forall k :: 0 <= k < |pairs| ==> IsImageSamePersonIntended(L2, pairs[k], sqrt)
  }

  /** `checkAreAllImagesSamePerson` once the samples have been embedded. */
  predicate AllImagesSamePerson(embeddings: seq<seq<real>>, sqrt: real -> real)
    requires Uniform(embeddings)
  {
    ElementPairsFit(embeddings);
    NoPairFails(ConvenienceFunctions.ElementPairs(embeddings), sqrt)
  }

  /**
   * The fold accepts exactly when every two distinct samples, in either order, are within
   * L2 distance 10; so it does not depend on the order of the samples, and it holds
   * vacuously for fewer than two.
   */
  lemma AllImagesSamePersonMeaning(embeddings: seq<seq<real>>, sqrt: real -> real)
    requires Uniform(embeddings)
    ensures AllImagesSamePerson(embeddings, sqrt) <==>
      (forall i, j :: 0 <= i < |embeddings| && 0 <= j < |embeddings| && i != j ==>
         L2Normalisation(embeddings[i], embeddings[j], sqrt) <= 10.0)
    ensures |embeddings| < 2 ==> AllImagesSamePerson(embeddings, sqrt)
  {
    var P := (a: seq<real>, b: seq<real>) => |a| <= |b| && L2Normalisation(a, b, sqrt) <= 10.0;
    ConvenienceFunctions.AllElementPairs(embeddings, P);
    ElementPairsFit(embeddings);
    ConvenienceFunctions.ElementPairsLength(embeddings);
    forall i, j | 0 <= i < |embeddings| && 0 <= j < |embeddings| && i != j
      ensures L2Normalisation(embeddings[i], embeddings[j], sqrt) == L2Normalisation(embeddings[j], embeddings[i], sqrt)
    {
      L2Symmetric(embeddings[i], embeddings[j], sqrt);
    }
  }

  // ---------------------------------------------------------------------------
  // processImage / getImageProcessing
  // ---------------------------------------------------------------------------

  /**
   * The part of the recogniser that owns the interpreter's output buffer. `embed` stands for
   * one run of the network on a bitmap.
   */
  class FaceNetInterpreter {
    const embed: Bitmap -> seq<real>
    const outputProbabilityBuffer: array<real>

    ghost predicate Valid()
      reads this
    {
      forall b: Bitmap :: |embed(b)| == outputProbabilityBuffer.Length
    }

    constructor (embed: Bitmap -> seq<real>, size: nat)
      requires forall b: Bitmap :: |embed(b)| == size
      ensures Valid() && this.embed == embed && fresh(outputProbabilityBuffer)
    {
      this.embed := embed;
      outputProbabilityBuffer := new real[size];
    }

    /** `processImage(bitmap)`: runs the network into the shared buffer and returns that buffer. */
    method ProcessImage(bitmap: Bitmap) returns (buffer: array<real>)
      requires Valid()
      modifies outputProbabilityBuffer
      ensures buffer == outputProbabilityBuffer
      ensures buffer[..] == embed(bitmap)
    {
      var output := embed(bitmap);
      var i := 0;
      while i < outputProbabilityBuffer.Length
        invariant 0 <= i <= outputProbabilityBuffer.Length
        invariant outputProbabilityBuffer[..i] == output[..i]
      {
        outputProbabilityBuffer[i] := output[i];
        i := i + 1;
      }
      buffer := outputProbabilityBuffer;
    }

    /** `getImageProcessing(bitmap)`: a fresh copy of the buffer after one run. */
    method GetImageProcessing(bitmap: Bitmap) returns (embedding: array<real>)
      requires Valid()
      modifies outputProbabilityBuffer
      ensures fresh(embedding)
      ensures embedding[..] == embed(bitmap)
    {
      var buffer := ProcessImage(bitmap);
      embedding := new real[buffer.Length];
      var i := 0;
      while i < buffer.Length
        modifies embedding
        invariant 0 <= i <= buffer.Length
        invariant embedding[..i] == buffer[..i]
      {
        embedding[i] := buffer[i];
        i := i + 1;
      }
    }

    /**
     * Two successive `getImageProcessing` calls return two distinct arrays, each holding its
     * own embedding, whereas two `processImage` calls return the same buffer, which then
     * holds only the second embedding.
     */
    method SuccessiveEmbeddings(a: Bitmap, b: Bitmap)
      returns (copyA: array<real>, copyB: array<real>, sharedA: array<real>, sharedB: array<real>)
      requires Valid()
      modifies outputProbabilityBuffer
      ensures copyA != copyB && copyA[..] == embed(a) && copyB[..] == embed(b)
      ensures sharedA == sharedB == outputProbabilityBuffer && sharedA[..] == embed(b)
    {
      copyA := GetImageProcessing(a);
      copyB := GetImageProcessing(b);
      sharedA := ProcessImage(a);
      sharedB := ProcessImage(b);
    }
  }
}
