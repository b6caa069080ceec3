/** `ClassifierService.getTopProbability` (emotion_detection/Classifier.kt): raw probabilities as confidences. */
module ClassifierService {
  import opened Wrappers
  import opened Verification
  import opened Ranking

  /** The default `maxResultNumber`. */
  const MaxResultNumber: int := 3

  /** A `Recognition` keeps the model's probability unchanged. */
  function AsProbability(p: real): real { p }

  /** `getTopProbability(labelProb, numberOfProbabilities)`. */
  function GetTopProbability(labelProb: LabelProbabilities, numberOfProbabilities: int)
    : (r: Result<seq<ClassifierResult>>)
    ensures r.Failure? <==> numberOfProbabilities < 0
    ensures r.Success? ==>
      && |r.value| == CoerceAtMost(ProbabilityCount(labelProb), numberOfProbabilities)
      && SortedDescending(r.value)
  {
    TopProbability(labelProb, numberOfProbabilities, AsProbability)
  }

  /**
   * Every returned `Recognition` names a label with a probability: `id` and
   * `title` are that label, `confidence` is that probability and `location` is null.
   */
  lemma RecognitionsCarryTheirProbability(labelProb: LabelProbabilities, numberOfProbabilities: int)
    requires 0 <= numberOfProbabilities
    ensures forall e | e in GetTopProbability(labelProb, numberOfProbabilities).value ::
      && e.id == e.title
      && e.location.None?
      && exists i | 0 <= i < |labelProb| :: labelProb[i] == (e.id, Some(e.confidence))
  {
    var top := GetTopProbability(labelProb, numberOfProbabilities).value;
    var built := BuildList(labelProb, AsProbability);
    forall e | e in top
      ensures e.id == e.title && e.location.None?
      ensures exists i | 0 <= i < |labelProb| :: labelProb[i] == (e.id, Some(e.confidence))
    {
      assert e in multiset(top);
      assert e in built;
      var i :| 0 <= i < |labelProb| && labelProb[i].1.Some?
        && e == Entry(labelProb[i].0, AsProbability(labelProb[i].1.value));
      assert labelProb[i] == (e.id, Some(e.confidence));
    }
  }

  /** With the default count, at most three results come back, and fewer only when fewer labels have a probability. */
  lemma DefaultReturnsUpToThree(labelProb: LabelProbabilities)
    ensures var r := GetTopProbability(labelProb, MaxResultNumber);
      && r.Success?
      && |r.value| <= 3
      && (|r.value| < 3 ==> |r.value| == ProbabilityCount(labelProb))
  {
  }
}
