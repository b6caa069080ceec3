/** `ImageClassifierService.getTopProbability`: confidences as percentages with two decimals. */
module ImageClassifierService {
  import opened Wrappers
  import opened Verification
  import opened Numbers
  import opened Ranking

  /** The default `maxResultNumber`. */
  const MaxResultNumber: int := 3

  /** `getTopProbability(labelProb, numberOfProbabilities)`. */
  function GetTopProbability(labelProb: LabelProbabilities, numberOfProbabilities: int)
    : (r: Result<seq<ClassifierResult>>)
    ensures r.Failure? <==> numberOfProbabilities < 0
    ensures r.Success? ==>
      && |r.value| == CoerceAtMost(ProbabilityCount(labelProb), numberOfProbabilities)
      && SortedDescending(r.value)
  {
    TopProbability(labelProb, numberOfProbabilities, Percentage)
  }

  /**
   * Every returned `ClassifierResult` names a label with a probability `p`:
   * `id` and `title` are the label, `confidence` is `p` as a rounded percentage
   * (within 0.005 of `100 * p`) and `location` is null.
   */
  lemma ResultsCarryRoundedPercentages(labelProb: LabelProbabilities, numberOfProbabilities: int)
    requires 0 <= numberOfProbabilities
    ensures forall e | e in GetTopProbability(labelProb, numberOfProbabilities).value ::
      && e.id == e.title
      && e.location.None?
      && exists i | 0 <= i < |labelProb| :: (
        && labelProb[i].0 == e.id && labelProb[i].1.Some?
        && e.confidence == Percentage(labelProb[i].1.value)
        && 100.0 * labelProb[i].1.value - 0.005 < e.confidence <= 100.0 * labelProb[i].1.value + 0.005)
  {
    var top := GetTopProbability(labelProb, numberOfProbabilities).value;
    var built := BuildList(labelProb, Percentage);
    forall e | e in top
      ensures e.id == e.title && e.location.None?
      ensures exists i | 0 <= i < |labelProb| :: (
        && labelProb[i].0 == e.id && labelProb[i].1.Some?
        && e.confidence == Percentage(labelProb[i].1.value)
        && 100.0 * labelProb[i].1.value - 0.005 < e.confidence <= 100.0 * labelProb[i].1.value + 0.005)
    {
      assert e in multiset(top);
      assert e in built;
      var i :| 0 <= i < |labelProb| && labelProb[i].1.Some?
        && e == Entry(labelProb[i].0, Percentage(labelProb[i].1.value));
    }
  }

  /**
   * Sorting the rounded percentages can put a label behind another only when
   * its probability is less than 0.0001 above the other's: an omitted
   * probability never exceeds a kept one by that much.
   */
  lemma RoundingReordersOnlyNearTies(labelProb: LabelProbabilities, numberOfProbabilities: int, kept: real, omitted: real)
    requires 0 <= numberOfProbabilities
    requires var top := GetTopProbability(labelProb, numberOfProbabilities).value;
      var rest := SortByDescending(BuildList(labelProb, Percentage))[|top|..];
      (exists a | a in top :: a.confidence == Percentage(kept))
      && (exists b | b in rest :: b.confidence == Percentage(omitted))
    ensures omitted < kept + 0.0001
  {
    var top := GetTopProbability(labelProb, numberOfProbabilities).value;
    var rest := SortByDescending(BuildList(labelProb, Percentage))[|top|..];
    TopProbabilityKeepsTheBest(labelProb, numberOfProbabilities, Percentage);
    var a :| a in top && a.confidence == Percentage(kept);
    var b :| b in rest && b.confidence == Percentage(omitted);
    assert Percentage(omitted) <= Percentage(kept);
  }
}
