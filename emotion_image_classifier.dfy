/**
 * `EmotionImageClassifier`: pairs the labels with one model run's output and
 * ranks them as rounded percentages.
 */
module EmotionImageClassifier {
  import opened Wrappers
  import opened Graphics
  import opened Verification
  import opened Numbers
  import opened Ranking

  /** The default `maxResultNumber`. */
  const MaxResultNumber: int := 3

  /** Some entry of the map has this key. */
  predicate HasKey(entries: LabelProbabilities, key: string) {
    exists e | e in entries :: e.0 == key
  }

  /** Where the map holds `key`, or -1 when it does not. */
  function KeyIndex(entries: LabelProbabilities, key: string): (i: int)
    ensures -1 <= i < |entries|
    ensures i == -1 <==> !HasKey(entries, key)
    ensures 0 <= i ==> entries[i].0 == key && forall j | 0 <= j < i :: entries[j].0 != key
  {
    if entries == [] then -1
    else if entries[0].0 == key then 0
    else
      var i := KeyIndex(entries[1..], key);
      assert forall e | e in entries[1..] :: e in entries;
      assert forall e | e in entries :: e == entries[0] || e in entries[1..];
      if i == -1 then -1 else i + 1
  }

  /** `LinkedHashMap.put`: a new key goes last, an existing key keeps its place and takes the new value. */
  function Put(entries: LabelProbabilities, key: string, value: real): (r: LabelProbabilities)
    ensures (key, Some(value)) in r
    ensures !HasKey(entries, key) ==> r == entries + [(key, Some(value))]
    ensures HasKey(entries, key) ==> (
      && |r| == |entries|
      && r[KeyIndex(entries, key)] == (key, Some(value))
      && forall j | 0 <= j < |entries| && j != KeyIndex(entries, key) :: r[j] == entries[j])
  {
    var i := KeyIndex(entries, key);
    if i == -1 then entries + [(key, Some(value))]
    else
      assert entries[i := (key, Some(value))][i] == (key, Some(value));
      entries[i := (key, Some(value))]
  }

  /** Putting into a map keeps every other entry and its keys distinct. */
  lemma PutKeepsAMap(entries: LabelProbabilities, key: string, value: real)
    requires DistinctKeys(entries)
    ensures DistinctKeys(Put(entries, key, value))
    ensures forall e | e in entries && e.0 != key :: e in Put(entries, key, value)
    ensures forall e | e in Put(entries, key, value) :: e == (key, Some(value)) || e in entries
  {
    var r := Put(entries, key, value);
    if HasKey(entries, key) {
      forall e | e in entries && e.0 != key ensures e in r {
        var j :| 0 <= j < |entries| && entries[j] == e;
        assert r[j] == e;
      }
    }
  }

  /** `label` does not occur in `labels` after index `i`. */
  predicate LastOccurrence(labels: seq<string>, i: int)
    requires 0 <= i < |labels|
  {
    forall j | i < j < |labels| :: labels[j] != labels[i]
  }

  /**
   * `TensorLabel(labels, output).mapWithFloatValue`: every label put with its
   * output value, in order, into a `LinkedHashMap`.
   */
  function Labelled(labels: seq<string>, output: seq<real>): (r: LabelProbabilities)
    requires |labels| == |output|
    ensures |r| <= |labels|
  {
    if labels == [] then []
    else
      var n := |labels| - 1;
      Put(Labelled(labels[..n], output[..n]), labels[n], output[n])
  }

  /**
   * The labelled output is a map over exactly the labels, every value present,
   * and each label holds the output at its last occurrence: a repeated label
   * keeps its first place and takes its last value.
   */
  lemma {:induction false} LabelledIsAMap(labels: seq<string>, output: seq<real>)
    requires |labels| == |output|
    ensures var r := Labelled(labels, output);
      && DistinctKeys(r)
      && (forall e | e in r :: e.1.Some? && e.0 in labels)
      && forall i | 0 <= i < |labels| && LastOccurrence(labels, i) :: (labels[i], Some(output[i])) in r
  {
    if labels != [] {
      var n := |labels| - 1;
      LabelledIsAMap(labels[..n], output[..n]);
      var before := Labelled(labels[..n], output[..n]);
      PutKeepsAMap(before, labels[n], output[n]);
      var r := Labelled(labels, output);
      forall i | 0 <= i < |labels| && LastOccurrence(labels, i) ensures (labels[i], Some(output[i])) in r {
        if i < n {
          assert labels[..n][i] == labels[i] && output[..n][i] == output[i];
          assert LastOccurrence(labels[..n], i);
          assert labels[i] != labels[n];
        }
      }
      forall e | e in r ensures e.1.Some? && e.0 in labels {
        if e != (labels[n], Some(output[n])) {
          assert e in before;
          assert e.0 in labels[..n];
        }
      }
    }
  }

  /** With distinct labels the map holds every label with its own output value, in label order. */
  lemma {:induction false} DistinctLabelsPairInOrder(labels: seq<string>, output: seq<real>)
    requires |labels| == |output|
    requires forall i, j :: 0 <= i < j < |labels| ==> labels[i] != labels[j]
    ensures |Labelled(labels, output)| == |labels|
    ensures forall i | 0 <= i < |labels| :: Labelled(labels, output)[i] == (labels[i], Some(output[i]))
  {
    if labels != [] {
      var n := |labels| - 1;
      DistinctLabelsPairInOrder(labels[..n], output[..n]);
      var before := Labelled(labels[..n], output[..n]);
      assert !HasKey(before, labels[n]) by {
        forall e | e in before ensures e.0 != labels[n] {
          var k :| 0 <= k < |before| && before[k] == e;
          assert labels[..n][k] == labels[k];
        }
      }
      assert Labelled(labels, output) == before + [(labels[n], Some(output[n]))];
    }
  }

  /** The model output paired with the labels; the support library throws when their sizes differ. */
  function LabelledProbabilities(labels: seq<string>, output: seq<real>): (r: Result<LabelProbabilities>)
    ensures r.Success? <==> |labels| == |output|
    ensures r.Success? ==> r.value == Labelled(labels, output)
  {
    if |labels| != |output| then Failure("Label number mismatch the shape")
    else Success(Labelled(labels, output))
  }

  /** `getProbabilityFromOutput(probabilityBuffer)`: the top results of the labelled output. */
  function GetProbabilityFromOutput(labels: seq<string>, output: seq<real>, maxResultNumber: int)
    : (r: Result<seq<ClassifierResult>>)
    ensures r.Success? <==> |labels| == |output| && 0 <= maxResultNumber
    ensures r.Success? ==>
      && |r.value| == CoerceAtMost(|Labelled(labels, output)|, maxResultNumber)
      && SortedDescending(r.value)
      && forall e | e in r.value :: e.id == e.title && e.location.None? && e.id in labels
  {
    match LabelledProbabilities(labels, output)
    case Failure(error) => Failure(error)
    case Success(labelProb) =>
      var r := TopProbability(labelProb, maxResultNumber, Percentage);
      LabelledIsAMap(labels, output);
      AllProbabilitiesPresent(labelProb);
      assert r.Success? ==> forall e | e in r.value :: e.id == e.title && e.location.None? && e.id in labels by {
        if r.Success? {
          forall e | e in r.value ensures e.id == e.title && e.location.None? && e.id in labels {
            assert e in multiset(r.value);
            assert e in BuildList(labelProb, Percentage);
          }
        }
      }
      r
  }

  lemma {:induction false} AllProbabilitiesPresent(labelProb: LabelProbabilities)
    requires forall e | e in labelProb :: e.1.Some?
    ensures ProbabilityCount(labelProb) == |labelProb|
  {
    if labelProb != [] {
      assert labelProb[0] in labelProb;
      assert forall e | e in labelProb[1..] :: e in labelProb;
      AllProbabilitiesPresent(labelProb[1..]);
    }
  }

  /** `classifyEmotions(bitmap)`: the ranking of one model run (`run`) on the bitmap. */
  function ClassifyEmotions(labels: seq<string>, run: Bitmap -> seq<real>, bitmap: Bitmap, maxResultNumber: int)
    : (r: Result<seq<ClassifierResult>>)
    ensures r.Success? <==> |labels| == |run(bitmap)| && 0 <= maxResultNumber
    ensures r.Success? ==> |r.value| <= maxResultNumber && SortedDescending(r.value)
  {
    GetProbabilityFromOutput(labels, run(bitmap), maxResultNumber)
  }

  /**
   * With distinct labels and the default count, the emotions come back as
   * `min(3, |labels|)` results, each naming a label with its output value as a
   * rounded percentage.
   */
  lemma DefaultEmotionRanking(labels: seq<string>, output: seq<real>)
    requires |labels| == |output|
    requires forall i, j :: 0 <= i < j < |labels| ==> labels[i] != labels[j]
    ensures var r := GetProbabilityFromOutput(labels, output, MaxResultNumber);
      && r.Success?
      && |r.value| == CoerceAtMost(|labels|, 3)
      && forall e | e in r.value :: exists i | 0 <= i < |labels| :: (
        labels[i] == e.id && e.confidence == Percentage(output[i]))
  {
    DistinctLabelsPairInOrder(labels, output);
    var labelProb := Labelled(labels, output);
    var r := GetProbabilityFromOutput(labels, output, MaxResultNumber);
    forall e | e in r.value ensures exists i | 0 <= i < |labels| :: labels[i] == e.id && e.confidence == Percentage(output[i]) {
      assert e in multiset(r.value);
      assert e in BuildList(labelProb, Percentage);
      var i :| 0 <= i < |labelProb| && labelProb[i].1.Some?
        && e == Entry(labelProb[i].0, Percentage(labelProb[i].1.value));
      assert labelProb[i] == (labels[i], Some(output[i]));
    }
  }
}
