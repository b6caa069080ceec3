/**
 * Face matching against an enrolled gallery (`checkFaceSimilarity` and
 * `addImageToFaceList` of the analyzers): one score per gallery entry, grouped
 * and averaged per name, then the best name is picked under the metric's rule.
 */
module Gallery {
  import opened Wrappers
  import opened Graphics
  import opened Verification
  import opened FaceNetFaceRecognition

  /** `FaceNetFaceRecognition.FaceRecognitionResult`: an enrolled face. */
  datatype FaceRecognitionResult = FaceRecognitionResult(name: string, embedding: seq<real>)

  /** The name reported when no enrolled face is close enough. */
  const UnknownName: string := "Unknown"

  /** The largest average L2 distance that still identifies a person. */
  const L2Threshold: real := 10.0

  /** The smallest average cosine similarity that identifies a person (exclusive). */
  const CosineThreshold: real := 0.4

  /** Every enrolled embedding is at least as long as the subject. */
  predicate Comparable(gallery: seq<FaceRecognitionResult>, subject: seq<real>) {
    forall f | f in gallery :: |subject| <= |f.embedding|
  }

  /** The names enrolled in the gallery. */
  function Names(gallery: seq<FaceRecognitionResult>): set<string> {
    set f | f in gallery :: f.name
  }

  /** The L2 scores of the subject against the entries named `name`, in gallery order. */
  function ScoresFor(gallery: seq<FaceRecognitionResult>, subject: seq<real>, sqrt: real -> real, name: string)
    : (scores: seq<real>)
    requires Comparable(gallery, subject)
    ensures name in Names(gallery) <==> |scores| > 0
  {
    if gallery == [] then []
    else
      var last := gallery[|gallery| - 1];
      var before := gallery[..|gallery| - 1];
      assert forall f | f in gallery :: f in before || f == last;
      assert forall f | f in before :: f in gallery;
      ScoresFor(before, subject, sqrt, name)
        + (if last.name == name then [L2Normalisation(subject, last.embedding, sqrt)] else [])
  }

  function Sum(s: seq<real>): real {
    if s == [] then 0.0 else Sum(s[..|s| - 1]) + s[|s| - 1]
  }

  /** `FloatArray.average()`. */
  function Average(s: seq<real>): real
    requires |s| > 0
  {
    Sum(s) / |s| as real
  }

  /** The per-name averages of the subject's scores. */
  function Averages(gallery: seq<FaceRecognitionResult>, subject: seq<real>, sqrt: real -> real): (averages: map<string, real>)
    requires Comparable(gallery, subject)
    ensures averages.Keys == Names(gallery)
  {
    map name | name in Names(gallery) :: Average(ScoresFor(gallery, subject, sqrt, name))
  }

  /**
   * The selection rule of `checkFaceSimilarity`. With L2, a name with the least
   * average when some average is at most 10, else "Unknown"; with COSINE, a name
   * with the greatest average when some average exceeds 0.4, else "Unknown".
   * Equal averages are resolved by `HashMap` order, which any minimal (maximal)
   * name stands for.
   */
  ghost predicate IsBestName(metric: MetricUsed, averages: map<string, real>, name: string) {
    match metric
    case L2 =>
      if exists n | n in averages :: averages[n] <= L2Threshold then
        name in averages && forall n | n in averages :: averages[name] <= averages[n]
      else
        name == UnknownName
    case COSINE =>
      if exists n | n in averages :: averages[n] > CosineThreshold then
        name in averages && forall n | n in averages :: averages[name] >= averages[n]
      else
        name == UnknownName
  }

  lemma {:induction false} LeastExists(averages: map<string, real>)
    requires averages != map[]
    ensures exists n | n in averages :: forall k | k in averages :: averages[n] <= averages[k]
    decreases |averages.Keys|
  {
    var k :| k in averages;
    var rest := averages - {k};
    if rest == map[] {
      forall j | j in averages ensures j == k {
        assert j != k ==> j in rest;
      }
    } else {
      assert |rest.Keys| < |averages.Keys| by {
        assert rest.Keys == averages.Keys - {k};
      }
      LeastExists(rest);
      var n :| n in rest && forall j | j in rest :: rest[n] <= rest[j];
      if averages[k] < averages[n] {
        assert forall j | j in averages :: averages[k] <= averages[j] by {
          forall j | j in averages ensures averages[k] <= averages[j] {
            if j != k { assert j in rest; }
          }
        }
      } else {
        assert forall j | j in averages :: averages[n] <= averages[j] by {
          forall j | j in averages ensures averages[n] <= averages[j] {
            if j != k { assert j in rest; }
          }
        }
      }
    }
  }

  lemma {:induction false} GreatestExists(averages: map<string, real>)
    requires averages != map[]
    ensures exists n | n in averages :: forall k | k in averages :: averages[n] >= averages[k]
    decreases |averages.Keys|
  {
    var k :| k in averages;
    var rest := averages - {k};
    if rest == map[] {
      forall j | j in averages ensures j == k {
        assert j != k ==> j in rest;
      }
    } else {
      assert |rest.Keys| < |averages.Keys| by {
        assert rest.Keys == averages.Keys - {k};
      }
      GreatestExists(rest);
      var n :| n in rest && forall j | j in rest :: rest[n] >= rest[j];
      if averages[k] > averages[n] {
        assert forall j | j in averages :: averages[k] >= averages[j] by {
          forall j | j in averages ensures averages[k] >= averages[j] {
            if j != k { assert j in rest; }
          }
        }
      } else {
        assert forall j | j in averages :: averages[n] >= averages[j] by {
          forall j | j in averages ensures averages[n] >= averages[j] {
            if j != k { assert j in rest; }
          }
        }
      }
    }
  }

  /**
   * The `when (metricToBeUsed)` block: `minOrNull()!!` / `maxOrNull()!!` throw on
   * an empty map, otherwise the name chosen by the metric's rule.
   */
  method SelectBestName(metric: MetricUsed, averages: map<string, real>) returns (r: Result<string>)
    ensures r.Failure? <==> averages == map[]
    ensures r.Success? ==> IsBestName(metric, averages, r.value)
  {
    if averages == map[] {
      return Failure("NullPointerException");
    }
    match metric
    case L2 =>
      LeastExists(averages);
      var best :| best in averages && forall k | k in averages :: averages[best] <= averages[k];
      if averages[best] > L2Threshold {
        r := Success(UnknownName);
      } else {
        r := Success(best);
      }
    case COSINE =>
      GreatestExists(averages);
      var best :| best in averages && forall k | k in averages :: averages[best] >= averages[k];
      if averages[best] > CosineThreshold {
        r := Success(best);
      } else {
        r := Success(UnknownName);
      }
  }

  lemma {:induction false} ScoresAreDistances(gallery: seq<FaceRecognitionResult>, subject: seq<real>, sqrt: real -> real, name: string)
    requires Comparable(gallery, subject) && IsSquareRoot(sqrt)
    ensures forall x | x in ScoresFor(gallery, subject, sqrt, name) :: x >= 0.0
    ensures (forall f | f in gallery && f.name == name :: f.embedding == subject) ==>
      forall x | x in ScoresFor(gallery, subject, sqrt, name) :: x == 0.0
  {
    if gallery != [] {
      var last := gallery[|gallery| - 1];
      var before := gallery[..|gallery| - 1];
      assert forall f | f in before :: f in gallery;
      ScoresAreDistances(before, subject, sqrt, name);
      L2IsRootOfSquaredDifferences(subject, last.embedding, sqrt);
      if last.name == name && last.embedding == subject {
        L2OfSelf(subject, sqrt);
      }
    }
  }

  lemma {:induction false} SumOfDistances(s: seq<real>)
    requires forall x | x in s :: x >= 0.0
    ensures Sum(s) >= 0.0
    ensures (forall x | x in s :: x == 0.0) ==> Sum(s) == 0.0
  {
    if s != [] {
      var before := s[..|s| - 1];
      forall x | x in before ensures x in s {
        var i :| 0 <= i < |before| && before[i] == x;
        assert s[i] == x;
      }
      assert s[|s| - 1] in s;
      SumOfDistances(before);
    }
  }

  /**
   * A subject enrolled under `name` (every entry for that name is the subject's own
   * embedding) is identified under L2: the chosen name is enrolled, with average
   * distance 0, never "Unknown" unless a person is enrolled under that very name.
   */
  lemma EnrolledSubjectIsIdentified(gallery: seq<FaceRecognitionResult>, subject: seq<real>, sqrt: real -> real,
                                    name: string, chosen: string)
    requires Comparable(gallery, subject) && IsSquareRoot(sqrt)
    requires name in Names(gallery)
    requires forall f | f in gallery && f.name == name :: f.embedding == subject
    requires IsBestName(L2, Averages(gallery, subject, sqrt), chosen)
    ensures chosen in Names(gallery) && Averages(gallery, subject, sqrt)[chosen] == 0.0
  {
    var averages := Averages(gallery, subject, sqrt);
    forall n | n in averages ensures averages[n] >= 0.0 {
      ScoresAreDistances(gallery, subject, sqrt, n);
      SumOfDistances(ScoresFor(gallery, subject, sqrt, n));
    }
    ScoresAreDistances(gallery, subject, sqrt, name);
    SumOfDistances(ScoresFor(gallery, subject, sqrt, name));
    assert averages[name] == 0.0;
  }

  /** The per-name score lists of the subject: what the score map holds once every entry is scored. */
  function ScoreMap(gallery: seq<FaceRecognitionResult>, subject: seq<real>, sqrt: real -> real): map<string, seq<real>>
    requires Comparable(gallery, subject)
  {
    map name | name in Names(gallery) :: ScoresFor(gallery, subject, sqrt, name)
  }

  /** Scoring one more gallery entry appends its score to its own name's list, and to no other. */
  lemma ScoreMapNextEntry(gallery: seq<FaceRecognitionResult>, i: nat, subject: seq<real>, sqrt: real -> real)
    requires i < |gallery| && Comparable(gallery, subject)
    ensures Comparable(gallery[..i], subject) && Comparable(gallery[..i + 1], subject)
    ensures var before := ScoreMap(gallery[..i], subject, sqrt);
      var score := L2Normalisation(subject, gallery[i].embedding, sqrt);
      ScoreMap(gallery[..i + 1], subject, sqrt)
        == before[gallery[i].name := (if gallery[i].name in before then before[gallery[i].name] else []) + [score]]
  {
    var prefix, next, face := gallery[..i], gallery[..i + 1], gallery[i];
    assert next == prefix + [face];
    assert next[..|next| - 1] == prefix && next[|next| - 1] == face;
    forall f | f in next ensures f in gallery {
    }
    var before := ScoreMap(prefix, subject, sqrt);
    var score := L2Normalisation(subject, face.embedding, sqrt);
    var expected := before[face.name := (if face.name in before then before[face.name] else []) + [score]];
    var after := ScoreMap(next, subject, sqrt);
    assert Names(next) == Names(prefix) + {face.name};
    assert after.Keys == expected.Keys;
    forall n | n in after ensures after[n] == expected[n] {
      assert after[n] == ScoresFor(prefix, subject, sqrt, n) + (if face.name == n then [score] else []);
      if n == face.name && n !in before {
        assert |ScoresFor(prefix, subject, sqrt, n)| == 0;
      }
    }
  }

  /**
   * The enrolled faces and the per-name score map of an analyzer. Between calls the
   * score map is empty, because every match clears it before returning.
   */
  class FaceMatcher {
    const faceRecognition: FaceRecognition
    var faceList: seq<FaceRecognitionResult>
    var nameScoreHashmap: map<string, seq<real>>

    ghost predicate Valid()
      reads this
    {
      && nameScoreHashmap == map[]
      && forall f | f in faceList :: |f.embedding| == faceRecognition.dimension
    }

    constructor (faceRecognition: FaceRecognition)
      ensures Valid() && this.faceRecognition == faceRecognition && faceList == []
    {
      this.faceRecognition := faceRecognition;
      faceList := [];
      nameScoreHashmap := map[];
    }

    /** `addImageToFaceList(bitmap, name)`: enrols one more face; the gallery only grows. */
    method AddImageToFaceList(bitmap: Bitmap, name: string)
      requires Valid() && FixedDimension(faceRecognition)
      modifies this
      ensures Valid()
      ensures faceList == old(faceList) + [FaceRecognitionResult(name, faceRecognition.embed(bitmap))]
    {
      faceList := faceList + [FaceRecognitionResult(name, faceRecognition.embed(bitmap))];
    }

    /** The scoring loop of `checkFaceSimilarity`: one L2 score per gallery entry, grouped by name. */
    method GroupScores(subject: seq<real>)
      requires nameScoreHashmap == map[] && Comparable(faceList, subject)
      modifies this
      ensures faceList == old(faceList)
      ensures nameScoreHashmap == ScoreMap(faceList, subject, faceRecognition.sqrt)
    {
      var sqrt := faceRecognition.sqrt;
      var i := 0;
      assert faceList[..0] == [];
      while i < |faceList|
        invariant 0 <= i <= |faceList|
        invariant faceList == old(faceList)
        invariant Comparable(faceList[..i], subject)
        invariant nameScoreHashmap == ScoreMap(faceList[..i], subject, sqrt)
      {
        var face := faceList[i];
        var score := L2Normalisation(subject, face.embedding, sqrt);
        ScoreMapNextEntry(faceList, i, subject, sqrt);
        if face.name !in nameScoreHashmap {
          assert [] + [score] == [score];
          nameScoreHashmap := nameScoreHashmap[face.name := [score]];
        } else {
          nameScoreHashmap := nameScoreHashmap[face.name := nameScoreHashmap[face.name] + [score]];
        }
        assert nameScoreHashmap == ScoreMap(faceList[..i + 1], subject, sqrt);
        i := i + 1;
      }
      assert faceList[..i] == faceList;
    }

    /**
     * `checkFaceSimilarity(embedding)` with the L2 metric the analyzers fix: the
     * scores are grouped per name and averaged, the map is cleared, and the best
     * name is chosen; an empty gallery throws.
     */
    method CheckFaceSimilarity(subject: seq<real>) returns (r: Result<string>)
      requires Valid() && |subject| == faceRecognition.dimension
      modifies this
      ensures Valid() && faceList == old(faceList)
      ensures Comparable(faceList, subject)
      ensures r.Failure? <==> faceList == []
      ensures r.Success? ==> IsBestName(L2, Averages(faceList, subject, faceRecognition.sqrt), r.value)
    {
      var sqrt := faceRecognition.sqrt;
      assert Comparable(faceList, subject);
      GroupScores(subject);
      var averages := map n | n in nameScoreHashmap :: Average(nameScoreHashmap[n]);
      assert averages.Keys == Names(faceList);
      assert averages == Averages(faceList, subject, sqrt);
      nameScoreHashmap := map[];
      r := SelectBestName(L2, averages);
      assert averages == map[] <==> faceList == [] by {
        if faceList != [] {
          assert faceList[0].name in Names(faceList);
        }
      }
    }
  }
}
