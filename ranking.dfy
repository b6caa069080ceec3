/**
 * The top-k ranking that every classifier revision applies to its labelled
 * probabilities: keep the labels with a probability, turn each into a result,
 * sort by descending confidence (stably) and take the first k.
 */
module Ranking {
  import opened Wrappers
  import opened Verification

  /** A `Map<String, Float?>` as its entries in iteration order. */
  type LabelProbabilities = seq<(string, Option<real>)>

  /** A map never holds the same key twice. */
  predicate DistinctKeys(labelProb: LabelProbabilities) {
    forall i, j :: 0 <= i < j < |labelProb| ==> labelProb[i].0 != labelProb[j].0
  }

  /** The result built for one label: `id` and `title` are the label, no location. */
  function Entry(name: string, confidence: real): (e: ClassifierResult)
    ensures e.id == name && e.title == name && e.confidence == confidence && e.location.None?
  {
    ClassifierResult(name, name, confidence, None)
  }

  /** How many labels carry a probability. */
  function ProbabilityCount(labelProb: LabelProbabilities): nat {
    if labelProb == [] then 0
    else (if labelProb[0].1.Some? then 1 else 0) + ProbabilityCount(labelProb[1..])
  }

  /** The `buildList` step: one result per label whose probability is not null, in map order. */
  function BuildList(labelProb: LabelProbabilities, toConfidence: real -> real): (r: seq<ClassifierResult>)
    ensures |r| == ProbabilityCount(labelProb)
    ensures forall i | 0 <= i < |labelProb| && labelProb[i].1.Some? ::
      Entry(labelProb[i].0, toConfidence(labelProb[i].1.value)) in r
    ensures forall e | e in r :: exists i | 0 <= i < |labelProb| ::
      labelProb[i].1.Some? && e == Entry(labelProb[i].0, toConfidence(labelProb[i].1.value))
  {
    if labelProb == [] then []
    else
      var rest := BuildList(labelProb[1..], toConfidence);
      assert forall i | 1 <= i < |labelProb| :: labelProb[i] == labelProb[1..][i - 1];
      match labelProb[0].1
      case None => rest
      case Some(p) => [Entry(labelProb[0].0, toConfidence(p))] + rest
  }

  /** A label whose probability is null is never among the built results. */
  lemma NullLabelsAreSkipped(labelProb: LabelProbabilities, toConfidence: real -> real, i: int)
    requires DistinctKeys(labelProb)
    requires 0 <= i < |labelProb| && labelProb[i].1.None?
    ensures forall e | e in BuildList(labelProb, toConfidence) :: e.id != labelProb[i].0
  {
  }

  /** Non-increasing confidence from front to back. */
  predicate SortedDescending(s: seq<ClassifierResult>) {
    forall i, j :: 0 <= i < j < |s| ==> s[i].confidence >= s[j].confidence
  }

  /**
   * Puts `x` into the sorted `s` in front of the first element whose confidence
   * does not exceed its own, so that it stays ahead of every equal that followed it.
   */
  function Insert(x: ClassifierResult, s: seq<ClassifierResult>): (r: seq<ClassifierResult>)
    ensures |r| == |s| + 1
    ensures multiset(r) == multiset{x} + multiset(s)
    ensures forall e | e in r :: e == x || e in s
    ensures SortedDescending(s) ==> SortedDescending(r)
  {
    if s == [] || x.confidence >= s[0].confidence then
      assert SortedDescending(s) ==> SortedDescending([x] + s) by {
        if SortedDescending(s) {
          PrependKeepsSorted(x, s);
        }
      }
      [x] + s
    else
      var rest := Insert(x, s[1..]);
      assert s == [s[0]] + s[1..];
      assert SortedDescending(s) ==> SortedDescending([s[0]] + rest) by {
        if SortedDescending(s) {
          assert SortedDescending(s[1..]);
          forall e | e in rest ensures e.confidence <= s[0].confidence {
            if e != x {
              var j :| 0 <= j < |s[1..]| && s[1..][j] == e;
              assert s[j + 1] == e;
            }
          }
          PrependKeepsSorted(s[0], rest);
        }
      }
      [s[0]] + rest
  }

  /** A head that is at least every later confidence extends a sorted list. */
  lemma PrependKeepsSorted(a: ClassifierResult, t: seq<ClassifierResult>)
    requires SortedDescending(t)
    requires forall e | e in t :: e.confidence <= a.confidence
    ensures SortedDescending([a] + t)
  {
    forall i, j | 0 <= i < j < |[a] + t| ensures ([a] + t)[i].confidence >= ([a] + t)[j].confidence {
      if i == 0 {
        assert ([a] + t)[j] == t[j - 1];
      }
    }
  }

  /** `sortedByDescending { it.confidence }`: a stable sort on confidence. */
  function SortByDescending(s: seq<ClassifierResult>): (r: seq<ClassifierResult>)
    ensures multiset(r) == multiset(s)
    ensures |r| == |s|
    ensures SortedDescending(r)
  {
    if s == [] then []
    else
      assert s == [s[0]] + s[1..];
      Insert(s[0], SortByDescending(s[1..]))
  }

  /** The results with exactly the confidence `c`, in order. */
  function WithConfidence(s: seq<ClassifierResult>, c: real): seq<ClassifierResult> {
    if s == [] then []
    else (if s[0].confidence == c then [s[0]] else []) + WithConfidence(s[1..], c)
  }

  lemma {:induction false} InsertKeepsEqualsInOrder(x: ClassifierResult, s: seq<ClassifierResult>, c: real)
    ensures WithConfidence(Insert(x, s), c) == WithConfidence([x] + s, c)
  {
    if s == [] || x.confidence >= s[0].confidence {
    } else {
      InsertKeepsEqualsInOrder(x, s[1..], c);
      assert ([s[0]] + Insert(x, s[1..]))[1..] == Insert(x, s[1..]);
      assert ([x] + s)[1..] == s;
      assert ([x] + s[1..])[1..] == s[1..];
    }
  }

  /** The sort is stable: results of equal confidence keep their map order. */
  lemma {:induction false} SortIsStable(s: seq<ClassifierResult>, c: real)
    ensures WithConfidence(SortByDescending(s), c) == WithConfidence(s, c)
  {
    if s != [] {
      SortIsStable(s[1..], c);
      InsertKeepsEqualsInOrder(s[0], SortByDescending(s[1..]), c);
      assert ([s[0]] + SortByDescending(s[1..]))[1..] == SortByDescending(s[1..]);
    }
  }

  /** `list.size.coerceAtMost(k)`. */
  function CoerceAtMost(n: int, k: int): (m: int)
    ensures m <= n && m <= k && (m == n || m == k)
  {
    if n <= k then n else k
  }

  /**
   * `getTopProbability(labelProb, k)`: the first `min(count, k)` results of the
   * sorted list; `take` of a negative count throws, which is the failure.
   */
  function TopProbability(labelProb: LabelProbabilities, k: int, toConfidence: real -> real)
    : (r: Result<seq<ClassifierResult>>)
    ensures r.Failure? <==> k < 0
    ensures r.Success? ==>
      && |r.value| == CoerceAtMost(ProbabilityCount(labelProb), k)
      && SortedDescending(r.value)
      && multiset(r.value) <= multiset(BuildList(labelProb, toConfidence))
  {
    var list := SortByDescending(BuildList(labelProb, toConfidence));
    var size := CoerceAtMost(|list|, k);
    if size < 0 then
      Failure("Requested element count is less than zero.")
    else
      SortedPrefix(list, size);
      Success(list[..size])
  }

  /** A prefix of a sorted list is sorted and holds some of its elements. */
  lemma SortedPrefix(list: seq<ClassifierResult>, size: nat)
    requires SortedDescending(list) && size <= |list|
    ensures SortedDescending(list[..size])
    ensures multiset(list[..size]) <= multiset(list)
  {
    assert list == list[..size] + list[size..];
    assert multiset(list) == multiset(list[..size]) + multiset(list[size..]);
  }

  /**
   * Nothing left out outranks what was kept: the built results split into the
   * returned ones and the omitted ones, and no omitted confidence is higher
   * than a returned one.
   */
  lemma TopProbabilityKeepsTheBest(labelProb: LabelProbabilities, k: int, toConfidence: real -> real)
    requires 0 <= k
    ensures var top := TopProbability(labelProb, k, toConfidence).value;
      var omitted := SortByDescending(BuildList(labelProb, toConfidence))[|top|..];
      && multiset(top) + multiset(omitted) == multiset(BuildList(labelProb, toConfidence))
      && forall a, b | a in top && b in omitted :: b.confidence <= a.confidence
  {
    var list := SortByDescending(BuildList(labelProb, toConfidence));
    var top := TopProbability(labelProb, k, toConfidence).value;
    assert top == list[..|top|];
    assert list == top + list[|top|..];
    forall a, b | a in top && b in list[|top|..] ensures b.confidence <= a.confidence {
      var i :| 0 <= i < |top| && top[i] == a;
      var j :| 0 <= j < |list[|top|..]| && list[|top|..][j] == b;
      assert list[i] == a && list[|top| + j] == b;
    }
  }

  /** Among results of equal confidence, the returned ones are the earliest in map order. */
  lemma TopProbabilityIsStable(labelProb: LabelProbabilities, k: int, toConfidence: real -> real, c: real)
    requires 0 <= k
    ensures var top := TopProbability(labelProb, k, toConfidence).value;
      WithConfidence(top, c) <= WithConfidence(BuildList(labelProb, toConfidence), c)
  {
    var list := SortByDescending(BuildList(labelProb, toConfidence));
    var top := TopProbability(labelProb, k, toConfidence).value;
    assert list == top + list[|top|..];
    WithConfidenceOfConcat(top, list[|top|..], c);
    SortIsStable(BuildList(labelProb, toConfidence), c);
  }

  lemma {:induction false} WithConfidenceOfConcat(s: seq<ClassifierResult>, t: seq<ClassifierResult>, c: real)
    ensures WithConfidence(s + t, c) == WithConfidence(s, c) + WithConfidence(t, c)
  {
    if s != [] {
      WithConfidenceOfConcat(s[1..], t, c);
      assert (s + t)[0] == s[0];
      assert (s + t)[1..] == s[1..] + t;
      calc {
        WithConfidence(s + t, c);
        (if s[0].confidence == c then [s[0]] else []) + WithConfidence(s[1..] + t, c);
        (if s[0].confidence == c then [s[0]] else []) + (WithConfidence(s[1..], c) + WithConfidence(t, c));
      }
    } else {
      assert s + t == t;
    }
  }
}
