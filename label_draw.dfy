/**
 * The random label draw both emotion flows run at construction: a `while` loop that picks a
 * random label from a shrinking copy of the classifier's labels, adds it to an
 * insertion-ordered set unless it is excluded, and removes it from the copy.
 */
module LabelDraw {
  import opened Wrappers

  /**
   * `MutableList.remove(element)`: drops the first occurrence of `x`, if any, and keeps the
   * order of everything else.
   */
  function Remove<T(==)>(items: seq<T>, x: T): (r: seq<T>)
    ensures x in items ==> multiset(r) == multiset(items) - multiset{x}
    ensures x !in items ==> r == items
  {
    if |items| == 0 then []
    else if items[0] == x then (assert items == [x] + items[1..]; items[1..])
    else (assert items == [items[0]] + items[1..]; [items[0]] + Remove(items[1..], x))
  }

  /** Removing a drawn label takes it out of the drawable labels unless another copy is left. */
  lemma DrawableAfterRemove(items: seq<string>, x: string, excluded: set<string>)
    requires x in items
    ensures |Remove(items, x)| == |items| - 1
    ensures Drawable(items, excluded) <= Drawable(Remove(items, x), excluded) + {x}
    ensures Drawable(Remove(items, x), excluded) <= Drawable(items, excluded)
  {
    var rest := Remove(items, x);
    assert |rest| == |multiset(rest)| == |multiset(items)| - 1;
    forall y | y in items && y != x ensures y in rest {
      assert multiset(rest)[y] == multiset(items)[y];
    }
    forall y | y in rest ensures y in items {
      assert multiset(rest)[y] <= multiset(items)[y];
    }
  }

  /** The distinct labels a draw from `labels` can ever add to the set. */
  function Drawable(labels: seq<string>, excluded: set<string>): (s: set<string>)
    ensures forall l :: l in s <==> l in labels && l !in excluded
  {
    set l | l in labels && l !in excluded
  }

  predicate Distinct<T(==)>(s: seq<T>)
  {
    forall i, j :: 0 <= i < j < |s| ==> s[i] != s[j]
  }

  /**
   * Fills the set of labels to detect. `rnd(k)` is the `k`-th random index the draw uses
   * (`List.random()`); the loop runs until the set has exactly `wanted` elements, and
   * `random()` of an empty list is the failure. The draw succeeds exactly when `wanted` is
   * between 0 and the number of distinct drawable labels, whatever the random indices, and
   * then yields that many distinct drawable labels in insertion order.
   */
  method DrawLabels(labels: seq<string>, excluded: set<string>, wanted: int, rnd: nat -> nat)
    returns (r: Result<seq<string>>)
    ensures r.Success? <==> 0 <= wanted <= |Drawable(labels, excluded)|
    ensures r.Success? ==> |r.value| == wanted && Distinct(r.value)
    ensures r.Success? ==> forall i :: 0 <= i < |r.value| ==> r.value[i] in labels && r.value[i] !in excluded
  {
    var chosen: seq<string> := [];
    ghost var chosenSet: set<string> := {};
    var emotionLabels := labels;
    var draws: nat := 0;
    while |chosen| != wanted
      invariant forall e :: e in chosenSet <==> e in chosen
      invariant |chosenSet| == |chosen| && Distinct(chosen)
      invariant chosenSet <= Drawable(labels, excluded)
      invariant Drawable(labels, excluded) == chosenSet + Drawable(emotionLabels, excluded)
      invariant 0 <= wanted ==> |chosen| <= wanted
      decreases |emotionLabels|
    {
      if |emotionLabels| == 0 {
        return Failure("Collection is empty.");
      }
      var emotion := emotionLabels[rnd(draws) % |emotionLabels|];
      draws := draws + 1;
      if emotion !in excluded && emotion !in chosen {
        chosen := chosen + [emotion];
        chosenSet := chosenSet + {emotion};
      }
      DrawableAfterRemove(emotionLabels, emotion, excluded);
      emotionLabels := Remove(emotionLabels, emotion);
    }
    SubsetCardinality(chosenSet, Drawable(labels, excluded));
    return Success(chosen);
  }

  lemma SubsetCardinality<T>(a: set<T>, b: set<T>)
    requires a <= b
    ensures |a| <= |b|
  {
    assert b == a + (b - a);
  }
}
