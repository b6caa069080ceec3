/** `utils/ConvenienceFunctions.kt`: the pair generator, the pop helper and the empty text. */
module ConvenienceFunctions {
  import opened Wrappers

  /** `emptyString()`. */
  function EmptyString(): (s: string)
    ensures |s| == 0
  {
    ""
  }

  // ---------------------------------------------------------------------------
  // elementPairs: `for (i in 0..<size - 1) for (j in i + 1..<size) yield(arr[i] to arr[j])`
  // ---------------------------------------------------------------------------

  /** What the inner loop yields for one outer index `i`. */
  function Row<T>(arr: seq<T>, i: nat): (row: seq<(T, T)>)
    requires i < |arr|
  {
    seq(|arr| - 1 - i, k requires 0 <= k < |arr| - 1 - i => (arr[i], arr[i + 1 + k]))
  }

  /** What the generator yields from outer index `i` onwards. */
  function RowsFrom<T>(arr: seq<T>, i: nat): seq<(T, T)>
    decreases |arr| - i
  {
    if i + 1 >= |arr| then [] else Row(arr, i) + RowsFrom(arr, i + 1)
  }

  /** `elementPairs(arr)`, as the finite sequence the lazy generator yields. */
  function ElementPairs<T>(arr: seq<T>): seq<(T, T)>
  {
    RowsFrom(arr, 0)
  }

  /** Number of pairs yielded by the outer indices before `i`: rows of length n-1, n-2, ... */
  function RowStart(n: nat, i: nat): nat
    requires i <= n
  {
    if i == 0 then 0 else RowStart(n, i - 1) + (n - i)
  }

  /** Position of the pair (i, j) in lexicographic order among all pairs i < j < n. */
  function PairPosition(n: nat, i: nat, j: nat): nat
    requires i < j < n
  {
    RowStart(n, i) + (j - i - 1)
  }

  /** Closed form of the row offsets: 2 * RowStart(n, i) == i * (2n - i - 1). */
  lemma {:induction false} RowStartClosedForm(n: nat, i: nat)
    requires i <= n
    ensures 2 * RowStart(n, i) == i * (2 * n - i - 1)
  {
    if i > 0 {
      RowStartClosedForm(n, i - 1);
      calc {
        2 * RowStart(n, i);
        2 * RowStart(n, i - 1) + 2 * (n - i);
        (i - 1) * (2 * n - i) + 2 * (n - i);
        i * (2 * n - i - 1);
      }
    }
  }

  lemma {:induction false} RowStartMonotone(n: nat, i: nat, i2: nat)
    requires i <= i2 <= n
    ensures RowStart(n, i) <= RowStart(n, i2)
    ensures i < i2 ==> RowStart(n, i) + (n - 1 - i) <= RowStart(n, i2)
    decreases i2 - i
  {
    if i < i2 {
      RowStartMonotone(n, i, i2 - 1);
    }
  }

  lemma {:induction false} RowsFromLength<T>(arr: seq<T>, i: nat)
    requires i <= |arr|
    ensures 2 * |RowsFrom(arr, i)| == (|arr| - i) * (|arr| - i - 1)
    decreases |arr| - i
  {
    if i + 1 < |arr| {
      RowsFromLength(arr, i + 1);
      var m := |arr| - i;
      var rest := |RowsFrom(arr, i + 1)|;
      assert |RowsFrom(arr, i)| == (m - 1) + rest;
      assert 2 * rest == (m - 1) * (m - 2);
      assert 2 * (m - 1) + (m - 1) * (m - 2) == m * (m - 1);
    }
  }

  /** A list of n elements yields n(n-1)/2 pairs; fewer than two elements yield none. */
  lemma ElementPairsLength<T>(arr: seq<T>)
    ensures 2 * |ElementPairs(arr)| == |arr| * (|arr| - 1)
    ensures |arr| < 2 <==> ElementPairs(arr) == []
  {
    RowsFromLength(arr, 0);
  }

  lemma {:induction false} RowsFromAt<T>(arr: seq<T>, s: nat, i: nat, j: nat)
    requires s <= i < j < |arr|
    ensures RowStart(|arr|, s) <= RowStart(|arr|, i)
    ensures RowStart(|arr|, i) - RowStart(|arr|, s) + (j - i - 1) < |RowsFrom(arr, s)|
    ensures RowsFrom(arr, s)[RowStart(|arr|, i) - RowStart(|arr|, s) + (j - i - 1)] == (arr[i], arr[j])
    decreases i - s
  {
    RowStartMonotone(|arr|, s, i);
    if s < i {
      RowsFromAt(arr, s + 1, i, j);
      assert RowStart(|arr|, s + 1) == RowStart(|arr|, s) + (|arr| - 1 - s);
    }
  }

  /** The pair (arr[i], arr[j]) for i < j sits at its lexicographic position. */
  lemma ElementPairsAt<T>(arr: seq<T>, i: nat, j: nat)
    requires i < j < |arr|
    ensures PairPosition(|arr|, i, j) < |ElementPairs(arr)|
    ensures ElementPairs(arr)[PairPosition(|arr|, i, j)] == (arr[i], arr[j])
  {
    RowsFromAt(arr, 0, i, j);
  }

  lemma {:induction false} RowsFromPosition<T>(arr: seq<T>, s: nat, k: nat) returns (i: nat, j: nat)
    requires s <= |arr| && k < |RowsFrom(arr, s)|
    ensures s <= i < j < |arr|
    ensures k == RowStart(|arr|, i) - RowStart(|arr|, s) + (j - i - 1)
    ensures RowsFrom(arr, s)[k] == (arr[i], arr[j])
    decreases |arr| - s
  {
    assert s + 1 < |arr|;
    if k < |arr| - 1 - s {
      i, j := s, s + 1 + k;
    } else {
      i, j := RowsFromPosition(arr, s + 1, k - (|arr| - 1 - s));
      RowStartMonotone(|arr|, s + 1, i);
    }
  }

  /** Every yielded pair is (arr[i], arr[j]) for the index pair i < j whose position it holds. */
  lemma PairAtPosition<T>(arr: seq<T>, k: nat) returns (i: nat, j: nat)
    requires k < |ElementPairs(arr)|
    ensures i < j < |arr| && k == PairPosition(|arr|, i, j)
    ensures ElementPairs(arr)[k] == (arr[i], arr[j])
  {
    i, j := RowsFromPosition(arr, 0, k);
  }

  /**
   * Positions follow lexicographic order of index pairs, so each pair i < j is yielded
   * exactly once and in the order of the two nested loops.
   */
  lemma PairPositionOrdered(n: nat, i: nat, j: nat, i2: nat, j2: nat)
    requires i < j < n && i2 < j2 < n
    ensures PairPosition(n, i, j) < PairPosition(n, i2, j2) <==> (i < i2 || (i == i2 && j < j2))
    ensures PairPosition(n, i, j) == PairPosition(n, i2, j2) <==> (i == i2 && j == j2)
  {
    if i < i2 {
      RowStartMonotone(n, i, i2);
    } else if i2 < i {
      RowStartMonotone(n, i2, i);
    }
  }

  /** `predicate` holds of every yielded pair exactly when it holds of every (arr[i], arr[j]), i < j. */
  lemma AllElementPairs<T>(arr: seq<T>, P: (T, T) -> bool)
    ensures (forall k :: 0 <= k < |ElementPairs(arr)| ==> P(ElementPairs(arr)[k].0, ElementPairs(arr)[k].1))
        <==> (forall i, j :: 0 <= i < j < |arr| ==> P(arr[i], arr[j]))
  {
    if forall k :: 0 <= k < |ElementPairs(arr)| ==> P(ElementPairs(arr)[k].0, ElementPairs(arr)[k].1) {
      forall i, j | 0 <= i < j < |arr| ensures P(arr[i], arr[j]) {
        ElementPairsAt(arr, i, j);
      }
    }
    if forall i, j :: 0 <= i < j < |arr| ==> P(arr[i], arr[j]) {
      forall k | 0 <= k < |ElementPairs(arr)| ensures P(ElementPairs(arr)[k].0, ElementPairs(arr)[k].1) {
        var i, j := PairAtPosition(arr, k);
      }
    }
  }

  // ---------------------------------------------------------------------------
  // popOrNull: take the iterator's first element and remove it through the iterator
  // ---------------------------------------------------------------------------

  /**
   * `collection.popOrNull()` on a collection whose iteration order is `items`: the popped
   * element (null when empty) and the collection left behind.
   */
  function PopOrNull<T>(items: seq<T>): (r: (Option<T>, seq<T>))
    ensures r.0.None? <==> |items| == 0
    ensures r.0.None? ==> r.1 == items
    ensures r.0.Some? ==> [r.0.value] + r.1 == items
  {
    if |items| > 0 then (Some(items[0]), items[1..]) else (None, items)
  }

  /** Popping removes exactly the returned element and keeps every other element. */
  lemma PopOrNullRemovesOne<T>(items: seq<T>)
    ensures var (e, rest) := PopOrNull(items);
      multiset(rest) + (if e.Some? then multiset{e.value} else multiset{}) == multiset(items)
  {
    var (e, rest) := PopOrNull(items);
    if e.Some? {
      assert items == [e.value] + rest;
    }
  }
}
