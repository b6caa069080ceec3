/** Kotlin's numeric helpers as the model uses them, over exact reals. */
module Numbers {
  /** `Float.roundToInt()`: the nearest integer, halves rounded up. */
  function RoundToInt(x: real): (n: int)
    ensures n as real <= x + 0.5 < n as real + 1.0
  {
    (x + 0.5).Floor
  }

  /** Rounding never reverses an order. */
  lemma RoundToIntMonotone(x: real, y: real)
    requires x <= y
    ensures RoundToInt(x) <= RoundToInt(y)
  {
  }

  /** `(value * 10000).roundToInt() / 100f`: a probability as a percentage with two decimals. */
  function Percentage(value: real): (percent: real)
    ensures 100.0 * value - 0.005 < percent <= 100.0 * value + 0.005
  {
    RoundToInt(value * 10000.0) as real / 100.0
  }

  /** Converting to percentages never reverses an order of probabilities. */
  lemma PercentageMonotone(value: real, other: real)
    requires value <= other
    ensures Percentage(value) <= Percentage(other)
  {
    RoundToIntMonotone(value * 10000.0, other * 10000.0);
  }
}
