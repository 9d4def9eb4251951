/**
 * The bounded retry loop both ADC drivers of src/weight run: a reading of -1 is skipped, at
 * most MAX_SKIPS times in a row. `value(k)` is the reading the k-th attempt of one measurement
 * would produce.
 */
module Retry {

  const MAX_SKIPS: nat := 3

  /** The number of attempts skipped when `skipped` have been skipped already. */
  function Skips(value: nat -> int, skipped: nat): nat
    requires skipped <= MAX_SKIPS
    decreases MAX_SKIPS - skipped
  {
    if value(skipped) == -1 && skipped < MAX_SKIPS then Skips(value, skipped + 1) else skipped
  }

  /**
   * A measurement returns the first attempt that is not -1 among the first MAX_SKIPS + 1, or
   * the last of them, which is then -1 as well: every skipped attempt read -1, and the
   * returned one is not -1 unless MAX_SKIPS were skipped.
   */
  lemma {:induction false} SkipsSpec(value: nat -> int, skipped: nat)
    requires skipped <= MAX_SKIPS
    ensures skipped <= Skips(value, skipped) <= MAX_SKIPS
    ensures forall k :: skipped <= k < Skips(value, skipped) ==> value(k) == -1
    ensures Skips(value, skipped) < MAX_SKIPS ==> value(Skips(value, skipped)) != -1
    decreases MAX_SKIPS - skipped
  {
    if value(skipped) == -1 && skipped < MAX_SKIPS {
      SkipsSpec(value, skipped + 1);
    }
  }

  /** A measurement that skipped `n` attempts, all -1, and then stopped returns attempt `n`. */
  lemma {:induction false} SkipsStops(value: nat -> int, n: nat, skipped: nat)
    requires skipped <= n <= MAX_SKIPS
    requires forall k :: skipped <= k < n ==> value(k) == -1
    requires value(n) != -1 || n == MAX_SKIPS
    ensures Skips(value, skipped) == n
    decreases n - skipped
  {
    if skipped < n {
      SkipsStops(value, n, skipped + 1);
    }
  }
}
