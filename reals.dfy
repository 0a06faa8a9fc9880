/**
 * Order on reals shared by the box code, the level thresholds and the
 * timing loop: Python's two-argument `max` and `min`, and ascending order.
 */
module Reals {

  /** `max(a, b)`: the first argument on a tie. */
  function MaxOf(a: real, b: real): real
  {
    if a < b then b else a
  }

  /** `min(a, b)`: the first argument on a tie. */
  function MinOf(a: real, b: real): real
  {
    if a < b then a else b
  }

  predicate Ascending(s: seq<real>)
  {
    forall i, j :: 0 <= i < j < |s| ==> s[i] <= s[j]
  }
}
