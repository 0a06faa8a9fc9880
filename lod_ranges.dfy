/**
 * Distance ranges of the level-of-detail levels (`render_sets` of
 * render_video_lodv2.py): the thresholds `t` between `k + 1` levels are
 * framed as `[0] + t + [1e6]`, and level `i` covers `[T[i], T[i+1])`.
 */
module LodRanges {
  import opened Wrappers
  import opened Reals

  /** The bound appended after the last threshold (`1e6`). */
  const FarLimit: real := 1000000.0

  /** A half-open distance band `[near, far)` (`BlockedGaussian.range`). */
  datatype Range = Range(near: real, far: real) {
    predicate Contains(d: real)
    {
      near <= d < far
    }
  }

  /** `(distances >= range[0]) & (distances < range[1])` */
  function InRangeMask(r: Range, d: seq<real>): (m: seq<bool>)
    ensures |m| == |d|
  {
    seq(|d|, j requires 0 <= j < |d| => r.Contains(d[j]))
  }

  /**
   * `assert len(lod_configs) - 1 == len(dist_threshold)` followed by
   * `[0] + dist_threshold + [1e6]`.
   */
  function Thresholds(numLevels: nat, t: seq<real>): (r: Result<seq<real>>)
    ensures r.Ok? <==> numLevels == |t| + 1
    ensures r.Ok? ==> |r.value| == numLevels + 1
    ensures r.Ok? ==> r.value[0] == 0.0 && r.value[numLevels] == FarLimit
    ensures r.Ok? ==> forall i :: 1 <= i <= |t| ==> r.value[i] == t[i - 1]
  {
    if numLevels - 1 == |t| then Ok([0.0] + t + [FarLimit])
    else Err("AssertionError: len(lod_configs) - 1 != len(dist_threshold)")
  }

  /**
   * The range handed to the `BlockedGaussian` of each level. Level 0 starts
   * at 0, the last level ends at 1e6, and every other bound is a threshold.
   */
  function LevelRanges(numLevels: nat, t: seq<real>): (r: Result<seq<Range>>)
    ensures r.Ok? <==> numLevels == |t| + 1
    ensures r.Ok? ==> |r.value| == numLevels
    ensures r.Ok? ==> forall i :: 0 <= i < numLevels ==>
      r.value[i].near == (if i == 0 then 0.0 else t[i - 1]) &&
      r.value[i].far == (if i == numLevels - 1 then FarLimit else t[i])
  {
    match Thresholds(numLevels, t)
    case Err(e) => Err(e)
    case Ok(bounds) =>
      var rs := seq(numLevels, i requires 0 <= i < numLevels => Range(bounds[i], bounds[i + 1]));
      assert forall i :: 0 <= i < numLevels ==> rs[i].near == bounds[i] && rs[i].far == bounds[i + 1];
      Ok(rs)
  }

  /** Consecutive levels share their common bound: no gap and no overlap between them. */
  lemma LevelsContiguous(numLevels: nat, t: seq<real>, i: nat)
    requires LevelRanges(numLevels, t).Ok?
    requires i + 1 < numLevels
    ensures LevelRanges(numLevels, t).value[i].far == LevelRanges(numLevels, t).value[i + 1].near
  {
  }

  /** With ascending thresholds no distance lies in two levels' ranges. */
  lemma AtMostOneLevel(numLevels: nat, t: seq<real>, d: real, i: nat, j: nat)
    requires LevelRanges(numLevels, t).Ok? && Ascending(t)
    requires i < numLevels && j < numLevels && i != j
    ensures !(LevelRanges(numLevels, t).value[i].Contains(d) && LevelRanges(numLevels, t).value[j].Contains(d))
  {
    var rs := LevelRanges(numLevels, t).value;
    var (a, b) := if i < j then (i, j) else (j, i);
    assert rs[a].far == t[a] && rs[b].near == t[b - 1];
    assert t[a] <= t[b - 1];
  }

  /** Index of the level whose band holds `d`: the number of thresholds not above `d`. */
  lemma {:induction false} LevelExists(t: seq<real>, d: real) returns (i: nat)
    requires Ascending(t) && 0.0 <= d < FarLimit
    ensures i <= |t|
    ensures (if i == 0 then 0.0 else t[i - 1]) <= d < (if i == |t| then FarLimit else t[i])
  {
    if |t| == 0 {
      i := 0;
    } else if t[|t| - 1] <= d {
      i := |t|;
    } else {
      var init := t[..|t| - 1];
      assert Ascending(init);
      i := LevelExists(init, d);
      if i == |init| {
        assert d < t[|t| - 1];
      }
    }
  }

  /** Every distance in `[0, 1e6)` lies in exactly one level's range. */
  lemma ExactlyOneLevel(numLevels: nat, t: seq<real>, d: real)
    requires LevelRanges(numLevels, t).Ok? && Ascending(t)
    requires 0.0 <= d < FarLimit
    ensures exists i :: 0 <= i < numLevels && LevelRanges(numLevels, t).value[i].Contains(d)
    ensures forall i, j :: 0 <= i < numLevels && 0 <= j < numLevels && i != j ==>
      !(LevelRanges(numLevels, t).value[i].Contains(d) && LevelRanges(numLevels, t).value[j].Contains(d))
  {
    var rs := LevelRanges(numLevels, t).value;
    var i := LevelExists(t, d);
    assert rs[i].Contains(d);
    forall i: nat, j: nat | i < numLevels && j < numLevels && i != j
      ensures !(rs[i].Contains(d) && rs[j].Contains(d))
    {
      AtMostOneLevel(numLevels, t, d, i, j);
    }
  }
}
