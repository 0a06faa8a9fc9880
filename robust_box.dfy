/**
 * The outlier-robust per-cell bounding box of `BlockedGaussian.cell_divider`:
 * per axis `median +- n * MAD`, intersected with the extent of the cell's
 * members, emitted as eight corners.
 */
module RobustBox {
  import opened Reals

  /** A point position; coordinates are exact reals. */
  datatype Vec3 = Vec3(x: real, y: real, z: real)

  /** The default `n` of `cell_divider`: the box is `median +- 4 * MAD`. */
  const MadFactor: real := 4.0

  function Coord(p: Vec3, axis: nat): real
    requires axis < 3
  {
    if axis == 0 then p.x else if axis == 1 then p.y else p.z
  }

  /** Column `axis` of an N x 3 tensor of positions. */
  function AxisValues(pts: seq<Vec3>, axis: nat): seq<real>
    requires axis < 3
  {
    seq(|pts|, i requires 0 <= i < |pts| => Coord(pts[i], axis))
  }

  function Abs(v: real): real
  {
    if v < 0.0 then -v else v
  }

  function Insert(x: real, s: seq<real>): (r: seq<real>)
    requires Ascending(s)
    ensures Ascending(r)
    ensures |r| == |s| + 1
    ensures forall i :: 0 <= i < |r| ==> r[i] == x || r[i] in s
  {
    if |s| == 0 then [x]
    else if x <= s[0] then [x] + s
    else
      var rest := Insert(x, s[1..]);
      assert forall i :: 0 <= i < |rest| ==> s[0] <= rest[i];
      [s[0]] + rest
  }

  /** The values in ascending order. */
  function Sort(s: seq<real>): (r: seq<real>)
    ensures Ascending(r)
    ensures |r| == |s|
  {
    if |s| == 0 then [] else Insert(s[0], Sort(s[1..]))
  }

  lemma {:induction false} InsertPermutes(x: real, s: seq<real>)
    requires Ascending(s)
    ensures multiset(Insert(x, s)) == multiset(s) + multiset{x}
  {
    if |s| > 0 && x > s[0] {
      InsertPermutes(x, s[1..]);
      assert s == [s[0]] + s[1..];
    }
  }

  /** Sorting only reorders: the result is a permutation of the input. */
  lemma {:induction false} SortPermutes(s: seq<real>)
    ensures multiset(Sort(s)) == multiset(s)
  {
    if |s| > 0 {
      SortPermutes(s[1..]);
      InsertPermutes(s[0], Sort(s[1..]));
      assert s == [s[0]] + s[1..];
    }
  }

  /** `torch.median` of a non-empty column: the lower of the two middle values. */
  function Median(s: seq<real>): real
    requires |s| > 0
  {
    Sort(s)[(|s| - 1) / 2]
  }

  /** The median is one of the values, so it lies between their minimum and maximum. */
  lemma MedianWithin(s: seq<real>)
    requires |s| > 0
    ensures Median(s) in s
    ensures Min(s) <= Median(s) <= Max(s)
  {
    SortPermutes(s);
    assert Sort(s)[(|s| - 1) / 2] in multiset(s);
  }

  /** `torch.min` of a non-empty column. */
  function Min(s: seq<real>): real
    requires |s| > 0
  {
    Sort(s)[0]
  }

  /** `torch.max` of a non-empty column. */
  function Max(s: seq<real>): real
    requires |s| > 0
  {
    Sort(s)[|s| - 1]
  }

  /** The minimum and the maximum are values of the column and bound all of them. */
  lemma Extremes(s: seq<real>)
    requires |s| > 0
    ensures Min(s) in s && Max(s) in s
    ensures forall i :: 0 <= i < |s| ==> Min(s) <= s[i] <= Max(s)
  {
    SortPermutes(s);
    var sorted := Sort(s);
    assert sorted[0] in multiset(s) && sorted[|s| - 1] in multiset(s);
    forall i | 0 <= i < |s| ensures Min(s) <= s[i] <= Max(s) {
      assert s[i] in multiset(sorted);
      var j :| 0 <= j < |sorted| && sorted[j] == s[i];
    }
  }

  /** Absolute deviations of the values from a centre. */
  function AbsDev(s: seq<real>, centre: real): (r: seq<real>)
    ensures |r| == |s|
    ensures forall i :: 0 <= i < |r| ==> 0.0 <= r[i]
  {
    seq(|s|, i requires 0 <= i < |s| => Abs(s[i] - centre))
  }

  /** Median absolute deviation from the median. */
  function Mad(s: seq<real>): real
    requires |s| > 0
  {
    Median(AbsDev(s, Median(s)))
  }

  /** The MAD is never negative: it is one of the absolute deviations. */
  lemma MadNonNegative(s: seq<real>)
    requires |s| > 0
    ensures 0.0 <= Mad(s)
  {
    var dev := AbsDev(s, Median(s));
    MedianWithin(dev);
    var i :| 0 <= i < |dev| && dev[i] == Mad(s);
  }

  /** An axis interval `[lo, hi]` of a box. */
  datatype Interval = Interval(lo: real, hi: real)

  /** The robust interval on one axis: `median -+ n * MAD`, each end clamped to the members' extent. */
  function AxisBox(s: seq<real>): Interval
    requires |s| > 0
  {
    var median := Median(s);
    var mad := Mad(s);
    Interval(MaxOf(median - MadFactor * mad, Min(s)),
             MinOf(median + MadFactor * mad, Max(s)))
  }

  /** `min <= lo <= median <= hi <= max` for a non-empty column. */
  predicate WithinExtent(s: seq<real>, lo: real, hi: real)
    requires |s| > 0
  {
    Min(s) <= lo <= Median(s) <= hi <= Max(s)
  }

  /** `[lo, hi]` lies inside the candidate `median -+ n * MAD` of a non-empty column. */
  predicate WithinBand(s: seq<real>, lo: real, hi: real)
    requires |s| > 0
  {
    Median(s) - MadFactor * Mad(s) <= lo && hi <= Median(s) + MadFactor * Mad(s)
  }

  /**
   * The robust interval lies inside the members' extent, contains the
   * median, and lies inside the candidate `median +- n * MAD`.
   */
  lemma AxisBoxWithin(s: seq<real>)
    requires |s| > 0
    ensures WithinExtent(s, AxisBox(s).lo, AxisBox(s).hi)
    ensures WithinBand(s, AxisBox(s).lo, AxisBox(s).hi)
  {
    MedianWithin(s);
    MadNonNegative(s);
  }

  /** The two opposite corners `xyz_min`, `xyz_max` of a cell's box. */
  datatype Box = Box(lo: Vec3, hi: Vec3)

  /** The robust box of a cell's member positions, axis by axis. */
  function CellBox(pts: seq<Vec3>): Box
    requires |pts| > 0
  {
    var onX := AxisBox(AxisValues(pts, 0));
    var onY := AxisBox(AxisValues(pts, 1));
    var onZ := AxisBox(AxisValues(pts, 2));
    Box(Vec3(onX.lo, onY.lo, onZ.lo), Vec3(onX.hi, onY.hi, onZ.hi))
  }

  /**
   * On each axis the box of a non-empty cell sits inside the members'
   * extent, contains their median, and lies inside `median -+ n * MAD`.
   */
  lemma CellBoxWithin(pts: seq<Vec3>)
    requires |pts| > 0
    ensures WithinExtent(AxisValues(pts, 0), CellBox(pts).lo.x, CellBox(pts).hi.x)
    ensures WithinExtent(AxisValues(pts, 1), CellBox(pts).lo.y, CellBox(pts).hi.y)
    ensures WithinExtent(AxisValues(pts, 2), CellBox(pts).lo.z, CellBox(pts).hi.z)
    ensures WithinBand(AxisValues(pts, 0), CellBox(pts).lo.x, CellBox(pts).hi.x)
    ensures WithinBand(AxisValues(pts, 1), CellBox(pts).lo.y, CellBox(pts).hi.y)
    ensures WithinBand(AxisValues(pts, 2), CellBox(pts).lo.z, CellBox(pts).hi.z)
  {
    AxisBoxWithin(AxisValues(pts, 0));
    AxisBoxWithin(AxisValues(pts, 1));
    AxisBoxWithin(AxisValues(pts, 2));
  }

  /** Bit `b` of corner index `k`. */
  predicate Bit(k: nat, b: nat)
    requires b < 3
  {
    (if b == 0 then k else if b == 1 then k / 2 else k / 4) % 2 == 1
  }

  /** The eight corners of a box in the fixed order of `cell_divider`. */
  function Corners(b: Box): (r: seq<Vec3>)
    ensures |r| == 8
  {
    var lo, hi := b.lo, b.hi;
    [Vec3(lo.x, lo.y, lo.z), Vec3(lo.x, lo.y, hi.z), Vec3(lo.x, hi.y, lo.z), Vec3(lo.x, hi.y, hi.z),
     Vec3(hi.x, lo.y, lo.z), Vec3(hi.x, lo.y, hi.z), Vec3(hi.x, hi.y, lo.z), Vec3(hi.x, hi.y, hi.z)]
  }

  /**
   * Corner `k` takes the upper end on x iff bit 2 of `k` is set, on y iff
   * bit 1, and on z iff bit 0.
   */
  lemma CornerBits(b: Box, k: nat)
    requires k < 8
    ensures Corners(b)[k] == Vec3(if Bit(k, 2) then b.hi.x else b.lo.x,
                                  if Bit(k, 1) then b.hi.y else b.lo.y,
                                  if Bit(k, 0) then b.hi.z else b.lo.z)
  {
  }
}
