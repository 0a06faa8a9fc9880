/**
 * `BlockedGaussian` of render_video_lodv2.py: one level-of-detail variant
 * of the scene, its points partitioned into a grid of cells with a robust
 * box per cell, and the coarse (per-cell) and fine (per-point) distance
 * filters that pick the points this level contributes to a frame.
 */
module LodBlocks {
  import opened Wrappers
  import opened Masks
  import opened Reals
  import opened RobustBox
  import opened LodRanges

  /**
   * `block_filtering(cell_idx, xyz, aabb, block_dim, scale)`, an external
   * routine: with the grid, box and scale of the object fixed it says, for a
   * cell index and a point index, whether the point belongs to the cell.
   */
  type BlockFilter = (nat, nat) -> bool

  /** The grid dimensions `block_dim`. */
  datatype BlockDim = BlockDim(nx: nat, ny: nat, nz: nat)

  /** `num_cell = block_dim[0] * block_dim[1] * block_dim[2]` */
  function NumCells(d: BlockDim): nat
  {
    d.nx * d.ny * d.nz
  }

  /**
   * The id point `p` holds after cells `0 .. k-1` have, in ascending order,
   * overwritten the ids of their members (ids start at 0).
   */
  function AssignedCell(inCell: BlockFilter, k: nat, p: nat): (c: nat)
    ensures k > 0 ==> c < k
  {
    if k == 0 then 0
    else if inCell(k - 1, p) then k - 1
    else AssignedCell(inCell, k - 1, p)
  }

  /**
   * The id a point is left with is the largest cell whose mask contains it,
   * or 0 when no cell's mask does.
   */
  lemma {:induction false} AssignedCellIsLast(inCell: BlockFilter, k: nat, p: nat)
    ensures (exists c :: 0 <= c < k && inCell(c, p)) ==>
      inCell(AssignedCell(inCell, k, p), p) &&
      forall c :: AssignedCell(inCell, k, p) < c < k ==> !inCell(c, p)
    ensures (forall c :: 0 <= c < k ==> !inCell(c, p)) ==> AssignedCell(inCell, k, p) == 0
  {
    if k > 0 && !inCell(k - 1, p) {
      AssignedCellIsLast(inCell, k - 1, p);
    }
  }

  /** `cell_mask` of one cell over `n` points. */
  function CellMask(inCell: BlockFilter, c: nat, n: nat): (m: seq<bool>)
    ensures |m| == n
  {
    seq(n, p requires 0 <= p < n => inCell(c, p))
  }

  /** `self.xyz[cell_mask]`: the positions of a cell's members, in point order. */
  function CellMembers(xyz: seq<Vec3>, inCell: BlockFilter, c: nat): seq<Vec3>
  {
    Select(xyz, CellMask(inCell, c, |xyz|))
  }

  /** What `torch.median` over each cell's members needs: no cell is empty. */
  predicate NonEmptyCells(xyz: seq<Vec3>, inCell: BlockFilter, numCell: nat)
  {
    forall c :: 0 <= c < numCell ==> Count(CellMask(inCell, c, |xyz|)) > 0
  }

  /** A cell is non-empty exactly when some point satisfies its membership predicate. */
  lemma NonEmptyCell(xyz: seq<Vec3>, inCell: BlockFilter, c: nat)
    ensures |CellMembers(xyz, inCell, c)| > 0 <==> exists p :: 0 <= p < |xyz| && inCell(c, p)
  {
    var m := CellMask(inCell, c, |xyz|);
    CountZero(m);
    if exists p :: 0 <= p < |xyz| && inCell(c, p) {
      var p :| 0 <= p < |xyz| && inCell(c, p);
      assert m[p];
    }
  }

  /** The eight corners of a non-empty cell's robust box. */
  function CellCorners(xyz: seq<Vec3>, inCell: BlockFilter, c: nat): seq<Vec3>
    requires Count(CellMask(inCell, c, |xyz|)) > 0
  {
    Corners(CellBox(CellMembers(xyz, inCell, c)))
  }

  /**
   * The corners of cells `0 .. k-1`, as `cell_divider` appends them;
   * `torch.stack` makes it a `k x 8 x 3` tensor.
   */
  function CornerList(xyz: seq<Vec3>, inCell: BlockFilter, k: nat): (r: seq<seq<Vec3>>)
    requires NonEmptyCells(xyz, inCell, k)
    ensures |r| == k
    ensures forall c :: 0 <= c < k ==> |r[c]| == 8
  {
    seq(k, c requires 0 <= c < k && NonEmptyCells(xyz, inCell, k) => CellCorners(xyz, inCell, c))
  }

  /** `torch.isin(self.cell_ids, chosen)` */
  function CoarseMask(ids: seq<int>, chosen: seq<int>): (m: seq<bool>)
    ensures |m| == |ids|
  {
    seq(|ids|, p requires 0 <= p < |ids| => ids[p] in chosen)
  }

  /** The mask of `get_feats`: points whose cell is among the cells with an in-range distance. */
  function CoarseSelection(ids: seq<int>, r: Range, indices: seq<int>, distances: seq<real>): (m: seq<bool>)
    requires |indices| == |distances|
    ensures |m| == |ids|
  {
    CoarseMask(ids, Select(indices, InRangeMask(r, distances)))
  }

  /**
   * A point is kept by the coarse filter exactly when its cell id is listed
   * with a distance in the level's range.
   */
  lemma CoarseSelectionSpec(ids: seq<int>, r: Range, indices: seq<int>, distances: seq<real>, p: nat)
    requires |indices| == |distances| && p < |ids|
    ensures |CoarseSelection(ids, r, indices, distances)| == |ids|
    ensures CoarseSelection(ids, r, indices, distances)[p] <==>
      exists j :: 0 <= j < |indices| && r.Contains(distances[j]) && indices[j] == ids[p]
  {
    var blockMask := InRangeMask(r, distances);
    SelectMember(indices, blockMask, ids[p]);
    assert forall j :: 0 <= j < |indices| ==> blockMask[j] == r.Contains(distances[j]);
  }

  /** With no cell distance in range the coarse filter keeps nothing. */
  lemma CoarseSelectionEmpty<T>(s: seq<T>, ids: seq<int>, r: Range, indices: seq<int>, distances: seq<real>)
    requires |indices| == |distances| && |s| == |ids|
    requires forall j :: 0 <= j < |distances| ==> !r.Contains(distances[j])
    ensures Select(s, CoarseSelection(ids, r, indices, distances)) == []
  {
    var blockMask := InRangeMask(r, distances);
    SelectNone(indices, blockMask);
    SelectNone(s, CoarseSelection(ids, r, indices, distances));
  }

  /** Camera-space depth below which points are clipped (`xyz_cam[..., 2] > 0.2`). */
  const NearClip: real := 0.2

  /**
   * A rendering camera, reduced to what the fine filter reads of it: the
   * camera-space depth of a world point (third coordinate of
   * `homo_xyz @ world_view_transform`) and its distance from `camera_center`.
   */
  datatype ViewPoint = ViewPoint(depth: Vec3 -> real, distance: Vec3 -> real)

  /** `xyz_cam[..., 2] > 0.2` */
  function NearMask(xyz: seq<Vec3>, cam: ViewPoint): (m: seq<bool>)
    ensures |m| == |xyz|
  {
    seq(|xyz|, p requires 0 <= p < |xyz| => cam.depth(xyz[p]) > NearClip)
  }

  /** The mask `get_feats_ptwise` leaves behind: in front of the near plane and in range. */
  function FineMask(xyz: seq<Vec3>, cam: ViewPoint, r: Range): (m: seq<bool>)
    ensures |m| == |xyz|
  {
    seq(|xyz|, p requires 0 <= p < |xyz| => cam.depth(xyz[p]) > NearClip && r.Contains(cam.distance(xyz[p])))
  }

  /**
   * The fine filter keeps, in their original order, exactly the points in
   * front of the near plane whose distance lies in the level's range.
   */
  lemma FineSelectionSpec<T>(s: seq<T>, xyz: seq<Vec3>, cam: ViewPoint, r: Range)
    requires |s| == |xyz|
    ensures forall j, k :: 0 <= j < k < |TrueIndices(FineMask(xyz, cam, r))| ==>
      TrueIndices(FineMask(xyz, cam, r))[j] < TrueIndices(FineMask(xyz, cam, r))[k]
    ensures forall p: int :: p in TrueIndices(FineMask(xyz, cam, r)) <==>
      0 <= p < |xyz| && cam.depth(xyz[p]) > NearClip && r.Contains(cam.distance(xyz[p]))
    ensures |Select(s, FineMask(xyz, cam, r))| == |TrueIndices(FineMask(xyz, cam, r))|
    ensures forall j :: 0 <= j < |Select(s, FineMask(xyz, cam, r))| ==>
      Select(s, FineMask(xyz, cam, r))[j] == s[TrueIndices(FineMask(xyz, cam, r))[j]]
  {
    TrueIndicesSpec(FineMask(xyz, cam, r));
  }

  /** A camera that clips every point yields empty outputs, not an error. */
  lemma FineSelectionAllClipped<T>(s: seq<T>, xyz: seq<Vec3>, cam: ViewPoint, r: Range)
    requires |s| == |xyz|
    requires forall p :: 0 <= p < |xyz| ==> cam.depth(xyz[p]) <= NearClip
    ensures Select(s, FineMask(xyz, cam, r)) == []
  {
    SelectNone(s, FineMask(xyz, cam, r));
  }

  /**
   * Levels built over the same points with the synthesized ranges never both
   * keep a point, and a point in front of the near plane at a distance in
   * `[0, 1e6)` is kept by exactly one level.
   */
  lemma FineMasksPartition(xyz: seq<Vec3>, cam: ViewPoint, numLevels: nat, t: seq<real>, p: nat)
    requires LevelRanges(numLevels, t).Ok? && Ascending(t)
    requires p < |xyz|
    ensures forall i, j :: 0 <= i < numLevels && 0 <= j < numLevels && i != j ==>
      !(FineMask(xyz, cam, LevelRanges(numLevels, t).value[i])[p] &&
        FineMask(xyz, cam, LevelRanges(numLevels, t).value[j])[p])
    ensures cam.depth(xyz[p]) > NearClip && 0.0 <= cam.distance(xyz[p]) < FarLimit ==>
      exists i :: 0 <= i < numLevels && FineMask(xyz, cam, LevelRanges(numLevels, t).value[i])[p]
  {
    var rs := LevelRanges(numLevels, t).value;
    var d := cam.distance(xyz[p]);
    forall i, j | 0 <= i < numLevels && 0 <= j < numLevels && i != j
      ensures !(FineMask(xyz, cam, rs[i])[p] && FineMask(xyz, cam, rs[j])[p])
    {
      AtMostOneLevel(numLevels, t, d, i, j);
    }
    if cam.depth(xyz[p]) > NearClip && 0.0 <= d < FarLimit {
      ExactlyOneLevel(numLevels, t, d);
      var i :| 0 <= i < numLevels && rs[i].Contains(d);
      assert FineMask(xyz, cam, rs[i])[p];
    }
  }

  class BlockedGaussian<F> {
    /** `self.xyz`: point positions. */
    const xyz: seq<Vec3>
    /** `self.feats`: per-point opacity, colour features and shape, as an opaque payload. */
    const feats: seq<F>
    const blockDim: BlockDim
    const numCell: nat
    /** The level's distance band `self.range`. */
    const range: Range
    const inCell: BlockFilter
    /** `self.cell_ids`, overwritten in place by `cell_divider`. */
    const cellIds: array<int>
    /** `self.mask`, the scratch mask the filters overwrite. */
    var mask: seq<bool>
    /** `self.cell_corners`: eight corners per cell. */
    var cellCorners: seq<seq<Vec3>>

    ghost predicate Valid()
      reads this
    {
      && |feats| == |xyz|
      && cellIds.Length == |xyz|
      && |mask| == |xyz|
      && numCell == NumCells(blockDim)
    }

    /**
     * `__init__`: zero ids and mask, then `cell_divider`. Every cell must be
     * non-empty (`torch.median` raises on an empty cell) and there must be
     * at least one cell (`torch.stack` raises on an empty list).
     */
    constructor (points: seq<Vec3>, features: seq<F>, blockDim: BlockDim, inCell: BlockFilter, range: Range)
      requires |features| == |points|
      requires NumCells(blockDim) > 0
      requires NonEmptyCells(points, inCell, NumCells(blockDim))
      ensures Valid()
      ensures xyz == points && feats == features && this.range == range
      ensures this.blockDim == blockDim && this.inCell == inCell
      ensures fresh(cellIds)
      ensures forall p :: 0 <= p < |xyz| ==> cellIds[p] == AssignedCell(inCell, numCell, p)
      ensures forall p :: 0 <= p < |xyz| ==> 0 <= cellIds[p] < numCell
      ensures cellCorners == CornerList(xyz, inCell, numCell)
      ensures forall p :: 0 <= p < |mask| ==> !mask[p]
    {
      xyz := points;
      feats := features;
      this.blockDim := blockDim;
      numCell := NumCells(blockDim);
      this.range := range;
      this.inCell := inCell;
      cellIds := new int[|points|](_ => 0);
      mask := seq(|points|, _ => false);
      cellCorners := [];
      new;
      CellDivider();
    }

    /**
     * `cell_divider`: for each cell in ascending order, overwrite the ids of
     * its members with the cell index and append the corners of its robust box.
     */
    method CellDivider()
      requires Valid()
      requires NonEmptyCells(xyz, inCell, numCell)
      requires forall p :: 0 <= p < cellIds.Length ==> cellIds[p] == 0
      requires cellCorners == []
      modifies this`cellCorners, cellIds
      ensures Valid()
      ensures forall p :: 0 <= p < cellIds.Length ==> cellIds[p] == AssignedCell(inCell, numCell, p)
      ensures cellCorners == CornerList(xyz, inCell, numCell)
    {
      var c := 0;
      while c < numCell
        invariant 0 <= c <= numCell
        invariant forall p :: 0 <= p < cellIds.Length ==> cellIds[p] == AssignedCell(inCell, c, p)
        invariant cellCorners == CornerList(xyz, inCell, c)
      {
        AssignCell(c);
        AppendCorners(c);
        c := c + 1;
      }
    }

    /** `self.cell_ids[cell_mask] = cell_idx`: the members of cell `c` take its index. */
    method AssignCell(c: nat)
      requires forall p :: 0 <= p < cellIds.Length ==> cellIds[p] == AssignedCell(inCell, c, p)
      modifies cellIds
      ensures forall p :: 0 <= p < cellIds.Length ==> cellIds[p] == AssignedCell(inCell, c + 1, p)
    {
      forall p | 0 <= p < cellIds.Length && inCell(c, p) {
        cellIds[p] := c;
      }
    }

    /** `self.cell_corners.append(...)`: the corners of cell `c`'s robust box. */
    method AppendCorners(c: nat)
      requires c < numCell && NonEmptyCells(xyz, inCell, c + 1)
      requires cellCorners == CornerList(xyz, inCell, c)
      modifies this`cellCorners
      ensures cellCorners == CornerList(xyz, inCell, c + 1)
    {
      var corners := CellCorners(xyz, inCell, c);
      var appended := cellCorners + [corners];
      assert forall j :: 0 <= j < c + 1 ==> appended[j] == CellCorners(xyz, inCell, j);
      cellCorners := appended;
    }

    /**
     * `get_feats`: the coarse filter. The points of every cell listed with a
     * distance in range, in point order; when no distance is in range the
     * outputs are empty and the scratch mask keeps its previous value.
     */
    method GetFeats(indices: seq<int>, distances: seq<real>) returns (outXyz: seq<Vec3>, outFeats: seq<F>)
      requires Valid()
      requires |indices| == |distances|
      modifies this`mask
      ensures Valid()
      ensures mask == if Count(InRangeMask(range, distances)) > 0
                      then CoarseSelection(cellIds[..], range, indices, distances)
                      else old(mask)
      ensures outXyz == Select(xyz, CoarseSelection(cellIds[..], range, indices, distances))
      ensures outFeats == Select(feats, CoarseSelection(cellIds[..], range, indices, distances))
    {
      outXyz, outFeats := [], [];
      var blockMask := InRangeMask(range, distances);
      if Count(blockMask) > 0 {
        mask := CoarseMask(cellIds[..], Select(indices, blockMask));
        outXyz := Select(xyz, mask);
        outFeats := Select(feats, mask);
      } else {
        CountZero(blockMask);
        assert forall j :: 0 <= j < |distances| ==> blockMask[j] == range.Contains(distances[j]);
        CoarseSelectionEmpty(xyz, cellIds[..], range, indices, distances);
        CoarseSelectionEmpty(feats, cellIds[..], range, indices, distances);
      }
    }

    /**
     * `get_feats_ptwise`: the fine filter. Clip at camera depth 0.2, then
     * keep the points whose distance from the camera is in range.
     */
    method GetFeatsPtwise(cam: ViewPoint) returns (outXyz: seq<Vec3>, outFeats: seq<F>)
      requires Valid()
      modifies this`mask
      ensures Valid()
      ensures mask == FineMask(xyz, cam, range)
      ensures outXyz == Select(xyz, mask) && outFeats == Select(feats, mask)
    {
      outXyz, outFeats := [], [];
      var near := NearMask(xyz, cam);
      mask := near;
      if Count(near) == 0 {
        CountZero(near);
        assert forall p :: 0 <= p < |xyz| ==> near[p] == FineMask(xyz, cam, range)[p];
        SelectNone(xyz, mask);
        SelectNone(feats, mask);
        return;
      }
      var distances := seq(|xyz|, p requires 0 <= p < |xyz| => cam.distance(xyz[p]));
      mask := seq(|near|, p requires 0 <= p < |near| => near[p] && range.Contains(distances[p]));
      assert forall p :: 0 <= p < |xyz| ==> mask[p] == FineMask(xyz, cam, range)[p];
      if Count(mask) > 0 {
        outXyz := Select(xyz, mask);
        outFeats := Select(feats, mask);
      } else {
        CountZero(mask);
        SelectNone(xyz, mask);
        SelectNone(feats, mask);
      }
    }
  }

  /** What one level's loader hands over: its points, their features and its cell membership. */
  datatype LevelSource<F> = LevelSource(points: seq<Vec3>, feats: seq<F>, inCell: BlockFilter)

  predicate Loadable<F>(s: LevelSource<F>, blockDim: BlockDim)
  {
    && |s.feats| == |s.points|
    && NumCells(blockDim) > 0
    && NonEmptyCells(s.points, s.inCell, NumCells(blockDim))
  }

  /** The whole id tensor of `n` points after cells `0 .. k-1` have written their ids. */
  function AssignedIds(inCell: BlockFilter, k: nat, n: nat): (ids: seq<int>)
    ensures |ids| == n
    ensures forall p :: 0 <= p < n ==> ids[p] == AssignedCell(inCell, k, p)
  {
    seq(n, p requires 0 <= p < n => AssignedCell(inCell, k, p))
  }

  /**
   * `level` is what the constructor makes of `s`: a well-formed level over its
   * points, features and membership, covering `range`, with every id at the
   * last cell containing its point, the corners of every cell's box, and an
   * all-false mask.
   */
  ghost predicate BuiltFrom<F>(level: BlockedGaussian<F>, s: LevelSource<F>, blockDim: BlockDim, range: Range)
    reads level, level.cellIds
  {
    && level.Valid()
    && level.range == range
    && level.xyz == s.points
    && level.feats == s.feats
    && level.blockDim == blockDim
    && level.inCell == s.inCell
    && level.numCell > 0
    && level.cellIds[..] == AssignedIds(s.inCell, level.numCell, |s.points|)
    && NonEmptyCells(s.points, s.inCell, level.numCell)
    && level.cellCorners == CornerList(s.points, s.inCell, level.numCell)
    && level.mask == seq(|s.points|, _ => false)
  }

  /** `BlockedGaussian(gaussians, lp, range=...)` for one level. */
  method OpenLevel<F>(s: LevelSource<F>, blockDim: BlockDim, range: Range) returns (level: BlockedGaussian<F>)
    requires Loadable(s, blockDim)
    ensures fresh(level) && BuiltFrom(level, s, blockDim, range)
  {
    level := new BlockedGaussian(s.points, s.feats, blockDim, s.inCell, range);
    assert level.mask == seq(|s.points|, _ => false);
    assert level.cellIds[..] == AssignedIds(s.inCell, level.numCell, |s.points|);
  }

  /**
   * `levels` are distinct objects, level `k` built from `sources[k]` over
   * `ranges[k]`.
   */
  ghost predicate BuiltLevels<F>(levels: seq<BlockedGaussian<F>>, sources: seq<LevelSource<F>>,
                                 blockDim: BlockDim, ranges: seq<Range>)
    reads set k | 0 <= k < |levels| :: levels[k]
    reads set k | 0 <= k < |levels| :: levels[k].cellIds
  {
    && |levels| <= |sources| && |levels| <= |ranges|
    && (forall k :: 0 <= k < |levels| ==> BuiltFrom(levels[k], sources[k], blockDim, ranges[k]))
    && (forall j, k :: 0 <= j < k < |levels| ==> levels[j] != levels[k])
  }

  /**
   * One round of the level loop: build the next level over `range` and
   * append it to the levels built so far, which stay as they are.
   */
  method PushLevel<F>(levels: seq<BlockedGaussian<F>>, sources: seq<LevelSource<F>>, blockDim: BlockDim,
                      ghost ranges: seq<Range>, range: Range)
    returns (extended: seq<BlockedGaussian<F>>)
    requires |levels| < |sources| && |sources| <= |ranges| && range == ranges[|levels|]
    requires Loadable(sources[|levels|], blockDim)
    requires BuiltLevels(levels, sources, blockDim, ranges)
    ensures |extended| == |levels| + 1
    ensures forall k :: 0 <= k < |levels| ==> extended[k] == levels[k]
    ensures fresh(extended[|levels|])
    ensures BuiltLevels(extended, sources, blockDim, ranges)
  {
    var level := OpenLevel(sources[|levels|], blockDim, range);
    extended := levels + [level];
  }

  /**
   * The level set-up of `render_sets`: check the level/threshold count, then
   * build one new `BlockedGaussian` per level, finest first, level `i` over
   * `[T[i], T[i+1])`. Every level is gridded with the one `block_dim` of the
   * fused model's configuration.
   */
  method BuildLevels<F>(sources: seq<LevelSource<F>>, blockDim: BlockDim, t: seq<real>)
    returns (r: Result<seq<BlockedGaussian<F>>>)
    requires |sources| == |t| + 1 ==> forall i :: 0 <= i < |sources| ==> Loadable(sources[i], blockDim)
    ensures r.Ok? <==> |sources| == |t| + 1
    ensures r.Ok? ==> |r.value| == |sources|
    ensures r.Ok? ==> forall i :: 0 <= i < |sources| ==>
      BuiltFrom(r.value[i], sources[i], blockDim, LevelRanges(|sources|, t).value[i])
    ensures r.Ok? ==> forall i :: 0 <= i < |r.value| ==> fresh(r.value[i])
    ensures r.Ok? ==> forall i, j :: 0 <= i < j < |r.value| ==> r.value[i] != r.value[j]
  {
    var bounds := Thresholds(|sources|, t);
    if bounds.Err? {
      return Err(bounds.reason);
    }
    ghost var ranges := LevelRanges(|sources|, t).value;
    var levels: seq<BlockedGaussian<F>> := [];
    for i := 0 to |sources|
      invariant |levels| == i
      invariant BuiltLevels(levels, sources, blockDim, ranges)
      invariant forall k :: 0 <= k < i ==> fresh(levels[k])
    {
      var range := Range(bounds.value[i], bounds.value[i + 1]);
      assert range == ranges[i];
      levels := PushLevel(levels, sources, blockDim, ranges, range);
    }
    r := Ok(levels);
  }
}
