# CityGaussian level-of-detail video rendering, modelled in Dafny

This project models the parts of CityGaussian's video renderers
(`render_video_lodv2.py` and `render_video.py`) that are not rendering itself.

- **`BlockedGaussian`** holds one level-of-detail (LOD) variant of a scene.
  - Its points are divided into a `bx x by x bz` grid of cells.
  - Each point is given a cell id. Cells claim their members in ascending order, and a later cell overwrites the id an earlier one wrote.
  - Each cell gets an outlier-robust box (`median +- 4 MAD` on each axis, clamped to the members' extent), stored as eight corners.
  - Two filters pick the points the level contributes to a frame:
    - a coarse filter keeps the cells whose distance lies in the level's band `[near, far)`;
    - a fine filter keeps the points in front of the near plane (depth `> 0.2`) whose distance lies in that band.
- **Level set-up of `render_sets`.** It checks that there is one threshold fewer than there are levels. It frames the thresholds as `[0] + t + [1e6]`, and level `i` covers `[T[i], T[i+1])`.
- **`render_set`.** It sweeps the camera over heights `range(500, 2525, 25)` from view 481. Frames and durations are recorded in lockstep, with a running sum and a running maximum of the durations. The average and minimum frame rates are computed from those.
- **Configuration rules.**
  - which splits are rendered;
  - the background colour;
  - `parse_cfg`, which copies the configuration sections onto attribute bags;
  - the command-line defaults for `model_path` and `iteration`;
  - replacing an empty `model_path` in the configuration.

Files:

- `wrappers.dfy` (`Wrappers`): `Option` and `Result`. An `Err` stands for an exception the Python code raises.
- `reals.dfy` (`Reals`): Python's two-argument `max` and `min` on reals, and ascending order.
- `masks.dfy` (`Masks`): boolean-mask indexing `s[mask]` (`Select`), with `TrueIndices` and `Count` (`mask.sum()`).
- `robust_box.dfy` (`RobustBox`):
  - sorting, median, min, max and MAD;
  - the per-axis robust interval;
  - the cell box and its eight corners.
- `lod_ranges.dfy` (`LodRanges`): distance bands, threshold framing, per-level ranges, and the partition lemmas.
- `blocked_gaussian.dfy` (`LodBlocks`):
  - the class `BlockedGaussian`. Its fields are the cell-id array `cellIds`, the scratch `mask` and `cellCorners`; its methods are the constructor, `CellDivider`, `GetFeats` and `GetFeatsPtwise`;
  - the level set-up loop `BuildLevels`.
- `sweep.dfy` (`Sweep`): the height sweep, the running sum and maximum, and the frame-rate formulas.
- `driver.dfy` (`Driver`): split selection, background, `GroupParams` / `ParseCfg`, `Basename`, and the argument defaults.

External routines are parameters:

- `block_filtering` is the membership predicate `inCell(cell, point)`.
- The camera is a `ViewPoint` with abstract `depth` and `distance` functions.
- Rendering is an arbitrary function from a camera request to an image.
- `time.time()` differences are an input sequence of durations.

Coordinates and distances are exact reals.

Three behaviours of the code that the model keeps as they are:

- **Box placement.** The code (`torch.max(xyz_min, min)`, `torch.min(xyz_max, max)`) clamps each cell's box *inside* the members' per-axis `[min, max]`; the box need not contain every member. The model proves the box lies within the members' extent and contains their median.
- **Cell ids.** A point's id stays 0 when no cell's mask contains it, and is overwritten by each later cell that does contain it. `AssignedCell` models this.
- **Scratch mask.** `get_feats` leaves `self.mask` unchanged when it finds no cell in range, so the mask of an earlier call survives. `GetFeats` states that.

## Model

| member | source | states |
|---|---|---|
| LodBlocks.AssignedCell | render_video_lodv2.py:71-73 | after cells `0..k-1` have written their ids, every id lies in `[0, k)` |
| LodBlocks.AssignedCellIsLast | render_video_lodv2.py:71-73 | a point's final id is the largest cell whose mask contains it; no later cell contains it; the id is 0 when no cell does |
| LodBlocks.NumCells | render_video_lodv2.py:51 | `num_cell` is the product of the three grid dimensions `block_dim[0] * block_dim[1] * block_dim[2]` |
| LodBlocks.CellMask | render_video_lodv2.py:72 | `cell_mask` of cell `c` has one entry per point, and entry `p` is `block_filtering`'s verdict on point `p` for cell `c` |
| LodBlocks.CellMembers | render_video_lodv2.py:72-75 | `self.xyz[cell_mask]`: the positions of the points in cell `c`, in point order (non-emptiness by `NonEmptyCell`, rows by `Masks.Select`) |
| LodBlocks.NonEmptyCell | render_video_lodv2.py:72-75 | a cell's member list `xyz[cell_mask]` is non-empty exactly when some point satisfies the cell's membership predicate |
| LodBlocks.CellCorners | render_video_lodv2.py:75-88 | the eight corners, in the literal order of lines 81-88, of the robust box of cell `c`'s members |
| LodBlocks.CornerList | render_video_lodv2.py:57 | the stacked corner list has one entry per cell, and each entry holds 8 corners |
| LodBlocks.BlockedGaussian.constructor | render_video_lodv2.py:40-57 | with `num_cell = bx*by*bz > 0` and no empty cell, the object keeps the points, features, grid and range it was given; every id equals the last cell containing the point and lies in `[0, num_cell)`; cell `c`'s corners are those of its robust box; the mask starts all false |
| LodBlocks.BlockedGaussian.CellDivider | render_video_lodv2.py:71-89 | starting from zero ids and no corners, the loop over cells in ascending order leaves each id at its last containing cell, and the corner list at the boxes of cells `0..num_cell-1` in order |
| LodBlocks.BlockedGaussian.AssignCell | render_video_lodv2.py:73 | `cell_ids[cell_mask] = c` moves every id from its value after cells `0..c-1` to its value after cells `0..c` |
| LodBlocks.BlockedGaussian.AppendCorners | render_video_lodv2.py:75-89 | appending cell `c`'s corners extends the corner list of cells `0..c-1` to that of cells `0..c` |
| LodBlocks.BlockedGaussian.GetFeats | render_video_lodv2.py:91-99 | both outputs are `xyz` and `feats` under the same coarse mask; the mask is updated only when some cell distance lies in range, and otherwise keeps its old value |
| LodBlocks.CoarseMask | render_video_lodv2.py:96 | `torch.isin(cell_ids, chosen)`: one entry per point, true when its id occurs in `chosen` |
| LodBlocks.CoarseSelection | render_video_lodv2.py:94-96 | the mask of `get_feats` has one entry per point: `isin` of the ids against `indices[block_mask]`, the cells with an in-range distance (characterised by `CoarseSelectionSpec`) |
| LodBlocks.CoarseSelectionSpec | render_video_lodv2.py:94-96 | point `p` is kept exactly when some listed cell has id `cell_ids[p]` and a distance in `[near, far)` |
| LodBlocks.CoarseSelectionEmpty | render_video_lodv2.py:92-99 | when no cell distance lies in range, the outputs are empty |
| LodBlocks.BlockedGaussian.GetFeatsPtwise | render_video_lodv2.py:101-118 | the mask left behind is "depth > 0.2 and distance in `[near, far)`"; both outputs are `xyz` and `feats` under it, including the early return when every point is clipped |
| LodBlocks.NearMask | render_video_lodv2.py:105-109 | the near-plane mask has one entry per point: camera-space depth `> 0.2` |
| LodBlocks.FineMask | render_video_lodv2.py:109-114 | the final mask of `get_feats_ptwise` has one entry per point: depth `> 0.2` and camera distance in `[near, far)` (characterised by `FineSelectionSpec`) |
| LodBlocks.FineSelectionSpec | render_video_lodv2.py:109-117 | the fine filter keeps points in ascending original order, keeps exactly the points in front of the near plane whose distance is in range, and keeps equally many `xyz` and `feats` rows |
| LodBlocks.FineSelectionAllClipped | render_video_lodv2.py:109-111 | when every point is clipped, the outputs are empty rather than an error |
| LodBlocks.FineMasksPartition | render_video_lodv2.py:114 | for any ascending thresholds (no bound on their values), no point passes the fine filter of two levels; a point with depth > 0.2 and distance in `[0, 1e6)` passes exactly one level |
| LodBlocks.OpenLevel | render_video_lodv2.py:185 | building a level yields a fresh well-formed object over the given points, features, membership predicate and grid, covering the given range, with every id at the last cell containing its point (in `[0, num_cell)`), the corners of every cell's box, and an all-false mask |
| LodBlocks.PushLevel | render_video_lodv2.py:185-186 | one round of the level loop: the levels built so far are kept unchanged, and a new object, distinct from all of them and built from the next loaded model over its range, is appended |
| LodBlocks.BuildLevels | render_video_lodv2.py:174-186 | succeeds exactly when there is one threshold fewer than there are levels (checked before any level is loaded); then level `i` is the constructor's result on the `i`-th loaded model (points, features, membership, ids, corners, mask) and covers range `i`, and the levels are new objects, pairwise distinct |
| LodRanges.Thresholds | render_video_lodv2.py:174-175 | the count check fails exactly when `len(lod_configs) - 1 != len(t)`; otherwise the framed list has `levels + 1` entries: 0, then the thresholds in order, then 1e6 |
| LodRanges.InRangeMask | render_video_lodv2.py:94 | `(distances >= range[0]) & (distances < range[1])`: one entry per distance, true when it lies in `[near, far)` |
| LodRanges.LevelRanges | render_video_lodv2.py:185 | level 0 starts at 0, the last level ends at 1e6, level `i` ends at `t[i]`, and level `i+1` starts there |
| LodRanges.LevelsContiguous | render_video_lodv2.py:185 | consecutive levels share their common bound |
| LodRanges.AtMostOneLevel | render_video_lodv2.py:185 | with ascending thresholds of any value, no distance lies in two levels' ranges |
| LodRanges.LevelExists | render_video_lodv2.py:175 | with ascending thresholds of any value, every distance in `[0, 1e6)` lies in some framed interval `[T[i], T[i+1])` |
| LodRanges.ExactlyOneLevel | render_video_lodv2.py:175-185 | with ascending thresholds, a distance in `[0, 1e6)` lies in exactly one level's range |
| Masks.TrueIndices | render_video_lodv2.py:97-98 | the positions where the mask holds, each a valid position of the mask (ascending and exact by `TrueIndicesSpec`) |
| Masks.Count | render_video_lodv2.py:95 | `mask.sum()`: the number of true positions (zero exactly when none holds, by `CountZero`) |
| Masks.Select | render_video_lodv2.py:97-98 | `s[mask]` has `mask.sum()` rows, and row `j` is the row of `s` at the `j`-th true position |
| Masks.TrueIndicesSpec | render_video_lodv2.py:97-98 | the selected positions are strictly increasing, and they are exactly the positions where the mask is true |
| Masks.CountZero | render_video_lodv2.py:95 | `mask.sum() == 0` exactly when no entry is true |
| Masks.SelectMember | render_video_lodv2.py:96 | a value is among `indices[block_mask]` exactly when some selected entry equals it |
| Masks.SelectNone | render_video_lodv2.py:110-111 | an all-false mask selects nothing |
| RobustBox.Median | render_video_lodv2.py:75-76 | `torch.median` along one axis: the lower of the two middle values, entry `(n-1)/2` of the sorted column (properties by `MedianWithin`) |
| RobustBox.Min | render_video_lodv2.py:78 | `torch.min` along one axis: the first entry of the sorted column (properties by `Extremes`) |
| RobustBox.Max | render_video_lodv2.py:80 | `torch.max` along one axis: the last entry of the sorted column (properties by `Extremes`) |
| RobustBox.Mad | render_video_lodv2.py:76 | `delta_median`: the median of the absolute deviations from the median (non-negative by `MadNonNegative`) |
| RobustBox.AxisBox | render_video_lodv2.py:77-80 | on one axis, `xyz_min = max(median - 4 MAD, min)` and `xyz_max = min(median + 4 MAD, max)` (bounds by `AxisBoxWithin`) |
| RobustBox.CellBox | render_video_lodv2.py:75-80 | the box of a cell: `AxisBox` on the x, y and z columns of its members gives `xyz_min` and `xyz_max` (bounds by `CellBoxWithin`) |
| RobustBox.SortPermutes | render_video_lodv2.py:75 | sorting the column, which underlies `torch.median`, `min` and `max`, only reorders it: a permutation, and ascending |
| RobustBox.MedianWithin | render_video_lodv2.py:75 | the median is one of the values and lies between their minimum and maximum |
| RobustBox.Extremes | render_video_lodv2.py:78-80 | `min` and `max` are values of the column and bound all of them |
| RobustBox.MadNonNegative | render_video_lodv2.py:76 | the median absolute deviation is never negative |
| RobustBox.AxisBoxWithin | render_video_lodv2.py:75-80 | on one axis `min <= xyz_min <= median <= xyz_max <= max`, and the interval lies inside `median +- 4 MAD` |
| RobustBox.CellBoxWithin | render_video_lodv2.py:75-80 | on each of x, y and z, a cell's box lies within the members' `[min, max]`, contains their median, and lies inside `median +- 4 MAD` |
| RobustBox.Corners | render_video_lodv2.py:81-88 | a box has exactly eight corners |
| RobustBox.CornerBits | render_video_lodv2.py:81-88 | corner `k` takes the upper end on x iff bit 2 of `k` is set, on y iff bit 1, and on z iff bit 0 |
| Sweep.PyRange | render_video.py:47 | `range(start, stop, step)`: entry `k` is `start + k*step`, every entry is below `stop`, and one more step would reach `stop` |
| Sweep.Heights | render_video.py:47 | the loop range `range(500, 2525, 25)` (its 81 entries by `HeightsSweep`) |
| Sweep.HeightsSweep | render_video.py:47 | the sweep has 81 heights, 500, 525, ..., 2500, strictly increasing |
| Sweep.Request | render_video.py:42-49 | each camera is requested from view 481, with scale 1, the given pitch and height `h/100` |
| Sweep.SweepHeights | render_video.py:47-61 | frames and durations grow in lockstep, one per height in sweep order; the frame at height `k` is the render of that camera; the accumulators end as the sum and the running maximum of the durations |
| Sweep.RenderSet | render_video.py:35-61 | over `range(500, 2525, 25)`: 81 frames, frame `k` rendered at height `500 + 25k`, and the duration list, sum and maximum as above |
| Sweep.Sum | render_video.py:36-60 | `avg_render_time`: 0, plus each duration in sweep order (values by `SumUniform`, `SumPositive`) |
| Sweep.RunningMax | render_video.py:37-61 | `max_render_time`: 0, then `max(max_render_time, duration)` after each frame (characterised by `RunningMaxSpec`) |
| Sweep.RunningMaxSpec | render_video.py:37-61 | `max_render_time`, starting at 0, bounds 0 and every duration, and it is 0 or one of the durations |
| Sweep.SumUniform | render_video.py:60 | `avg_render_time` over equal durations `d` is `frames * d` |
| Sweep.SumPositive | render_video.py:60 | positive durations give a positive total |
| Sweep.AverageFpsAsWritten | render_video.py:67 | the printed average is `len(views)` over the total time; a zero total raises |
| Sweep.AverageFps | render_video.py:67 | the frame rate of the sweep, frames over total time; a zero total raises |
| Sweep.AverageFpsUniform | render_video.py:67 | when every frame takes `d > 0`, the average frame rate is `1/d` |
| Sweep.AverageFpsAsWrittenOverstates | render_video.py:67 | with the at least 482 views required and positive durations, the printed average is `len(views)/81` times the true one, and so larger |
| Sweep.AverageFpsAsWrittenExample | render_video.py:67 | 482 views and 81 frames of 0.01 s print `482/0.81` instead of 100 |
| Sweep.MinFps | render_video.py:68 | `1 / max_render_time`; a zero maximum raises |
| Sweep.MinFpsIsSlowestFrame | render_video.py:61-68 | with positive durations, the printed minimum frame rate is no more than any frame's rate and equals the slowest frame's |
| Driver.Basename | render_video.py:79 | `os.path.basename`: the longest suffix without `/` |
| Driver.BeforeFirstDot | render_video.py:128 | `split('.')[0]`: the longest prefix without `.` |
| Driver.Truthy | render_video.py:77-85 | `if custom_test:` on an optional string: false for `None` and for `''` |
| Driver.SplitPlan | render_video.py:77-94 | a truthy `custom_test` gives one set, named after its basename, over train then test cameras; otherwise "train" iff not `skip_train`, then "test" iff not `skip_test`, each over its own cameras |
| Driver.CustomTestIgnoresSkips | render_video.py:85-88 | with `custom_test` the skip flags have no effect |
| Driver.Background | render_video.py:82 | three channels, all 1 if `white_background` and all 0 otherwise |
| Driver.ToMap | render_video.py:101-108 | the attributes after `setattr` of each item in order on an empty object: a later item overwrites an earlier one with its name (characterised by `ToMapHas`, `ToMapLast`) |
| Driver.ToMapHas | render_video.py:101-108 | after the `setattr` loop, an attribute exists exactly when some item carries its name |
| Driver.ToMapLast | render_video.py:101-108 | each attribute holds the value of the last item with its name |
| Driver.ToMapDistinct | render_video.py:101-102 | with distinct keys, every key's attribute is its value |
| Driver.GroupParams.constructor | render_video.py:97 | a new parameter object has no attributes |
| Driver.GroupParams.SetAttr | render_video.py:102 | `setattr` sets one attribute and leaves the others |
| Driver.GroupParams.FillModelPath | render_video.py:139-140 | a missing `model_path` attribute raises; it is replaced by the argument only when it equals `''` |
| Driver.CopyItems | render_video.py:101-102 | copying a section onto a fresh object leaves it with exactly that section's attributes |
| Driver.ParseCfg | render_video.py:96-110 | a missing section raises; otherwise three distinct fresh objects carry exactly the items of `model_params`, `optim_params` and `pipeline_params` |
| Driver.DefaultModelPath | render_video.py:127-128 | `output/` followed by the config file's basename up to its first dot: no `/` and no `.` after the prefix |
| Driver.ResolveArgs | render_video.py:127-130 | a given `model_path` is kept; a missing one becomes exactly `DefaultModelPath(config)`, and raises when both are missing; `load_vq` forces `iteration = None`, which otherwise is kept |

## Left out

- Rendering (`render`, `render_lod`): a foreign call, modelled as an arbitrary function from camera request to image. How `render_lod` combines the levels is not part of this model.
- `block_filtering`, `loadCamV2`, `world_view_transform` and `camera_center` are foreign code. They are the abstract membership predicate and the abstract `depth`/`distance` functions.
- The homogeneous matrix product, `torch.norm` and its square root, the `.half()` cast, and the image byte conversion are floating-point work. Reals are exact here.
- `get_covariance`, `get_scaling`, `get_rotation` and the feature concatenation are an opaque per-point payload `F`.
- `max_sh_degree`, `device`, `compute_cov3D_python`, `aabb` and `scale` are fixed inside the membership predicate or unused by the modelled logic.
- Timing and I/O are not modelled: `torch.cuda.synchronize`, `time.time`, `imageio.mimsave`, `makedirs`, `tqdm`, `print`, YAML loading, `LargeScene`, `load_gaussians`, and the dynamic model-class lookup.
- `render_set` appears in both files with the same loop. It is modelled once, `Sweep.RenderSet` citing `render_video.py`; lines 138-171 of `render_video_lodv2.py` are the same loop, with `render_lod` over the level list in place of `render`. Its `height` argument is ignored because the loop variable shadows it, so the model has no such parameter.
- Empty cells: `torch.median` of an empty selection (line 75) and `torch.stack([])` with no cell (line 57) both raise a `RuntimeError`. `LodBlocks.BlockedGaussian.constructor` requires every cell to be non-empty and at least one cell, so that error path is not modelled.
- The `IndexError` of `views[481]` with fewer than 482 views is excluded by the precondition `|views| > 481` of `Sweep.RenderSet` instead of being modelled as an error.
- Defects of `render_sets`/`render_set` in `render_video_lodv2.py`:
  - They read module-global `lp` and `pp`.
  - `views` is undefined outside the custom-test branch, a `NameError`.
  - `scene` is taken from the last loaded level.
  - The threshold list is mutated in place.

  `LodBlocks.BuildLevels` and `Driver.SplitPlan` take their inputs as parameters instead. `SplitPlan` models the well-defined split logic of `render_video.py`.
- Setting `dataset.source_path` to `custom_test`, and `setattr(lp, 'config_path', ...)`: plain attribute writes covered by `GroupParams.SetAttr`, not modelled separately.
- `os.path.splitext` of the level config names: used only for output naming, not modelled.
- Driver.ParseCfg: `.items()` on a section that is not a mapping is not modelled, because sections are typed as item lists.
- LodBlocks.BlockedGaussian.GetFeats: requires `|indices| == |distances|`; with unequal lengths `indices[block_mask]` raises `IndexError` in the source, and that error path is not modelled.
- Empty results: both kinds become the empty sequence. The source's initial `torch.tensor([])` is 1-D with shape `[0]`, while `xyz[mask]` under an all-false mask has shape `[0, 3]`. The model does not tell the two shapes apart.
- LodBlocks.BuildLevels: every source must be loadable (matching feature count, at least one cell, no empty cell) when the level count matches; the model does not express a load that fails.
- Sweep.RenderSet: the printed `Height:` line is not modelled (it is output only).

## Findings

| source | as written | input that shows it | evidently intended | confidence | as-written member | corrected member |
|---|---|---|---|---|---|---|
| render_video.py:67 | `len(views) / avg_render_time` divides the number of cameras (at least 482, since view 481 is read) by the time of the 81-frame sweep | 482 views, 81 frames of 0.01 s each: prints about 595.06 FPS while the sweep ran at 100 FPS | the frame count over the total time, `len(duration_list) / avg_render_time` | not executed | Sweep.AverageFpsAsWrittenOverstates | Sweep.AverageFpsUniform |
