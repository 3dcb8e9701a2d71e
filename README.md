# Point-cloud services: surface reconstruction and upsampling

This project models the computational core of two HTTP prediction services
for point clouds, and proves properties of that model in Dafny.

- **GeoUDF meshing** (`cloud/GeoUDF/main.py`, `predict`). The endpoint:
  - validates the request body (`file_path` present, extension `.ply` in any
    case, `res` defaulting to 128);
  - loads the cloud and moves it into the unit cube around the origin;
  - samples an unsigned distance field on an `N x N x N` grid of side 1.05.
    A coarse pass fills every grid point with the nearest-point distance, in
    batches of `2**16`. A refined pass then overwrites distance and gradient
    with the network's prediction inside the band `udf < 2 * voxel_size`;
  - runs marching cubes on the reshaped field, moves the mesh back into the
    input frame, repairs it and stores it;
  - answers errors through two `except` clauses.
- **SAPCU upsampling** (`cloud/sapcu/main.py`, `predict`, and
  `cloud/sapcu/utils.py`, `farthest_point_sample`). The endpoint:
  - normalises the rows in place;
  - asks an external generator for seed points;
  - splits the seeds into `count // 400` parts with `np.array_split`. A
    network predicts a normal per seed; the normals are accumulated, split
    again alike, and a second network predicts an offset length per seed;
  - moves every seed along its normal;
  - drops outliers whose mean distance to their 30 nearest points is at least
    1.5 times the overall mean;
  - moves the points back in place and returns 8192 of them chosen by
    farthest-point sampling.

The storage, the networks, the seed generator, the k-nearest-neighbour
queries and marching cubes are not modelled. They are function-valued
parameters (`Oracles`), applied one query point at a time. Coordinates are
`real`.

Each endpoint is an imperative `method Predict`. Its contract says that it
returns the outcome of a whole-request reference function: `PredictSpec` for
meshing, `UpsampleSpec` for upsampling. Both take a flag `asWritten`. With it
set they describe the program as written, including the two defects listed
under "## Findings": the meshing handler's answer to its own 400s and the
truncating normalisation of an integer table. With it clear they describe
the corrected program. Lemmas state where the two agree and where they differ. The steps that loop in the source
are methods with loop invariants:
- both batched passes over the grid;
- the in-place row loops;
- the per-part loops over seeds and normals;
- the farthest-point sampling loop over an in-place `distance` array.

Each of these is proved against a specification function, and lemmas state
what the source promises about those functions.

Modules:
- `Vec` and `Bounds`: vectors and the bounding box.
- `Masks`: `np.where` and boolean masks.
- `Batching`: the chunk schedule of the `while head < num` loops.
- `Reshape`: row-major `reshape`.
- `UdfGrid`, `UdfPasses`, `UdfService`: the meshing service.
- `Fps`: farthest-point sampling.
- `ArraySplit`: `np.array_split`.
- `Outliers`: the outlier filter.
- `Upsample`: the upsampling service.

## Model

| member | source | states |
|---|---|---|
| Vec.SqDist | cloud/sapcu/utils.py:34 | the squared distance is never negative and is zero from a point to itself |
| Vec.Max3 | cloud/GeoUDF/main.py:81 | `np.max` of the three axis extents is at least each of them and equal to one of them |
| Bounds.Min | cloud/sapcu/main.py:54-56 | the per-axis minimum is at most every coordinate on that axis and attained by some point |
| Bounds.Max | cloud/sapcu/main.py:57-59 | the per-axis maximum is at least every coordinate on that axis and attained by some point |
| Bounds.BoxContains | cloud/GeoUDF/main.py:77-81 | every point lies between the box's lower and upper corners; `scale` is at least every axis extent and never negative |
| Bounds.ExtentZeroIff | cloud/GeoUDF/main.py:81 | `scale` is zero exactly when all points of the cloud coincide |
| Bounds.NormalisedInUnitCube | cloud/GeoUDF/main.py:76-83 | `(p - center) / scale` lies in `[-1/2, 1/2]^3` for every point of the cloud |
| Bounds.RestoreNormalise | cloud/GeoUDF/main.py:148-149 | `vs * scale + center` undoes `(p - center) / scale` |
| Bounds.NormaliseRestore | cloud/GeoUDF/main.py:83 | `(p - center) / scale` undoes `p * scale + center` |
| Bounds.ScaleByInverse | cloud/sapcu/main.py:62-65 | multiplying by `scale1 = 1 / scale` is the same normalisation as dividing by `scale` |
| Masks.Where | cloud/GeoUDF/main.py:127 | `np.where(mask)[0]` lists only in-range masked positions, lists every masked position, and is strictly ascending |
| Masks.IncreasingUnique | cloud/GeoUDF/main.py:127 | two strictly ascending index lists with the same members are equal |
| Masks.WhereUnique | cloud/GeoUDF/main.py:127 | `np.where` is the only ascending list of exactly the masked positions |
| Masks.WhereMaskOf | cloud/GeoUDF/main.py:131-133 | selecting with the mask of an ascending index chunk yields that chunk, in order |
| Batching.ChunksFromShape | cloud/GeoUDF/main.py:117-124 | chunks are non-empty and at most `max_batch` long. Each starts where the previous one ended. All but the last are full, and the last ends at `num_samples` |
| Batching.ChunksShape | cloud/GeoUDF/main.py:117-124 | a whole pass starts at index 0 and has that shape |
| Batching.ChunkCount | cloud/GeoUDF/main.py:117-124 | the loop runs `ceil(num_samples / max_batch)` times |
| Batching.VisitedFrom | cloud/GeoUDF/main.py:117-124 | the chunks from `head` cover `[head, num_samples)`: each index once, in increasing order |
| Batching.VisitsAllInOrder | cloud/GeoUDF/main.py:117-124 | a whole pass visits every index once, in increasing order |
| Reshape.Rows | cloud/GeoUDF/main.py:143 | `reshape(count, m)` yields `count` rows of length `m` |
| Reshape.RowAt | cloud/GeoUDF/main.py:143 | entry `r` of row `t` is flat entry `t*m + r` |
| Reshape.ConcatRows | cloud/GeoUDF/main.py:143 | flattening the rows of a reshape gives the flat array back |
| Reshape.RowsConcat | cloud/GeoUDF/main.py:110 | reshaping a flattened array of equal rows gives the rows back |
| Reshape.Unflatten | cloud/GeoUDF/main.py:143-144 | `reshape(N, N, N)` of `N**3` entries is an `N x N x N` volume |
| Reshape.UnflattenAt | cloud/GeoUDF/main.py:143 | voxel `(i, j, k)` of the reshaped field is flat entry `i*N*N + j*N + k` |
| Reshape.FlattenLength | cloud/GeoUDF/main.py:110 | `reshape(-1, 3)` of the grid has `N**3` entries |
| Reshape.UnflattenFlatten | cloud/GeoUDF/main.py:110 | reshaping the flattened grid back gives the grid volume |
| Reshape.FlattenUnflatten | cloud/GeoUDF/main.py:143 | flattening a reshaped array gives the flat array back |
| Reshape.FlattenAt | cloud/GeoUDF/main.py:110 | flat entry `i*N*N + j*N + k` is voxel `(i, j, k)` |
| UdfGrid.CoordEnds | cloud/GeoUDF/main.py:108 | grid index 0 maps to `-size/2` and index `N-1` to `size/2` |
| UdfGrid.CoordStep | cloud/GeoUDF/main.py:97-108 | neighbouring grid coordinates are exactly `voxel_size = size / (N - 1)` apart |
| UdfGrid.CoordInCube | cloud/GeoUDF/main.py:108 | every grid coordinate lies in `[-size/2, size/2]` |
| UdfGrid.GridAt | cloud/GeoUDF/main.py:104-110 | the flattened grid has `N**3` points and flat entry `i*N*N + j*N + k` is the point of cell `(i, j, k)` |
| UdfGrid.GridRoundTrip | cloud/GeoUDF/main.py:110 | the flattened grid reshapes back into `grids_coords` |
| UdfPasses.CoarsePass | cloud/GeoUDF/main.py:117-124 | after the batched loop, every grid point holds its nearest-point distance, whatever the batch size. The chunks taken are the schedule `Chunks` |
| UdfPasses.NarrowBandIndices | cloud/GeoUDF/main.py:126-127 | `norm_idx` is ascending and lists exactly the grid points with `udf < 2 * voxel_size` |
| UdfPasses.Refine | cloud/GeoUDF/main.py:133-139 | the selected positions receive the network's distance and gradient; all other entries are unchanged |
| UdfPasses.SubsetSelection | cloud/GeoUDF/main.py:131-133 | the positions the chunk's mask selects are the chunk itself |
| UdfPasses.RefinedPass | cloud/GeoUDF/main.py:128-141 | every position of `norm_idx` receives the network's distance and gradient, and every other position keeps its value. The positions are written in list order |
| UdfPasses.ComputeField | cloud/GeoUDF/main.py:112-141 | starting from zero buffers, both passes leave the banded field: the network's values inside the band, the nearest distance and a zero gradient outside it |
| UdfService.HandleAsWritten | cloud/GeoUDF/main.py:168-189 | as written: 400 exactly for a `ValueError`, 500 for every other exception |
| UdfService.Handle | cloud/GeoUDF/main.py:168-189 | corrected: a deliberate `HTTPException(400)` keeps its status and detail; `ValueError` is 400; anything else is 500 |
| UdfService.BadRequestBecomesServerError | cloud/GeoUDF/main.py:179-189 | as written, a rejected request is answered 500 "Unexpected error: 400: ..." rather than 400 |
| UdfService.HandlersAgreeOtherwise | cloud/GeoUDF/main.py:168-189 | the two handlers differ exactly on the endpoint's own `HTTPException` |
| UdfService.RFind | cloud/GeoUDF/main.py:64 | `rfind` returns the last position of the character, or -1 when it is absent |
| UdfService.ExtensionShape | cloud/GeoUDF/main.py:64 | `splitext(p)[1]` is a suffix of `p`. It is either empty or one `.` followed by no further `.` or `/` |
| UdfService.ExtensionOfName | cloud/GeoUDF/main.py:64 | `name.suffix` has extension `.suffix` |
| UdfService.HiddenPlyHasNoExtension | cloud/GeoUDF/main.py:64-66 | a file named just `.ply` has no extension, so it is rejected |
| UdfService.PlyAnyCase | cloud/GeoUDF/main.py:64-66 | `.PLY` in any mix of cases is accepted |
| UdfService.Validate | cloud/GeoUDF/main.py:58-66 | a body is accepted exactly when it is an object with a non-empty `file_path` whose extension is `.ply` in some case; the accepted path is the body's. A missing or empty path raises the 400 "file_path is required", a non-`.ply` path the 400 "Only .ply files are supported", invalid JSON a `ValueError`. `res` is resolved as `body.get("res", 128)`, `None` exactly for a null `res` |
| Bounds.NormaliseCloudInverse | cloud/GeoUDF/main.py:76-83 | the normalised cloud lies in the unit cube, and restoring it gives the input cloud back |
| UdfService.RestoreMeshInverse | cloud/GeoUDF/main.py:148-149 | with `scale != 0`, normalising each vertex of the moved-back mesh with the same center and scale gives the marched vertex back |
| UdfService.Reconstruct | cloud/GeoUDF/main.py:76-166 | the batched reconstruction answers as the point-by-point reference `Reconstruction`, as written or corrected (a failed upload is answered by the selected handler) |
| UdfService.MissingFilePathRejected | cloud/GeoUDF/main.py:62-63 | a missing or empty `file_path` is answered, as written, 500 "Unexpected error: 400: file_path is required" (lines 179-189 catch the 400); corrected, 400 "file_path is required" |
| UdfService.NonPlyRejected | cloud/GeoUDF/main.py:64-66 | a non-`.ply` path is answered, as written, 500 "Unexpected error: 400: Only .ply files are supported"; corrected, 400 "Only .ply files are supported" |
| UdfService.ResDefaultsTo128 | cloud/GeoUDF/main.py:61 | an absent `res` behaves exactly like `res = 128`, in both versions |
| UdfService.NullResFails | cloud/GeoUDF/main.py:98 | a null `res` on a usable cloud fails at `N - 1` and is answered 500 with the `TypeError` text, in both versions |
| UdfService.EndpointsDifferOnlyOnRejections | cloud/GeoUDF/main.py:168-189 | the endpoint as written and the corrected endpoint answer a body differently exactly when validation rejects it with the endpoint's own 400 |
| UdfService.SuccessNeedsValidCloud | cloud/GeoUDF/main.py:56-166 | a successful answer implies a valid `.ply` path, a successful load, a non-empty cloud whose points do not all coincide, and a `res` that is absent or an integer other than 1 and not negative |
| UdfService.Predict | cloud/GeoUDF/main.py:56-189 | the endpoint, batch by batch, answers as the whole-request reference `PredictSpec`, as written or corrected |
| Fps.MinDist | cloud/sapcu/utils.py:28-36 | a running minimum lies between 0 and `1e32` |
| Fps.MinDistIsMinimum | cloud/sapcu/utils.py:28-36 | the running minimum is at most the squared distance to every pick. It equals one of them, or `1e32` when nothing is picked |
| Fps.ArgMax | cloud/sapcu/utils.py:37 | `torch.max(distance)[1]` is an index of a largest entry, with no earlier index as large |
| Fps.Picks | cloud/sapcu/utils.py:31-37 | there are `pointnumber` picks, each a valid index |
| Fps.Lower | cloud/sapcu/utils.py:35-36 | each entry is lowered to `dist` exactly where `dist` is strictly smaller, and kept otherwise |
| Fps.Step | cloud/sapcu/utils.py:33-37 | one loop body turns the running minima of the earlier picks into those including the new centroid, and picks their argmax |
| Fps.FarthestPointSample | cloud/sapcu/utils.py:21-38 | an empty cloud raises (`None`). Otherwise the result is the reference pick sequence `Picks` |
| Fps.LowerIsMinDist | cloud/sapcu/utils.py:34-36 | masked lowering by the distances to a new centroid yields the running minima including that centroid |
| Fps.PicksPrefix | cloud/sapcu/utils.py:31-32 | the first `i` picks of a longer run are the picks of a run of length `i` |
| Fps.FirstPickIsMiddle | cloud/sapcu/utils.py:29-30 | the first pick is `N / 2`, whatever the random draw gave |
| Fps.PickIsFarthest | cloud/sapcu/utils.py:37 | every later pick is a point farthest from the earlier picks, and no lower index is as far |
| Fps.DistanceNeverIncreases | cloud/sapcu/utils.py:35-36 | another pick never raises a running minimum. It changes one only to a strictly smaller distance to the new pick |
| Fps.PickedIsAtZero | cloud/sapcu/utils.py:33-36 | a picked point's running minimum is zero |
| Fps.RepeatOnlyWhenExhausted | cloud/sapcu/utils.py:31-37 | a point is picked twice only when every running minimum is zero |
| ArraySplit.PartSizesSum | cloud/sapcu/main.py:84 | part sizes are `total // k` or one more, never increasing, and add up to `total` |
| ArraySplit.SplitBySizes | cloud/sapcu/main.py:84 | one part per size, each of that size |
| ArraySplit.ConcatSplit | cloud/sapcu/main.py:84 | concatenating the parts gives the input back |
| ArraySplit.SplitConcat | cloud/sapcu/main.py:104 | splitting a concatenation at its pieces' sizes gives the pieces back |
| ArraySplit.Split | cloud/sapcu/main.py:84 | `np.array_split(a, k)` raises exactly when `k <= 0`. Otherwise it gives `k` parts of the `divmod` sizes |
| ArraySplit.SplitCovers | cloud/sapcu/main.py:84 | the parts, concatenated in order, are the whole input |
| ArraySplit.SplitAligned | cloud/sapcu/main.py:104 | two arrays of one length split into `k` parts are cut at the same places |
| ArraySplit.SplitOfConcat | cloud/sapcu/main.py:100-104 | splitting the appended per-part normals returns exactly those parts |
| ArraySplit.ConcatMap | cloud/sapcu/main.py:108-122 | mapping each part and appending the results is mapping the whole |
| Outliers.MeanOfRowMeans | cloud/sapcu/main.py:130-131 | with rows of equal length, `np.mean(dist)` is the mean of the row means |
| Outliers.SumOfRowMeans | cloud/sapcu/main.py:130-131 | the row means add up to the row count times the overall mean |
| Outliers.KeptExactly | cloud/sapcu/main.py:130-133 | the kept indices are ascending and are exactly the points whose mean neighbour distance is below 1.5 times the overall mean |
| Outliers.SomePointKept | cloud/sapcu/main.py:130-133 | a positive overall mean keeps at least one point |
| Outliers.NothingKeptWhenAllZero | cloud/sapcu/main.py:128-133 | when all neighbour distances are zero, nothing is kept |
| Upsample.NormaliseRows | cloud/sapcu/main.py:62-65 | the in-place loop leaves every row at `(row - loc) * scale1` |
| Upsample.RestoreRows | cloud/sapcu/main.py:137-139 | the in-place loop leaves every row at `row * scale + loc` |
| Upsample.RestoreUndoesNormalise | cloud/sapcu/main.py:137-139 | denormalising undoes normalising, row by row |
| Upsample.Trunc | cloud/sapcu/main.py:63-65 | storing a float into an integer array truncates toward zero |
| Upsample.NormaliseRowsAsWritten | cloud/sapcu/main.py:63-65 | the loop as written leaves every row as stored through the parsed array's element type |
| Upsample.FloatRowsNormalised | cloud/sapcu/main.py:62-65 | on a float array the loop as written is the intended normalisation |
| Upsample.TwoCornerBox | cloud/sapcu/main.py:53-59 | the box of two ordered corners has those corners |
| Upsample.CornerTruncated | cloud/sapcu/main.py:63-65 | a unit-cube corner truncates to the origin around `loc = (1/2, 1/2, 1/2)` |
| Upsample.UnitCorners | cloud/sapcu/main.py:53-61 | the cloud `(0,0,0), (1,1,1)` has `loc = (1/2,1/2,1/2)` and `scale = 1` |
| Upsample.IntegralRowsCollapse | cloud/sapcu/main.py:49-65 | for integer JSON, the corners `(0,0,0)` and `(1,1,1)` both end at the origin, where the normalisation puts them at opposite corners |
| Upsample.AccumulateNormals | cloud/sapcu/main.py:87-103 | the accumulated `normal` is every part's normals, appended in part order |
| Upsample.OffsetParts | cloud/sapcu/main.py:108-122 | `xyzout` is every part's moved seeds, appended in part order |
| Upsample.NormalsAlignWithSeeds | cloud/sapcu/main.py:84-122 | re-splitting the normals lines normal part `i` up with seed part `i`. The moved points are, in seed order, each seed moved along its own normal |
| Upsample.FloatInputNormalised | cloud/sapcu/main.py:49-65 | on a table with a float, the rows as written are the intended normalised cloud `(p - loc) / scale` |
| Upsample.EndpointsAgreeOnFloatInput | cloud/sapcu/main.py:49-65 | on a table with a float, the endpoint as written and the corrected endpoint give the same answer |
| Upsample.NormalisedCopy | cloud/sapcu/main.py:53-65 | the in-place normalisation yields, as written, every row stored through the table's element type, and corrected, `(p - loc) / scale` for every row |
| Upsample.OffsetSeeds | cloud/sapcu/main.py:83-122 | split, accumulate, re-split and offset yield each seed moved along its own normal, in seed order |
| Upsample.RestoreAndSample | cloud/sapcu/main.py:135-143 | the kept points moved back, then 8192 farthest-point picks of them; nothing kept raises |
| Upsample.Predict | cloud/sapcu/main.py:43-149 | the endpoint, with in-place loops and part-wise passes, answers as the whole-request reference `UpsampleSpec`, as written or corrected |
| Upsample.SuccessShape | cloud/sapcu/main.py:83-143 | in both versions, a successful answer has exactly 8192 points, each a kept point moved back. At least 400 seeds and 100 input points were available |
| Upsample.ShortInputsRejected | cloud/sapcu/main.py:83-90 | fewer than 400 seeds, or fewer than 100 input points, are answered 500 before any network runs, in both versions |

## Left out

- Storage, file I/O, the seed generator `./dense`, the KD-tree queries, both networks, `custom_marching_cube` and trimesh's repair are oracles. The model states what is done with their results, not what they compute.
- The networks and nearest-distance queries are assumed to answer each query point independently of the batch it arrives in. Under that assumption, batched and unbatched evaluation agree.
- `rotation_matrix_from_vectors` and the rotation of each neighbourhood (`cloud/sapcu/main.py:112-114`) are folded into the length oracle, which receives the neighbourhood and the normal.
- Floating-point arithmetic, including the `float32` conversions before the networks, is modelled with exact reals.
- A cloud whose bounding box is a single point divides by `scale = 0`. numpy carries NaN and infinities on from there; the model stops with `OutsideModel`.
- Error bodies keep the status and the `error` text of the meshing service. The `stacktrace` field and all logging are left out.
- The upsampling service answers every exception with 500 and `str(e)`. The model names the failing step (`Failure`) instead of the exception's text.
- A `file_path` that is not a string and a `res` that is neither null nor an integer are left out. `res` is an unbounded integer.
- `str.lower()` is modelled on ASCII letters only. The non-ASCII characters that lower to ASCII letters cannot form `.ply`, so acceptance is unaffected.
- The health route, model loading at startup, `torch.seed()` and the random start draw are left out. The draw is overwritten by `N / 2` before use.
- `cloud/GeoUDF/main.py` line 69-74 (mesh loading and normal estimation) is part of the load oracle.
- Upsample.AccumulateNormals: requires at least one part. With zero parts the source leaves `normal` as `None`; the endpoint rejects that case earlier (`pp == 0`).
- Upsample.Trunc: states the truncation bounds rather than integrality of the result.
- Fps.MinDist: its own contract states only the range `[0, 1e32]`. The minimum property is the separate lemma `Fps.MinDistIsMinimum`.

## Findings

| source | as written | input that shows it | evidently intended | confidence | as-written member | corrected member |
|---|---|---|---|---|---|---|
| cloud/GeoUDF/main.py:62-66 with 179-189 | the `HTTPException(400)` raised for a missing `file_path` or a non-`.ply` file is an `Exception`, so the generic handler catches it and answers 500 "Unexpected error: 400: ..." | body `{"file_path": "scan.txt"}` | 400 with the detail "Only .ply files are supported" | high, not executed | UdfService.HandleAsWritten, UdfService.BadRequestBecomesServerError | UdfService.Handle |
| cloud/sapcu/main.py:49-50 with 63-65 | when every number in the request is an integer, `np.asarray` builds an integer array and `cloud` is a view of it. Assigning the float rows back truncates them toward zero | rows `[[0,0,0],[1,1,1]]`: both rows become `(0,0,0)` | the rows become `(-1/2,-1/2,-1/2)` and `(1/2,1/2,1/2)`, as for a float array | high, not executed | Upsample.NormaliseRowsAsWritten, Upsample.IntegralRowsCollapse | Upsample.NormaliseRows, Upsample.FloatRowsNormalised |
