/**
 * The two batched passes of the UDF meshing service over the flattened grid:
 * a coarse pass that fills every grid point with the distance to the nearest
 * input point, and a refined pass that overwrites distance and gradient with
 * the network's prediction inside the narrow band `udf < 2 * voxel_size`.
 */
module UdfPasses {
  import opened Vec
  import opened Batching
  import opened Masks

  /** One batched oracle call: one result per query point, in query order. */
  function Query<R>(f: Vec3 -> R, pts: seq<Vec3>): (r: seq<R>)
    ensures |r| == |pts|
    ensures forall t :: 0 <= t < |pts| ==> r[t] == f(pts[t])
  {
    seq(|pts|, t requires 0 <= t < |pts| => f(pts[t]))
  }

  /**
   * The coarse loop: chunk by chunk, `udf[head:min(head + max_batch, N^3)] =
   * nearest(grid[head:...])`. Whatever the chunk size, the buffer ends up
   * holding the unchunked per-point evaluation, and the chunks the loop
   * takes are exactly the schedule `Chunks`.
   */
  method CoarsePass(udf: array<real>, grid: seq<Vec3>, nearest: Vec3 -> real, maxBatch: nat)
    returns (ghost schedule: seq<Chunk>)
    requires udf.Length == |grid| && maxBatch > 0
    modifies udf
    ensures udf[..] == Query(nearest, grid)
    ensures schedule == Chunks(|grid|, maxBatch)
  {
    var num := |grid|;
    var head := 0;
    schedule := [];
    while head < num
      invariant forall p :: 0 <= p < MinNat(head, num) ==> udf[p] == nearest(grid[p])
      invariant schedule + ChunksFrom(num, maxBatch, head) == Chunks(num, maxBatch)
      decreases num - head
    {
      var hi := MinNat(head + maxBatch, num);
      var df := Query(nearest, grid[head..hi]);
      forall p | head <= p < hi {
        udf[p] := df[p - head];
      }
      assert ChunksFrom(num, maxBatch, head) == [Chunk(head, hi)] + ChunksFrom(num, maxBatch, head + maxBatch);
      schedule := schedule + [Chunk(head, hi)];
      head := head + maxBatch;
    }
    assert udf[..] == Query(nearest, grid);
  }

  /** `udf < voxel_size * 2`: the grid points close enough to the surface to be refined. */
  function NarrowBand(udf: seq<real>, voxelSize: real): (m: seq<bool>)
    ensures |m| == |udf|
  {
    seq(|udf|, p requires 0 <= p < |udf| => udf[p] < voxelSize * 2.0)
  }

  /** `np.where(norm_mask)[0]` lists, in ascending order, exactly the grid points of the narrow band. */
  lemma NarrowBandIndices(udf: seq<real>, voxelSize: real)
    ensures StrictlyIncreasing(Where(NarrowBand(udf, voxelSize)))
    ensures forall p: nat :: p in Where(NarrowBand(udf, voxelSize)) <==> p < |udf| && udf[p] < voxelSize * 2.0
  {
    var w := Where(NarrowBand(udf, voxelSize));
    forall p: nat | p in w ensures p < |udf| && udf[p] < voxelSize * 2.0 {
      var t :| 0 <= t < |w| && w[t] == p;
    }
  }

  /**
   * One step of the refined loop: query the network at the selected grid
   * points and write distance and gradient back at exactly those positions,
   * as `udf[mask] = df` and `grad[mask, :] = df_grad` do.
   */
  method Refine(udf: array<real>, grad: array<Vec3>, grid: seq<Vec3>, sel: seq<nat>, field: Vec3 -> (real, Vec3))
    requires udf.Length == |grid| && grad.Length == |grid|
    requires StrictlyIncreasing(sel)
    requires forall t :: 0 <= t < |sel| ==> sel[t] < |grid|
    modifies udf, grad
    ensures forall p :: 0 <= p < |grid| ==> udf[p] == (if p in sel then field(grid[p]).0 else old(udf[p]))
    ensures forall p :: 0 <= p < |grid| ==> grad[p] == (if p in sel then field(grid[p]).1 else old(grad[p]))
  {
    var res := Query(field, Gather(grid, sel));
    forall t | 0 <= t < |sel| {
      udf[sel[t]] := res[t].0;
    }
    forall t | 0 <= t < |sel| {
      grad[sel[t]] := res[t].1;
    }
  }

  /**
   * Lines 131-133: the mask of one chunk of `norm_idx`, read back as the
   * positions boolean indexing selects. For an ascending chunk these are the
   * chunk itself.
   */
  method SubsetSelection(n: nat, chunk: seq<nat>) returns (sel: seq<nat>)
    requires StrictlyIncreasing(chunk)
    requires forall t :: 0 <= t < |chunk| ==> chunk[t] < n
    ensures sel == chunk
  {
    var mask := MaskOf(n, chunk);
    sel := Where(mask);
    WhereMaskOf(n, chunk);
  }

  /**
   * The refined loop: for each chunk of `norm_idx`, build the mask of that
   * chunk, select the masked positions and refine them. Every listed index is
   * written once, in list order, with the network's value; every other entry
   * of both buffers keeps its value.
   */
  method RefinedPass(udf: array<real>, grad: array<Vec3>, grid: seq<Vec3>, normIdx: seq<nat>,
                     field: Vec3 -> (real, Vec3), maxBatch: nat)
    returns (ghost written: seq<nat>)
    requires udf.Length == |grid| && grad.Length == |grid| && maxBatch > 0
    requires StrictlyIncreasing(normIdx)
    requires forall t :: 0 <= t < |normIdx| ==> normIdx[t] < |grid|
    modifies udf, grad
    ensures forall p :: 0 <= p < |grid| ==> udf[p] == (if p in normIdx then field(grid[p]).0 else old(udf[p]))
    ensures forall p :: 0 <= p < |grid| ==> grad[p] == (if p in normIdx then field(grid[p]).1 else old(grad[p]))
    ensures written == normIdx
  {
    var num := |normIdx|;
    var head := 0;
    written := [];
    while head < num
      invariant written == normIdx[..MinNat(head, num)]
      invariant forall p :: 0 <= p < |grid| ==> udf[p] == (if p in written then field(grid[p]).0 else old(udf[p]))
      invariant forall p :: 0 <= p < |grid| ==> grad[p] == (if p in written then field(grid[p]).1 else old(grad[p]))
      decreases num - head
    {
      var hi := MinNat(head + maxBatch, num);
      var chunk := normIdx[head..hi];
      SliceIncreasing(normIdx, head, hi);
      var sel := SubsetSelection(|grid|, chunk);
      Refine(udf, grad, grid, sel, field);
      assert normIdx[..hi] == written + chunk;
      written := written + sel;
      head := head + maxBatch;
    }
    assert normIdx[..num] == normIdx;
  }

  /**
   * The field both passes compute together, point by point: the network's
   * distance and gradient inside the narrow band of the nearest-point
   * distance, the nearest-point distance and a zero gradient outside it.
   */
  function BandedField(grid: seq<Vec3>, nearest: Vec3 -> real, field: Vec3 -> (real, Vec3), voxelSize: real)
    : (r: (seq<real>, seq<Vec3>))
    ensures |r.0| == |grid| && |r.1| == |grid|
  {
    (seq(|grid|, p requires 0 <= p < |grid| =>
       if nearest(grid[p]) < voxelSize * 2.0 then field(grid[p]).0 else nearest(grid[p])),
     seq(|grid|, p requires 0 <= p < |grid| =>
       if nearest(grid[p]) < voxelSize * 2.0 then field(grid[p]).1 else Zero))
  }

  /**
   * Both passes on zero-initialised buffers: the coarse pass, the narrow-band
   * mask computed once from its result, and the refined pass. The buffers end
   * up holding `BandedField`, whatever the chunk size.
   */
  method ComputeField(grid: seq<Vec3>, nearest: Vec3 -> real, field: Vec3 -> (real, Vec3),
                      voxelSize: real, maxBatch: nat)
    returns (udf: seq<real>, grad: seq<Vec3>)
    requires maxBatch > 0
    ensures (udf, grad) == BandedField(grid, nearest, field, voxelSize)
  {
    var udfBuf := new real[|grid|](_ => 0.0);
    var gradBuf := new Vec3[|grid|](_ => Zero);
    ghost var schedule := CoarsePass(udfBuf, grid, nearest, maxBatch);
    var normIdx := Where(NarrowBand(udfBuf[..], voxelSize));
    NarrowBandIndices(udfBuf[..], voxelSize);
    ghost var written := RefinedPass(udfBuf, gradBuf, grid, normIdx, field, maxBatch);
    udf, grad := udfBuf[..], gradBuf[..];
    var expected := BandedField(grid, nearest, field, voxelSize);
    assert udf == expected.0;
    assert grad == expected.1;
  }
}
