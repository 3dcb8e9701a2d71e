/**
 * The chunk schedule of a `while head < num_samples` loop that advances
 * `head` by `max_batch` and clips the last chunk at `min(head + max_batch, num_samples)`.
 */
module Batching {

  /** `2**16`: the largest number of queries sent to an oracle at once. */
  const MaxBatch: nat := 65536

  function MinNat(a: nat, b: nat): nat { if a <= b then a else b }

  /** The half-open index range `[lo, hi)` of one batch. */
  datatype Chunk = Chunk(lo: nat, hi: nat)

  /**
   * The ranges `[head, min(head + maxBatch, total))` the loop visits when it
   * starts at `head`, in the order it visits them.
   */
  function ChunksFrom(total: nat, maxBatch: nat, head: nat): (r: seq<Chunk>)
    requires maxBatch > 0
    ensures head < total <==> |r| > 0
    decreases total - head
  {
    if head >= total then []
    else [Chunk(head, MinNat(head + maxBatch, total))] + ChunksFrom(total, maxBatch, head + maxBatch)
  }

  /** The whole schedule of one batched pass over `total` queries. */
  function Chunks(total: nat, maxBatch: nat): seq<Chunk>
    requires maxBatch > 0
  {
    ChunksFrom(total, maxBatch, 0)
  }

  /**
   * Chunks are non-empty, inside `[head, total)` and at most `maxBatch` long;
   * each one starts where the previous one ended, every chunk but the last is
   * exactly `maxBatch` long, and the last one ends at `total`.
   */
  ghost predicate WellShaped(c: seq<Chunk>, head: nat, total: nat, maxBatch: nat)
  {
    && (forall t :: 0 <= t < |c| ==> head <= c[t].lo < c[t].hi <= total && c[t].hi - c[t].lo <= maxBatch)
    && (forall t :: 0 <= t < |c| - 1 ==> c[t].hi == c[t + 1].lo && c[t].hi - c[t].lo == maxBatch)
    && (|c| > 0 ==> c[0].lo == head && c[|c| - 1].hi == total)
  }

  lemma {:induction false} ChunksFromShape(total: nat, maxBatch: nat, head: nat)
    requires maxBatch > 0
    ensures WellShaped(ChunksFrom(total, maxBatch, head), head, total, maxBatch)
    decreases total - head
  {
    if head < total {
      var rest := ChunksFrom(total, maxBatch, head + maxBatch);
      var c := ChunksFrom(total, maxBatch, head);
      assert c == [Chunk(head, MinNat(head + maxBatch, total))] + rest;
      ChunksFromShape(total, maxBatch, head + maxBatch);
      forall t | 1 <= t < |c| ensures c[t] == rest[t - 1] { }
      if |rest| > 0 {
        assert c[1] == rest[0];
      }
    }
  }

  /** The schedule of a whole pass is well shaped and starts at index 0. */
  lemma ChunksShape(total: nat, maxBatch: nat)
    requires maxBatch > 0
    ensures WellShaped(Chunks(total, maxBatch), 0, total, maxBatch)
  {
    ChunksFromShape(total, maxBatch, 0);
  }

  /**
   * The number of chunks is `ceil((total - head) / maxBatch)`, whether or not
   * `maxBatch` divides `total - head`.
   */
  lemma {:induction false} ChunkCount(total: nat, maxBatch: nat, head: nat)
    requires maxBatch > 0 && head < total
    ensures var k := |ChunksFrom(total, maxBatch, head)|;
      (k - 1) * maxBatch < total - head <= k * maxBatch
    decreases total - head
  {
    var rest := ChunksFrom(total, maxBatch, head + maxBatch);
    assert |ChunksFrom(total, maxBatch, head)| == |rest| + 1;
    if head + maxBatch < total {
      ChunkCount(total, maxBatch, head + maxBatch);
      var k := |rest|;
      assert (k + 1) * maxBatch == k * maxBatch + maxBatch;
      assert (k - 1) * maxBatch == k * maxBatch - maxBatch;
    }
  }

  /** The indices `[lo, hi)` in increasing order. */
  function Range(lo: nat, hi: nat): (r: seq<nat>)
    requires lo <= hi
    ensures |r| == hi - lo
    ensures forall i :: 0 <= i < |r| ==> r[i] == lo + i
  {
    seq(hi - lo, i requires 0 <= i < hi - lo => lo + i)
  }

  /** The indices of all chunks, one chunk after another. */
  function Visited(chunks: seq<Chunk>): seq<nat>
  {
    if |chunks| == 0 then []
    else Indices(chunks[0]) + Visited(chunks[1..])
  }

  /** The indices of one chunk, in increasing order. */
  function Indices(c: Chunk): seq<nat>
  {
    if c.lo <= c.hi then Range(c.lo, c.hi) else []
  }

  lemma RangeConcat(lo: nat, mid: nat, hi: nat)
    requires lo <= mid <= hi
    ensures Range(lo, mid) + Range(mid, hi) == Range(lo, hi)
  {
  }

  lemma VisitedCons(c: Chunk, rest: seq<Chunk>)
    requires c.lo <= c.hi
    ensures Visited([c] + rest) == Range(c.lo, c.hi) + Visited(rest)
  {
    assert ([c] + rest)[0] == c && ([c] + rest)[1..] == rest;
  }

  /** Visiting the chunks touches every index of `[head, total)` exactly once, in increasing order. */
  lemma {:induction false} VisitedFrom(total: nat, maxBatch: nat, head: nat)
    requires maxBatch > 0 && head <= total
    ensures Visited(ChunksFrom(total, maxBatch, head)) == Range(head, total)
    decreases total - head
  {
    if head < total {
      var hi := MinNat(head + maxBatch, total);
      var rest := ChunksFrom(total, maxBatch, head + maxBatch);
      VisitedCons(Chunk(head, hi), rest);
      if head + maxBatch < total {
        VisitedFrom(total, maxBatch, head + maxBatch);
        RangeConcat(head, hi, total);
      } else {
        assert Visited(rest) == [];
      }
    }
  }

  /** A whole pass visits `0, 1, ..., total - 1`: each index exactly once, in increasing order. */
  lemma VisitsAllInOrder(total: nat, maxBatch: nat)
    requires maxBatch > 0
    ensures Visited(Chunks(total, maxBatch)) == Range(0, total)
  {
    VisitedFrom(total, maxBatch, 0);
  }
}
