/**
 * Row-major flattening and reshaping, as numpy's `reshape(-1)` and
 * `reshape(N, N, N)` lay out an N x N x N volume.
 */
module Reshape {

  /** `a * b` by repeated addition, so that proofs about rows unfold it one row at a time. */
  function Mul(a: nat, b: nat): nat
  {
    if a == 0 then 0 else b + Mul(a - 1, b)
  }

  lemma {:induction false} MulIsTimes(a: nat, b: nat)
    ensures Mul(a, b) == a * b
  {
    if a > 0 {
      MulIsTimes(a - 1, b);
      assert a * b == b + (a - 1) * b;
    }
  }

  lemma {:induction false} MulMonotone(a: nat, b: nat, m: nat)
    requires a <= b
    ensures Mul(a, m) <= Mul(b, m)
    decreases b
  {
    if a < b { MulMonotone(a, b - 1, m); }
  }

  /** All rows, one after another: `reshape(-1)` of a two-dimensional array. */
  function Concat<T>(rows: seq<seq<T>>): seq<T>
  {
    if |rows| == 0 then [] else rows[0] + Concat(rows[1..])
  }

  /** `count` consecutive rows of length `m`: `reshape(count, m)`. */
  function Rows<T>(flat: seq<T>, m: nat, count: nat): (r: seq<seq<T>>)
    requires |flat| == Mul(count, m)
    ensures |r| == count
    ensures forall t :: 0 <= t < count ==> |r[t]| == m
  {
    if count == 0 then []
    else [flat[..m]] + Rows(flat[m..], m, count - 1)
  }

  /** Entry `r` of row `t` is entry `t*m + r` of the flat sequence. */
  lemma {:induction false} RowAt<T>(flat: seq<T>, m: nat, count: nat, t: nat, r: nat)
    requires |flat| == Mul(count, m) && t < count && r < m
    ensures Mul(t, m) + r < |flat|
    ensures Rows(flat, m, count)[t][r] == flat[Mul(t, m) + r]
  {
    var rows := Rows(flat, m, count);
    if t == 0 {
      assert rows[0] == flat[..m];
    } else {
      var tail := flat[m..];
      RowAt(tail, m, count - 1, t - 1, r);
      assert rows[t] == Rows(tail, m, count - 1)[t - 1];
    }
  }

  /** Splitting into rows and concatenating them again gives the sequence back. */
  lemma {:induction false} ConcatRows<T>(flat: seq<T>, m: nat, count: nat)
    requires |flat| == Mul(count, m)
    ensures Concat(Rows(flat, m, count)) == flat
  {
    if count > 0 {
      var rows := Rows(flat, m, count);
      assert rows[0] == flat[..m] && rows[1..] == Rows(flat[m..], m, count - 1);
      ConcatRows(flat[m..], m, count - 1);
      assert flat == flat[..m] + flat[m..];
    }
  }

  /** Concatenating rows of length `m` and splitting again gives the rows back. */
  lemma {:induction false} RowsConcat<T>(rows: seq<seq<T>>, m: nat)
    requires forall t :: 0 <= t < |rows| ==> |rows[t]| == m
    ensures |Concat(rows)| == Mul(|rows|, m)
    ensures Rows(Concat(rows), m, |rows|) == rows
  {
    if |rows| > 0 {
      RowsConcat(rows[1..], m);
      var flat := Concat(rows);
      assert flat == rows[0] + Concat(rows[1..]);
      assert flat[..m] == rows[0] && flat[m..] == Concat(rows[1..]);
      assert rows == [rows[0]] + rows[1..];
    }
  }

  /** An `n x n x n` volume. */
  ghost predicate IsCube<T>(v: seq<seq<seq<T>>>, n: nat)
  {
    |v| == n && forall i :: 0 <= i < n ==> |v[i]| == n && forall j :: 0 <= j < n ==> |v[i][j]| == n
  }

  /** `N**3`. */
  function Cube(n: nat): nat { n * (n * n) }

  /** Row-major flat index of voxel `(i, j, k)`. */
  function FlatIndex(n: nat, i: nat, j: nat, k: nat): nat
  {
    i * (n * n) + j * n + k
  }

  lemma CubeIsMul(n: nat)
    ensures Mul(n, Mul(n, n)) == Cube(n) && Mul(n, n) == n * n
  {
    MulIsTimes(n, n);
    MulIsTimes(n, n * n);
  }

  /** `reshape(-1)` of an `n x n x n` volume. */
  function Flatten<T>(v: seq<seq<seq<T>>>, n: nat): seq<T>
    requires IsCube(v, n)
  {
    Concat(seq(n, i requires 0 <= i < n => Concat(v[i])))
  }

  /** `reshape(n, n, n)` of a flat sequence of `n^3` entries. */
  function Unflatten<T>(flat: seq<T>, n: nat): (v: seq<seq<seq<T>>>)
    requires |flat| == Cube(n)
    ensures IsCube(v, n)
  {
    CubeIsMul(n);
    var planes := Rows(flat, Mul(n, n), n);
    seq(n, i requires 0 <= i < n => Rows(planes[i], n, n))
  }

  /** The flat index of `(i, j, k)` in terms of `Mul`, and the in-plane offset stays inside a plane. */
  lemma FlatIndexIsMul(n: nat, i: nat, j: nat, k: nat)
    requires i < n && j < n && k < n
    ensures Mul(j, n) + k < Mul(n, n)
    ensures Mul(i, Mul(n, n)) + (Mul(j, n) + k) == FlatIndex(n, i, j, k)
  {
    MulMonotone(j + 1, n, n);
    CubeIsMul(n);
    MulIsTimes(j, n);
    MulIsTimes(i, n * n);
  }

  /** Entry `(i, j, k)` of the reshaped volume is entry `i*n*n + j*n + k` of the flat sequence. */
  lemma UnflattenAt<T>(flat: seq<T>, n: nat, i: nat, j: nat, k: nat)
    requires |flat| == Cube(n) && i < n && j < n && k < n
    ensures FlatIndex(n, i, j, k) < Cube(n)
    ensures Unflatten(flat, n)[i][j][k] == flat[FlatIndex(n, i, j, k)]
  {
    CubeIsMul(n);
    FlatIndexIsMul(n, i, j, k);
    var nn := Mul(n, n);
    var planes := Rows(flat, nn, n);
    RowAt(planes[i], n, n, j, k);
    RowAt(flat, nn, n, i, Mul(j, n) + k);
  }

  /** A flattened volume has exactly `n^3` entries. */
  lemma FlattenLength<T>(v: seq<seq<seq<T>>>, n: nat)
    requires IsCube(v, n)
    ensures |Flatten(v, n)| == Cube(n)
  {
    CubeIsMul(n);
    var planes := seq(n, i requires 0 <= i < n => Concat(v[i]));
    forall i | 0 <= i < n ensures |planes[i]| == Mul(n, n) {
      RowsConcat(v[i], n);
    }
    RowsConcat(planes, Mul(n, n));
  }

  /** Reshaping a flattened volume gives the volume back. */
  lemma UnflattenFlatten<T>(v: seq<seq<seq<T>>>, n: nat)
    requires IsCube(v, n)
    ensures |Flatten(v, n)| == Cube(n)
    ensures Unflatten(Flatten(v, n), n) == v
  {
    FlattenLength(v, n);
    CubeIsMul(n);
    var planes := seq(n, i requires 0 <= i < n => Concat(v[i]));
    forall i | 0 <= i < n ensures |planes[i]| == Mul(n, n) && Rows(planes[i], n, n) == v[i] {
      RowsConcat(v[i], n);
    }
    RowsConcat(planes, Mul(n, n));
  }

  /** Flattening a reshaped sequence gives the sequence back. */
  lemma FlattenUnflatten<T>(flat: seq<T>, n: nat)
    requires |flat| == Cube(n)
    ensures Flatten(Unflatten(flat, n), n) == flat
  {
    CubeIsMul(n);
    var v := Unflatten(flat, n);
    var planes := Rows(flat, Mul(n, n), n);
    var planes' := seq(n, i requires 0 <= i < n => Concat(v[i]));
    forall i | 0 <= i < n ensures planes'[i] == planes[i] {
      ConcatRows(planes[i], n, n);
    }
    assert planes' == planes;
    ConcatRows(flat, Mul(n, n), n);
  }

  /** Entry `i*n*n + j*n + k` of a flattened volume is voxel `(i, j, k)`. */
  lemma FlattenAt<T>(v: seq<seq<seq<T>>>, n: nat, i: nat, j: nat, k: nat)
    requires IsCube(v, n) && i < n && j < n && k < n
    ensures |Flatten(v, n)| == Cube(n) && FlatIndex(n, i, j, k) < Cube(n)
    ensures Flatten(v, n)[FlatIndex(n, i, j, k)] == v[i][j][k]
  {
    UnflattenFlatten(v, n);
    UnflattenAt(Flatten(v, n), n, i, j, k);
  }
}
