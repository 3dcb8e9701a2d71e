/**
 * The sampling grid of the UDF meshing service: `N^3` points spaced evenly
 * over a cube of side `size = 1.05` centred at the origin, produced by
 * `np.mgrid[:N, :N, :N]` and flattened in row-major order.
 */
module UdfGrid {
  import opened Vec
  import opened Reshape

  /** Side of the sampled cube; it is a little wider than the unit cube the cloud is scaled into. */
  const Size: real := 1.05

  /** `size / (N - 1)`: the spacing of neighbouring grid points along an axis. */
  function VoxelSize(n: nat): real
    requires n != 1
  {
    Size / ((n - 1) as real)
  }

  /** `i / (N - 1) * size - size / 2`: coordinate of grid index `i` along one axis. */
  function Coord(n: nat, i: nat): real
    requires i < n && n != 1
  {
    (i as real) / ((n - 1) as real) * Size - Size / 2.0
  }

  /** The first grid index sits on the lower face of the cube and the last one on the upper face. */
  lemma CoordEnds(n: nat)
    requires n >= 2
    ensures Coord(n, 0) == -Size / 2.0
    ensures Coord(n, n - 1) == Size / 2.0
  {
    var d := (n - 1) as real;
    assert (n - 1) as real / d == 1.0;
  }

  /** Neighbouring grid indices are exactly one voxel apart. */
  lemma CoordStep(n: nat, i: nat)
    requires i + 1 < n
    ensures Coord(n, i + 1) - Coord(n, i) == VoxelSize(n)
  {
    var d := (n - 1) as real;
    assert (i + 1) as real / d == i as real / d + 1.0 / d;
    assert (i as real / d + 1.0 / d) * Size == i as real / d * Size + Size / d;
  }

  /** Every grid coordinate lies in `[-size/2, size/2]`. */
  lemma CoordInCube(n: nat, i: nat)
    requires i < n && n != 1
    ensures -Size / 2.0 <= Coord(n, i) <= Size / 2.0
  {
    var d := (n - 1) as real;
    var f := i as real / d;
    assert 0.0 <= f <= 1.0 by {
      assert i as real <= d;
    }
    assert 0.0 <= f * Size <= Size;
  }

  /** `grids_coords[i, j, k]`: the point of grid cell `(i, j, k)`. */
  function GridPoint(n: nat, i: nat, j: nat, k: nat): Vec3
    requires i < n && j < n && k < n && n != 1
  {
    Vec3(Coord(n, i), Coord(n, j), Coord(n, k))
  }

  /** `grids_coords`: the `N x N x N` volume of grid points. */
  function GridCoords(n: nat): (g: seq<seq<seq<Vec3>>>)
    requires n != 1
    ensures IsCube(g, n)
    ensures forall i, j, k :: 0 <= i < n && 0 <= j < n && 0 <= k < n ==> g[i][j][k] == GridPoint(n, i, j, k)
  {
    seq(n, i requires 0 <= i < n =>
      seq(n, j requires 0 <= j < n =>
        seq(n, k requires 0 <= k < n => GridPoint(n, i, j, k))))
  }

  /** `grids_coords.reshape(-1, 3)`: the grid points in row-major order. */
  function Grid(n: nat): seq<Vec3>
    requires n != 1
  {
    Flatten(GridCoords(n), n)
  }

  /**
   * The flattened grid has `N^3` points, entry `i*N*N + j*N + k` is grid cell
   * `(i, j, k)`, and reshaping it back gives the volume of grid points.
   */
  lemma GridAt(n: nat, i: nat, j: nat, k: nat)
    requires i < n && j < n && k < n && n != 1
    ensures |Grid(n)| == Cube(n) && FlatIndex(n, i, j, k) < Cube(n)
    ensures Grid(n)[FlatIndex(n, i, j, k)] == GridPoint(n, i, j, k)
  {
    FlattenAt(GridCoords(n), n, i, j, k);
  }

  /** The flattened grid has exactly `N^3` points and reshapes back into the grid volume. */
  lemma GridRoundTrip(n: nat)
    requires n != 1
    ensures |Grid(n)| == Cube(n)
    ensures Unflatten(Grid(n), n) == GridCoords(n)
  {
    UnflattenFlatten(GridCoords(n), n);
  }
}
