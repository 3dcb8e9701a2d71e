/**
 * Farthest-point sampling of the upsampling service: starting from the
 * middle index, repeatedly pick the point whose squared distance to the
 * points picked so far is largest, keeping a per-point running minimum.
 */
module Fps {
  import opened Vec
  import opened Wrappers

  /** `1e32`: the running minimum before any point is picked. */
  const InitDistance: real := 100000000000000000000000000000000.0

  /**
   * `distance[j]` once the centroids `cs` are picked: `1e32` lowered in turn
   * by the squared distance to each picked point that is strictly smaller.
   */
  function MinDist(xyz: seq<Vec3>, cs: seq<nat>, j: nat): (d: real)
    requires j < |xyz|
    requires forall t :: 0 <= t < |cs| ==> cs[t] < |xyz|
    ensures 0.0 <= d <= InitDistance
  {
    if |cs| == 0 then InitDistance
    else
      var m := MinDist(xyz, cs[..|cs| - 1], j);
      var d := SqDist(xyz[j], xyz[cs[|cs| - 1]]);
      if d < m then d else m
  }

  /**
   * The running minimum is the minimum: no larger than `1e32` or than the
   * squared distance to any picked point, and equal to one of them.
   */
  lemma {:induction false} MinDistIsMinimum(xyz: seq<Vec3>, cs: seq<nat>, j: nat)
    requires j < |xyz|
    requires forall t :: 0 <= t < |cs| ==> cs[t] < |xyz|
    ensures forall t :: 0 <= t < |cs| ==> MinDist(xyz, cs, j) <= SqDist(xyz[j], xyz[cs[t]])
    ensures MinDist(xyz, cs, j) == InitDistance
      || exists t :: 0 <= t < |cs| && MinDist(xyz, cs, j) == SqDist(xyz[j], xyz[cs[t]])
  {
    if |cs| > 0 {
      var cs' := cs[..|cs| - 1];
      MinDistIsMinimum(xyz, cs', j);
      assert forall t :: 0 <= t < |cs'| ==> cs'[t] == cs[t];
      var m := MinDist(xyz, cs', j);
      if m != InitDistance && MinDist(xyz, cs, j) == m {
        var t :| 0 <= t < |cs'| && m == SqDist(xyz[j], xyz[cs'[t]]);
        assert cs[t] == cs'[t];
      }
    }
  }

  /** The whole `distance` array once the centroids `cs` are picked. */
  function Distances(xyz: seq<Vec3>, cs: seq<nat>): (d: seq<real>)
    requires forall t :: 0 <= t < |cs| ==> cs[t] < |xyz|
    ensures |d| == |xyz|
  {
    seq(|xyz|, j requires 0 <= j < |xyz| => MinDist(xyz, cs, j))
  }

  /** `torch.max(distance, -1)[1]`: the first position holding the largest entry. */
  function ArgMax(d: seq<real>): (k: nat)
    requires |d| > 0
    ensures k < |d|
    ensures forall j :: 0 <= j < |d| ==> d[j] <= d[k]
    ensures forall j :: 0 <= j < k ==> d[j] < d[k]
  {
    if |d| == 1 then 0
    else
      var k' := ArgMax(d[..|d| - 1]);
      assert forall j :: 0 <= j < |d| - 1 ==> d[..|d| - 1][j] == d[j];
      if d[|d| - 1] > d[k'] then |d| - 1 else k'
  }

  /** The index picked after `cs`: `N / 2` first, then the farthest point. */
  function Next(xyz: seq<Vec3>, cs: seq<nat>): (k: nat)
    requires |xyz| > 0
    requires forall t :: 0 <= t < |cs| ==> cs[t] < |xyz|
    ensures k < |xyz|
  {
    if |cs| == 0 then |xyz| / 2 else ArgMax(Distances(xyz, cs))
  }

  /** The first `count` picks. */
  function Picks(xyz: seq<Vec3>, count: nat): (cs: seq<nat>)
    requires |xyz| > 0
    ensures |cs| == count
    ensures forall t :: 0 <= t < count ==> cs[t] < |xyz|
  {
    if count == 0 then []
    else
      var cs' := Picks(xyz, count - 1);
      cs' + [Next(xyz, cs')]
  }

  /** `distance[mask] = dist[mask]` with `mask = dist < distance`: lower each entry to `dist` where that is strictly smaller. */
  method Lower(distance: array<real>, dist: seq<real>)
    requires distance.Length == |dist|
    modifies distance
    ensures forall j :: 0 <= j < |dist| ==>
      distance[j] == (if dist[j] < old(distance[j]) then dist[j] else old(distance[j]))
  {
    var current := distance[..];
    var mask := seq(|dist|, j requires 0 <= j < |dist| => dist[j] < current[j]);
    forall j | 0 <= j < |dist| && mask[j] {
      distance[j] := dist[j];
    }
  }

  /**
   * One pass of the loop body after `centroids[i] = farthest`: lower the
   * running minima by the squared distances to the new centroid, then pick
   * the farthest point.
   */
  method Step(xyz: seq<Vec3>, distance: array<real>, ghost cs: seq<nat>, farthest: nat) returns (next: nat)
    requires farthest < |xyz| && distance.Length == |xyz|
    requires forall t :: 0 <= t < |cs| ==> cs[t] < |xyz|
    requires distance[..] == Distances(xyz, cs)
    modifies distance
    ensures distance[..] == Distances(xyz, cs + [farthest])
    ensures next == ArgMax(Distances(xyz, cs + [farthest]))
  {
    ghost var before := distance[..];
    var centroid := xyz[farthest];
    var dist := seq(|xyz|, j requires 0 <= j < |xyz| => SqDist(xyz[j], centroid));
    Lower(distance, dist);
    LowerIsMinDist(xyz, cs, farthest, before, distance[..]);
    next := ArgMax(distance[..]);
  }

  /**
   * `farthest_point_sample(xyz, pointnumber)`: `None` when the cloud is empty,
   * where drawing the random start raises; otherwise the picks, computed with
   * an in-place running minimum that is lowered wherever the new centroid is
   * strictly closer.
   */
  method FarthestPointSample(xyz: seq<Vec3>, pointNumber: nat) returns (r: Option<seq<nat>>)
    ensures r.None? <==> |xyz| == 0
    ensures r.Some? ==> r.value == Picks(xyz, pointNumber)
  {
    var n := |xyz|;
    if n == 0 {
      return None;
    }
    var centroids := new nat[pointNumber](_ => 0);
    var distance := new real[n](_ => InitDistance);
    var farthest := n / 2;
    for i := 0 to pointNumber
      invariant centroids[..i] == Picks(xyz, i)
      invariant distance[..] == Distances(xyz, Picks(xyz, i))
      invariant farthest == Next(xyz, Picks(xyz, i))
    {
      centroids[i] := farthest;
      assert centroids[..i + 1] == centroids[..i] + [farthest];
      farthest := Step(xyz, distance, Picks(xyz, i), farthest);
      PickStep(xyz, i);
    }
    assert centroids[..] == centroids[..pointNumber];
    return Some(centroids[..]);
  }

  /** Pick `i + 1` follows the first `i` picks. */
  lemma PickStep(xyz: seq<Vec3>, i: nat)
    requires |xyz| > 0
    ensures Picks(xyz, i + 1) == Picks(xyz, i) + [Next(xyz, Picks(xyz, i))]
  {
  }

  /** Picking `c` lowers `distance[j]` to the squared distance to `c` exactly when that is strictly smaller. */
  lemma LowerIsMinDist(xyz: seq<Vec3>, cs: seq<nat>, c: nat, before: seq<real>, after: seq<real>)
    requires c < |xyz| && |before| == |xyz| && |after| == |xyz|
    requires forall t :: 0 <= t < |cs| ==> cs[t] < |xyz|
    requires before == Distances(xyz, cs)
    requires forall j :: 0 <= j < |xyz| ==>
      after[j] == (if SqDist(xyz[j], xyz[c]) < before[j] then SqDist(xyz[j], xyz[c]) else before[j])
    ensures after == Distances(xyz, cs + [c])
  {
    assert (cs + [c])[..|cs|] == cs;
  }

  /** The picks are made one after another: the first `i` of `count` picks are the first `i` picks. */
  lemma {:induction false} PicksPrefix(xyz: seq<Vec3>, i: nat, count: nat)
    requires |xyz| > 0 && i <= count
    ensures Picks(xyz, count)[..i] == Picks(xyz, i)
    decreases count
  {
    if i < count {
      PicksPrefix(xyz, i, count - 1);
      assert Picks(xyz, count)[..count - 1] == Picks(xyz, count - 1);
      assert Picks(xyz, count)[..i] == Picks(xyz, count)[..count - 1][..i];
    }
  }

  /** The first pick is the middle index `N / 2`, whatever the random draw gave. */
  lemma FirstPickIsMiddle(xyz: seq<Vec3>, count: nat)
    requires |xyz| > 0 && count > 0
    ensures Picks(xyz, count)[0] == |xyz| / 2
  {
    PicksPrefix(xyz, 1, count);
    assert Picks(xyz, count)[0] == Picks(xyz, count)[..1][0];
  }

  /**
   * Every later pick is a point farthest from the earlier picks, and no point
   * before it in index order is as far.
   */
  lemma PickIsFarthest(xyz: seq<Vec3>, count: nat, i: nat)
    requires |xyz| > 0 && 0 < i < count
    ensures var cs := Picks(xyz, count);
      var d := Distances(xyz, cs[..i]);
      && (forall j :: 0 <= j < |xyz| ==> d[j] <= d[cs[i]])
      && (forall j :: 0 <= j < cs[i] ==> d[j] < d[cs[i]])
  {
    PicksPrefix(xyz, i, count);
    PicksPrefix(xyz, i + 1, count);
    var cs := Picks(xyz, count);
    assert cs[i] == Picks(xyz, i + 1)[i];
  }

  /**
   * Picking another point never raises a running minimum, and changes it only
   * to a strictly smaller squared distance to that point.
   */
  lemma DistanceNeverIncreases(xyz: seq<Vec3>, cs: seq<nat>, c: nat, j: nat)
    requires c < |xyz| && j < |xyz|
    requires forall t :: 0 <= t < |cs| ==> cs[t] < |xyz|
    ensures MinDist(xyz, cs + [c], j) <= MinDist(xyz, cs, j)
    ensures MinDist(xyz, cs + [c], j) != MinDist(xyz, cs, j) ==>
      MinDist(xyz, cs + [c], j) == SqDist(xyz[j], xyz[c]) < MinDist(xyz, cs, j)
  {
    assert (cs + [c])[..|cs|] == cs;
  }

  /** A picked point is at distance zero from the picks. */
  lemma PickedIsAtZero(xyz: seq<Vec3>, cs: seq<nat>, t: nat)
    requires t < |cs|
    requires forall u :: 0 <= u < |cs| ==> cs[u] < |xyz|
    ensures MinDist(xyz, cs, cs[t]) == 0.0
  {
    MinDistIsMinimum(xyz, cs, cs[t]);
  }

  /**
   * A point is picked a second time only when every running minimum is zero,
   * that is, when every point of the cloud has been picked or coincides with a
   * picked point.
   */
  lemma RepeatOnlyWhenExhausted(xyz: seq<Vec3>, count: nat, i: nat)
    requires |xyz| > 0 && 0 < i < count
    requires Picks(xyz, count)[i] in Picks(xyz, count)[..i]
    ensures forall j :: 0 <= j < |xyz| ==> MinDist(xyz, Picks(xyz, count)[..i], j) == 0.0
  {
    var cs := Picks(xyz, count);
    var earlier := cs[..i];
    var t :| 0 <= t < i && earlier[t] == cs[i];
    PickedIsAtZero(xyz, earlier, t);
    PickIsFarthest(xyz, count, i);
    var d := Distances(xyz, earlier);
    assert d[cs[i]] == 0.0;
    forall j | 0 <= j < |xyz| ensures MinDist(xyz, earlier, j) == 0.0 {
      assert d[j] == MinDist(xyz, earlier, j) <= d[cs[i]];
    }
  }
}
