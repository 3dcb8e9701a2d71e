/**
 * Axis-aligned bounding box of a point cloud, and the centre/extent pair that
 * both services derive from it to move the cloud into a unit cube.
 */
module Bounds {
  import opened Vec

  /** Coordinate `a` (0, 1 or 2) of a vector, as `cloud[:, a]` selects it. */
  function Axis(v: Vec3, a: nat): real
    requires a < 3
  {
    if a == 0 then v.x else if a == 1 then v.y else v.z
  }

  /** `np.min(cloud[:, a])`: the smallest coordinate on axis `a`. */
  function Min(s: seq<Vec3>, a: nat): (m: real)
    requires |s| > 0 && a < 3
    ensures forall i :: 0 <= i < |s| ==> m <= Axis(s[i], a)
    ensures exists i :: 0 <= i < |s| && m == Axis(s[i], a)
  {
    if |s| == 1 then Axis(s[0], a)
    else
      var m' := Min(s[..|s| - 1], a);
      var last := Axis(s[|s| - 1], a);
      assert forall i :: 0 <= i < |s| - 1 ==> s[..|s| - 1][i] == s[i];
      if last < m' then last else m'
  }

  /** `np.max(cloud[:, a])`: the largest coordinate on axis `a`. */
  function Max(s: seq<Vec3>, a: nat): (m: real)
    requires |s| > 0 && a < 3
    ensures forall i :: 0 <= i < |s| ==> Axis(s[i], a) <= m
    ensures exists i :: 0 <= i < |s| && m == Axis(s[i], a)
  {
    if |s| == 1 then Axis(s[0], a)
    else
      var m' := Max(s[..|s| - 1], a);
      var last := Axis(s[|s| - 1], a);
      assert forall i :: 0 <= i < |s| - 1 ==> s[..|s| - 1][i] == s[i];
      if last > m' then last else m'
  }

  /** Lower corner of the box (`sparse_pc_min`, `bbox[0]`). */
  function Lo(s: seq<Vec3>): Vec3
    requires |s| > 0
  {
    Vec3(Min(s, 0), Min(s, 1), Min(s, 2))
  }

  /** Upper corner of the box (`sparse_pc_max`, `bbox[1]`). */
  function Hi(s: seq<Vec3>): Vec3
    requires |s| > 0
  {
    Vec3(Max(s, 0), Max(s, 1), Max(s, 2))
  }

  /** `(max + min) / 2`: the midpoint of the box (`center`, `loc`). */
  function Center(s: seq<Vec3>): Vec3
    requires |s| > 0
  {
    Div(Add(Hi(s), Lo(s)), 2.0)
  }

  /** `max(max - min)`: the largest axis extent of the box (`scale`). */
  function Extent(s: seq<Vec3>): real
    requires |s| > 0
  {
    var d := Sub(Hi(s), Lo(s));
    Max3(d.x, d.y, d.z)
  }

  /** Every point lies inside its box, and the extent covers every axis. */
  lemma BoxContains(s: seq<Vec3>, i: nat)
    requires i < |s|
    ensures Lo(s).x <= s[i].x <= Hi(s).x
    ensures Lo(s).y <= s[i].y <= Hi(s).y
    ensures Lo(s).z <= s[i].z <= Hi(s).z
    ensures Hi(s).x - Lo(s).x <= Extent(s)
    ensures Hi(s).y - Lo(s).y <= Extent(s)
    ensures Hi(s).z - Lo(s).z <= Extent(s)
    ensures Extent(s) >= 0.0
  {
    assert Axis(s[i], 0) == s[i].x && Axis(s[i], 1) == s[i].y && Axis(s[i], 2) == s[i].z;
  }

  /** The extent is zero exactly when every point of the cloud is the same point. */
  lemma ExtentZeroIff(s: seq<Vec3>)
    requires |s| > 0
    ensures Extent(s) == 0.0 <==> forall i :: 0 <= i < |s| ==> s[i] == s[0]
  {
    if Extent(s) == 0.0 {
      forall i | 0 <= i < |s| ensures s[i] == s[0] {
        BoxContains(s, i);
        BoxContains(s, 0);
      }
    }
    if forall i :: 0 <= i < |s| ==> s[i] == s[0] {
      forall a | 0 <= a < 3 ensures Min(s, a) == Max(s, a) {
        var k :| 0 <= k < |s| && Min(s, a) == Axis(s[k], a);
        var l :| 0 <= l < |s| && Max(s, a) == Axis(s[l], a);
        assert s[k] == s[l];
      }
    }
  }

  /** A coordinate within half the scale of the centre lands in [-1/2, 1/2] once divided by the scale. */
  lemma DivInHalfUnit(d: real, scale: real)
    requires scale > 0.0
    requires -scale / 2.0 <= d <= scale / 2.0
    ensures -0.5 <= d / scale <= 0.5
  {
  }

  /** A coordinate between the ends of an axis lands in [-1/2, 1/2] once centred and divided by the extent. */
  lemma AxisInHalfUnit(v: real, lo: real, hi: real, e: real)
    requires lo <= v <= hi && hi - lo <= e && e > 0.0
    ensures -0.5 <= (v - (hi + lo) / 2.0) / e <= 0.5
  {
    DivInHalfUnit(v - (hi + lo) / 2.0, e);
  }

  /** A point inside the box `[lo, hi]` lands in [-1/2, 1/2]^3 once centred on the box and divided by `e`. */
  lemma BoxInHalfUnit(p: Vec3, lo: Vec3, hi: Vec3, e: real)
    requires lo.x <= p.x <= hi.x && lo.y <= p.y <= hi.y && lo.z <= p.z <= hi.z
    requires hi.x - lo.x <= e && hi.y - lo.y <= e && hi.z - lo.z <= e && e > 0.0
    ensures var q := Div(Sub(p, Div(Add(hi, lo), 2.0)), e);
      && -0.5 <= q.x <= 0.5 && -0.5 <= q.y <= 0.5 && -0.5 <= q.z <= 0.5
  {
    AxisInHalfUnit(p.x, lo.x, hi.x, e);
    AxisInHalfUnit(p.y, lo.y, hi.y, e);
    AxisInHalfUnit(p.z, lo.z, hi.z, e);
  }

  /** `(p - center) / scale` lies in the cube [-1/2, 1/2]^3 for every point of the cloud. */
  lemma NormalisedInUnitCube(s: seq<Vec3>, i: nat)
    requires i < |s| && Extent(s) > 0.0
    ensures var q := Div(Sub(s[i], Center(s)), Extent(s));
      && -0.5 <= q.x <= 0.5 && -0.5 <= q.y <= 0.5 && -0.5 <= q.z <= 0.5
  {
    BoxContains(s, i);
    BoxInHalfUnit(s[i], Lo(s), Hi(s), Extent(s));
  }

  /** `(p - center) / scale`: a point moved into the unit cube around the origin. */
  function Normalise(p: Vec3, center: Vec3, scale: real): Vec3
    requires scale != 0.0
  {
    Div(Sub(p, center), scale)
  }

  /** `p * scale + center`: a point moved back from the unit cube into the input frame. */
  function Restore(p: Vec3, center: Vec3, scale: real): Vec3
  {
    Add(Scale(p, scale), center)
  }

  /** Restoring a normalised point gives the point back. */
  lemma RestoreNormalise(p: Vec3, center: Vec3, scale: real)
    requires scale != 0.0
    ensures Restore(Normalise(p, center, scale), center, scale) == p
  {
    assert (p.x - center.x) / scale * scale == p.x - center.x;
    assert (p.y - center.y) / scale * scale == p.y - center.y;
    assert (p.z - center.z) / scale * scale == p.z - center.z;
  }

  /** Normalising a restored point gives the point back. */
  lemma NormaliseRestore(p: Vec3, center: Vec3, scale: real)
    requires scale != 0.0
    ensures Normalise(Restore(p, center, scale), center, scale) == p
  {
    assert p.x * scale / scale == p.x;
    assert p.y * scale / scale == p.y;
    assert p.z * scale / scale == p.z;
  }

  /** Multiplying by `1 / scale`, as the upsampling service does, is the same normalisation. */
  lemma ScaleByInverse(p: Vec3, center: Vec3, scale: real)
    requires scale != 0.0
    ensures Scale(Sub(p, center), 1.0 / scale) == Normalise(p, center, scale)
  {
    assert (p.x - center.x) * (1.0 / scale) == (p.x - center.x) / scale;
    assert (p.y - center.y) * (1.0 / scale) == (p.y - center.y) / scale;
    assert (p.z - center.z) * (1.0 / scale) == (p.z - center.z) / scale;
  }

  /** `(p - center) / scale` for every point of the cloud: both services' normalisation. */
  function NormaliseCloud(pts: seq<Vec3>): (q: seq<Vec3>)
    requires |pts| > 0 && Extent(pts) != 0.0
    ensures |q| == |pts|
  {
    seq(|pts|, i requires 0 <= i < |pts| => Normalise(pts[i], Center(pts), Extent(pts)))
  }

  /** The normalised cloud lies in the unit cube, and restoring it gives the input cloud back. */
  lemma NormaliseCloudInverse(pts: seq<Vec3>)
    requires |pts| > 0 && Extent(pts) != 0.0
    ensures forall i :: 0 <= i < |pts| ==>
      var q := NormaliseCloud(pts)[i];
      && -0.5 <= q.x <= 0.5 && -0.5 <= q.y <= 0.5 && -0.5 <= q.z <= 0.5
      && Restore(q, Center(pts), Extent(pts)) == pts[i]
  {
    forall i | 0 <= i < |pts|
      ensures var q := NormaliseCloud(pts)[i];
        && -0.5 <= q.x <= 0.5 && -0.5 <= q.y <= 0.5 && -0.5 <= q.z <= 0.5
        && Restore(q, Center(pts), Extent(pts)) == pts[i]
    {
      BoxContains(pts, i);
      NormalisedInUnitCube(pts, i);
      RestoreNormalise(pts[i], Center(pts), Extent(pts));
    }
  }
}
