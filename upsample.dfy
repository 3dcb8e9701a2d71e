/**
 * The `predict` endpoint of the upsampling service: move the cloud into the
 * unit cube, generate dense seed points, push every seed along a predicted
 * normal by a predicted length, drop outliers, move the result back and
 * down-sample it to 8192 points by farthest-point sampling. The seed
 * generator, neighbour queries and both networks are oracles.
 */
module Upsample {
  import opened Wrappers
  import opened Vec
  import opened Bounds
  import opened Reshape
  import opened Masks
  import opened ArraySplit
  import opened Outliers
  import opened Fps

  /** `tpointnumber`: the size of the returned cloud. */
  const TargetPoints: nat := 8192
  /** Seeds per part: `pp = count // 400`. */
  const SeedsPerPart: nat := 400
  /** Neighbours around each seed fed to both networks. */
  const NormalNeighbours: nat := 100
  /** Neighbours whose mean distance decides whether a point is an outlier. */
  const FilterNeighbours: nat := 30
  /** Spacing argument of the seed generator. */
  const SeedSpacing: real := 0.004

  /**
   * The request after `json.loads`: the rows' first three columns, or a body
   * that does not get that far. `integral` holds when every number of the
   * table is a JSON integer, so that `np.asarray` builds an integer array.
   */
  datatype Request = Unparsable | Points(rows: seq<Vec3>, integral: bool)

  /** Which step raised; every exception is answered 500. */
  datatype Failure =
    | BadBody          // missing `instances`, bad JSON, or not a table of at least three columns
    | EmptyCloud       // no rows: the bounding box has nothing to reduce
    | SeedsUnreadable  // the seed generator left no readable `target.xyz`
    | TooFewSeeds      // fewer than 400 seeds: `array_split` into zero parts
    | TooFewPoints     // fewer than 100 input points for the neighbour query
    | NothingKept      // the filter kept nothing: sampling cannot draw a start

  datatype Response = Ok(points: seq<Vec3>) | ServerError(failure: Failure)

  /** An answer, or a run whose arithmetic leaves the reals (a flat cloud divides by zero). */
  datatype Outcome = Answer(response: Response) | OutsideModel

  /** The calls the endpoint makes into code outside this model. */
  datatype Oracles = Oracles(
    densify: (seq<Vec3>, real, nat) -> Result<seq<Vec3>, string>,  // `./dense <spacing> <count>` on the saved cloud
    neighbours: (seq<Vec3>, Vec3, nat) -> seq<Vec3>,              // the `k` nearest cloud points of a query point
    normalNet: seq<Vec3> -> Vec3,                                 // normal from a seed-centred neighbourhood
    lengthNet: (seq<Vec3>, Vec3) -> real,                         // rotation to the normal, then the offset length
    neighbourDistance: (seq<Vec3>, Vec3, nat) -> real)            // distance to the `t`-th nearest point

  /** `data[idx] - seed`: the seed's 100 nearest input points, relative to the seed. */
  function Neighbourhood(o: Oracles, data: seq<Vec3>, seed: Vec3): seq<Vec3>
  {
    Map(o.neighbours(data, seed, NormalNeighbours), q => Sub(q, seed))
  }

  /** The normal predicted at a seed. */
  function NormalAt(o: Oracles, data: seq<Vec3>, seed: Vec3): Vec3
  {
    o.normalNet(Neighbourhood(o, data, seed))
  }

  /** `p + n * length`: a seed moved along a normal by the length predicted for it. */
  function Moved(o: Oracles, data: seq<Vec3>, seed: Vec3, normal: Vec3): Vec3
  {
    Add(seed, Scale(normal, o.lengthNet(Neighbourhood(o, data, seed), normal)))
  }

  /** A seed moved along its own predicted normal. */
  function Offset(o: Oracles, data: seq<Vec3>, seed: Vec3): Vec3
  {
    Moved(o, data, seed, NormalAt(o, data, seed))
  }

  // ----- normalisation and its inverse, row by row in place -----

  /** Lines 63-65, for a floating-point cloud: `cloud[i] = (cloud[i] - loc) * scale1` for every row. */
  method NormaliseRows(cloud: array<Vec3>, loc: Vec3, scale1: real)
    modifies cloud
    ensures forall i :: 0 <= i < cloud.Length ==> cloud[i] == Scale(Sub(old(cloud[i]), loc), scale1)
  {
    for i := 0 to cloud.Length
      invariant forall j :: 0 <= j < i ==> cloud[j] == Scale(Sub(old(cloud[j]), loc), scale1)
      invariant forall j :: i <= j < cloud.Length ==> cloud[j] == old(cloud[j])
    {
      cloud[i] := Sub(cloud[i], loc);
      cloud[i] := Scale(cloud[i], scale1);
    }
  }

  /** Lines 137-139: `pointcloud[i] = pointcloud[i] * scale + loc` for every row. */
  method RestoreRows(cloud: array<Vec3>, scale: real, loc: Vec3)
    modifies cloud
    ensures forall i :: 0 <= i < cloud.Length ==> cloud[i] == Restore(old(cloud[i]), loc, scale)
  {
    for i := 0 to cloud.Length
      invariant forall j :: 0 <= j < i ==> cloud[j] == Restore(old(cloud[j]), loc, scale)
      invariant forall j :: i <= j < cloud.Length ==> cloud[j] == old(cloud[j])
    {
      cloud[i] := Scale(cloud[i], scale);
      cloud[i] := Add(cloud[i], loc);
    }
  }

  /** Restoring a row normalised with `1 / scale` gives the row back: the two loops are inverse. */
  lemma RestoreUndoesNormalise(p: Vec3, loc: Vec3, scale: real)
    requires scale != 0.0
    ensures Restore(Scale(Sub(p, loc), 1.0 / scale), loc, scale) == p
  {
    ScaleByInverse(p, loc, scale);
    RestoreNormalise(p, loc, scale);
  }

  /** Conversion of a float into an integer array entry: truncation toward zero. */
  function Trunc(r: real): (t: real)
    ensures 0.0 <= r ==> 0.0 <= t <= r < t + 1.0
    ensures r < 0.0 ==> t - 1.0 < r <= t <= 0.0
  {
    if r >= 0.0 then r.Floor as real
    else
      var f := (-r).Floor;
      assert f as real <= -r < f as real + 1.0;
      -(f as real)
  }

  /** Truncation sends everything strictly between -1 and 1 to zero. */
  lemma TruncBelowOne(r: real)
    requires -1.0 < r < 1.0
    ensures Trunc(r) == 0.0
  {
    if r >= 0.0 {
      assert r.Floor == 0;
    } else {
      assert (-r).Floor == 0;
    }
  }

  /** Writing a row back into the parsed array, which truncates when the array holds integers. */
  function Store(v: Vec3, integral: bool): Vec3
  {
    if integral then Vec3(Trunc(v.x), Trunc(v.y), Trunc(v.z)) else v
  }

  /** One row of lines 63-65 as written: both assignments store into the parsed array's own type. */
  function NormalisedRowAsWritten(p: Vec3, loc: Vec3, scale1: real, integral: bool): Vec3
  {
    Store(Scale(Store(Sub(p, loc), integral), scale1), integral)
  }

  /**
   * Lines 63-65 as written: `cloud` is a view of the parsed array, which holds
   * integers when every number in the request is an integer.
   */
  method NormaliseRowsAsWritten(cloud: array<Vec3>, loc: Vec3, scale1: real, integral: bool)
    modifies cloud
    ensures forall i :: 0 <= i < cloud.Length ==> cloud[i] == NormalisedRowAsWritten(old(cloud[i]), loc, scale1, integral)
  {
    for i := 0 to cloud.Length
      invariant forall j :: 0 <= j < i ==> cloud[j] == NormalisedRowAsWritten(old(cloud[j]), loc, scale1, integral)
      invariant forall j :: i <= j < cloud.Length ==> cloud[j] == old(cloud[j])
    {
      cloud[i] := Store(Sub(cloud[i], loc), integral);
      cloud[i] := Store(Scale(cloud[i], scale1), integral);
    }
  }

  /** On a floating-point array the loop as written is the intended normalisation. */
  lemma FloatRowsNormalised(p: Vec3, loc: Vec3, scale: real)
    requires scale != 0.0
    ensures NormalisedRowAsWritten(p, loc, 1.0 / scale, false) == Normalise(p, loc, scale)
  {
    ScaleByInverse(p, loc, scale);
  }

  /** The box of two ordered corners has those corners as its lower and upper corner. */
  lemma TwoCornerBox(a: Vec3, b: Vec3)
    requires a.x <= b.x && a.y <= b.y && a.z <= b.z
    ensures Lo([a, b]) == a && Hi([a, b]) == b
  {
    var pts := [a, b];
    assert pts[..1] == [a];
    forall i | 0 <= i < 3 ensures Min(pts, i) == Axis(a, i) && Max(pts, i) == Axis(b, i) {
      assert Min(pts[..1], i) == Axis(a, i) && Max(pts[..1], i) == Axis(a, i);
    }
  }

  /** A row with coordinates 0 or 1 becomes the origin when truncated around `(1/2,1/2,1/2)` with scale 1. */
  lemma CornerTruncated(p: Vec3, loc: Vec3, scale1: real)
    requires p == Vec3(0.0, 0.0, 0.0) || p == Vec3(1.0, 1.0, 1.0)
    requires loc == Vec3(0.5, 0.5, 0.5) && scale1 == 1.0
    ensures NormalisedRowAsWritten(p, loc, scale1, true) == Zero
  {
    TruncBelowOne(-0.5);
    TruncBelowOne(0.5);
    TruncBelowOne(0.0);
  }

  /** The cloud `(0,0,0)`, `(1,1,1)` has centre `(1/2,1/2,1/2)` and extent 1. */
  lemma UnitCorners(pts: seq<Vec3>)
    requires pts == [Vec3(0.0, 0.0, 0.0), Vec3(1.0, 1.0, 1.0)]
    ensures Center(pts) == Vec3(0.5, 0.5, 0.5) && Extent(pts) == 1.0
  {
    TwoCornerBox(pts[0], pts[1]);
    assert pts == [pts[0], pts[1]];
  }

  /**
   * On an integer array the loop as written sends the two corners of the unit
   * cube `(0,0,0)` and `(1,1,1)` to the same point, where the normalisation
   * puts them at opposite corners of the centred cube.
   */
  lemma IntegralRowsCollapse(pts: seq<Vec3>)
    requires pts == [Vec3(0.0, 0.0, 0.0), Vec3(1.0, 1.0, 1.0)]
    ensures Center(pts) == Vec3(0.5, 0.5, 0.5) && Extent(pts) == 1.0
    ensures NormalisedRowAsWritten(pts[0], Center(pts), 1.0 / Extent(pts), true) == Zero
    ensures NormalisedRowAsWritten(pts[1], Center(pts), 1.0 / Extent(pts), true) == Zero
    ensures Normalise(pts[0], Center(pts), Extent(pts)) == Vec3(-0.5, -0.5, -0.5)
    ensures Normalise(pts[1], Center(pts), Extent(pts)) == Vec3(0.5, 0.5, 0.5)
  {
    UnitCorners(pts);
    CornerTruncated(pts[0], Center(pts), 1.0 / Extent(pts));
    CornerTruncated(pts[1], Center(pts), 1.0 / Extent(pts));
  }

  // ----- seeds, normals and offsets, part by part -----

  /** The normals the network predicts for one part of the seeds, in seed order. */
  function PartNormals(o: Oracles, data: seq<Vec3>, part: seq<Vec3>): seq<Vec3>
  {
    Map(part, seed => NormalAt(o, data, seed))
  }

  /**
   * Lines 89-103: the normals of every part, appended part after part (the
   * first part's normals start the array).
   */
  method AccumulateNormals(o: Oracles, data: seq<Vec3>, parts: seq<seq<Vec3>>) returns (normal: seq<Vec3>)
    requires |parts| > 0
    ensures normal == Concat(seq(|parts|, i requires 0 <= i < |parts| => PartNormals(o, data, parts[i])))
  {
    ghost var all := seq(|parts|, i requires 0 <= i < |parts| => PartNormals(o, data, parts[i]));
    normal := [];
    for i := 0 to |parts|
      invariant normal == Concat(all[..i])
    {
      var n := PartNormals(o, data, parts[i]);
      if i == 0 {
        normal := n;
      } else {
        normal := normal + n;
      }
      ConcatSnoc(all, i);
    }
    assert all[..|parts|] == all;
  }

  /** Concatenating one more row appends it. */
  lemma {:induction false} ConcatSnoc<T>(rows: seq<seq<T>>, i: nat)
    requires i < |rows|
    ensures Concat(rows[..i + 1]) == Concat(rows[..i]) + rows[i]
  {
    if i == 0 {
      assert rows[..1] == [rows[0]];
      assert Concat(rows[..1]) == rows[0] + Concat(rows[..1][1..]);
    } else {
      ConcatSnoc(rows[1..], i - 1);
      assert rows[1..][..i] == rows[..i + 1][1..];
      assert rows[1..][..i - 1] == rows[..i][1..];
    }
  }

  /** The moved points of one part: seed `j` pushed along normal `j` of the matching normal part. */
  function MovedPart(o: Oracles, data: seq<Vec3>, seeds: seq<Vec3>, normals: seq<Vec3>): seq<Vec3>
    requires |seeds| == |normals|
  {
    seq(|seeds|, j requires 0 <= j < |seeds| => Moved(o, data, seeds[j], normals[j]))
  }

  /** Lines 108-122: `xyzout.extend(p_split[i] + n_split[i] * length)` for every part, in part order. */
  method OffsetParts(o: Oracles, data: seq<Vec3>, pSplit: seq<seq<Vec3>>, nSplit: seq<seq<Vec3>>)
    returns (xyzout: seq<Vec3>)
    requires |pSplit| == |nSplit|
    requires forall i :: 0 <= i < |pSplit| ==> |pSplit[i]| == |nSplit[i]|
    ensures xyzout == Concat(seq(|pSplit|, i requires 0 <= i < |pSplit| => MovedPart(o, data, pSplit[i], nSplit[i])))
  {
    ghost var all := seq(|pSplit|, i requires 0 <= i < |pSplit| => MovedPart(o, data, pSplit[i], nSplit[i]));
    xyzout := [];
    for i := 0 to |nSplit|
      invariant xyzout == Concat(all[..i])
    {
      xyzout := xyzout + MovedPart(o, data, pSplit[i], nSplit[i]);
      ConcatSnoc(all, i);
    }
    assert all[..|nSplit|] == all;
  }

  /**
   * Splitting the accumulated normals into the same number of parts as the
   * seeds lines normal part `i` up with seed part `i`, so every seed is moved
   * along its own normal, and the moved points come out one per seed, in
   * seed order.
   */
  lemma NormalsAlignWithSeeds(o: Oracles, data: seq<Vec3>, seeds: seq<Vec3>, pp: nat)
    requires pp > 0
    ensures var pSplit := Split(seeds, pp).value;
      var normals := Concat(seq(pp, i requires 0 <= i < pp => PartNormals(o, data, pSplit[i])));
      && Split(normals, pp).Some?
      && Split(normals, pp).value == seq(pp, i requires 0 <= i < pp => PartNormals(o, data, pSplit[i]))
      && Concat(seq(pp, i requires 0 <= i < pp => MovedPart(o, data, pSplit[i], Split(normals, pp).value[i])))
         == Map(seeds, seed => Offset(o, data, seed))
  {
    var pSplit := Split(seeds, pp).value;
    var nParts := seq(pp, i requires 0 <= i < pp => PartNormals(o, data, pSplit[i]));
    SplitOfConcat(nParts, |seeds|);
    var f := seed => Offset(o, data, seed);
    SplitCovers(seeds, pp);
    ConcatMap(pSplit, f);
    var moved := seq(pp, i requires 0 <= i < pp => MovedPart(o, data, pSplit[i], nParts[i]));
    forall i | 0 <= i < pp ensures moved[i] == Map(pSplit[i], f) { }
    assert moved == seq(|pSplit|, i requires 0 <= i < |pSplit| => Map(pSplit[i], f));
  }

  // ----- the outlier filter -----

  /** `tree3.query(xyzout, 30)[0]`: each point's distances to its 30 nearest points. */
  function DistanceRows(o: Oracles, pts: seq<Vec3>): (rows: seq<seq<real>>)
    ensures |rows| == |pts| && Uniform(rows, FilterNeighbours)
  {
    seq(|pts|, i requires 0 <= i < |pts| =>
      seq(FilterNeighbours, t requires 0 <= t < FilterNeighbours => o.neighbourDistance(pts, pts[i], t)))
  }

  /** Lines 128-133: the points whose mean neighbour distance is below 1.5 times the overall mean, in order. */
  function Filter(o: Oracles, pts: seq<Vec3>): seq<Vec3>
    requires |pts| > 0
  {
    Gather(pts, Where(KeepMask(DistanceRows(o, pts), FilterNeighbours)))
  }

  // ----- the whole request -----

  /**
   * Reference for everything after the seeds are read: the part count check,
   * the neighbour-count check, the offsets, the filter, denormalisation and
   * sampling.
   */
  function FromSeeds(o: Oracles, data: seq<Vec3>, seeds: seq<Vec3>, loc: Vec3, scale: real): Response
  {
    if |seeds| / SeedsPerPart == 0 then ServerError(TooFewSeeds)
    else if |data| < NormalNeighbours then ServerError(TooFewPoints)
    else
      var kept := Filter(o, Map(seeds, seed => Offset(o, data, seed)));
      var restored := Map(kept, p => Restore(p, loc, scale));
      if |restored| == 0 then ServerError(NothingKept)
      else Ok(Gather(restored, Picks(restored, TargetPoints)))
  }

  /** Lines 63-65 as written, on every row: the normalisation stored through the parsed array's element type. */
  function NormaliseAsWritten(pts: seq<Vec3>, integral: bool): (q: seq<Vec3>)
    requires |pts| > 0 && Extent(pts) != 0.0
    ensures |q| == |pts|
  {
    seq(|pts|, i requires 0 <= i < |pts| => NormalisedRowAsWritten(pts[i], Center(pts), 1.0 / Extent(pts), integral))
  }

  /** The normalised cloud the rest of the request works on, as written or as intended. */
  function InputData(pts: seq<Vec3>, integral: bool, asWritten: bool): seq<Vec3>
    requires |pts| > 0 && Extent(pts) != 0.0
  {
    if asWritten then NormaliseAsWritten(pts, integral) else NormaliseCloud(pts)
  }

  /** On a floating-point table the rows as written are the intended normalised cloud. */
  lemma FloatInputNormalised(pts: seq<Vec3>)
    requires |pts| > 0 && Extent(pts) != 0.0
    ensures NormaliseAsWritten(pts, false) == NormaliseCloud(pts)
  {
    forall i | 0 <= i < |pts| ensures NormaliseAsWritten(pts, false)[i] == NormaliseCloud(pts)[i] {
      FloatRowsNormalised(pts[i], Center(pts), Extent(pts));
    }
  }

  /**
   * Whole-request reference: the outcome of `predict`, stated on sequences.
   * `asWritten` selects the normalisation loop as written, which truncates an
   * integer table, or as intended.
   */
  function UpsampleSpec(req: Request, o: Oracles, asWritten: bool): Outcome
  {
    match req
    case Unparsable => Answer(ServerError(BadBody))
    case Points(pts, integral) =>
      if |pts| == 0 then Answer(ServerError(EmptyCloud))
      else if Extent(pts) == 0.0 then OutsideModel
      else
        var data := InputData(pts, integral, asWritten);
        match o.densify(data, SeedSpacing, |data|)
        case Failure(_) => Answer(ServerError(SeedsUnreadable))
        case Success(seeds) => Answer(FromSeeds(o, data, seeds, Center(pts), Extent(pts)))
  }

  /** A floating-point table is answered alike by the endpoint as written and as intended. */
  lemma EndpointsAgreeOnFloatInput(pts: seq<Vec3>, o: Oracles)
    ensures UpsampleSpec(Points(pts, false), o, true) == UpsampleSpec(Points(pts, false), o, false)
  {
    if |pts| > 0 && Extent(pts) != 0.0 {
      FloatInputNormalised(pts);
    }
  }

  /**
   * Lines 53-65: the rows copied into an array and normalised there by the
   * loop; as written the array has the parsed table's element type, as
   * intended it holds floats.
   */
  method NormalisedCopy(pts: seq<Vec3>, integral: bool, asWritten: bool) returns (data: seq<Vec3>)
    requires |pts| > 0 && Extent(pts) != 0.0
    ensures data == InputData(pts, integral, asWritten)
  {
    var loc, scale := Center(pts), Extent(pts);
    var cloud := new Vec3[|pts|](i requires 0 <= i < |pts| => pts[i]);
    if asWritten {
      NormaliseRowsAsWritten(cloud, loc, 1.0 / scale, integral);
      data := cloud[..];
      assert data == NormaliseAsWritten(pts, integral);
    } else {
      NormaliseRows(cloud, loc, 1.0 / scale);
      data := cloud[..];
      forall i | 0 <= i < |pts| ensures data[i] == NormaliseCloud(pts)[i] {
        ScaleByInverse(pts[i], loc, scale);
      }
    }
  }

  /** Lines 77-122: every seed pushed along its predicted normal by its predicted length, in seed order. */
  method OffsetSeeds(o: Oracles, data: seq<Vec3>, seeds: seq<Vec3>, pp: nat) returns (xyzout: seq<Vec3>)
    requires pp > 0
    ensures xyzout == Map(seeds, seed => Offset(o, data, seed))
  {
    var pSplit := Split(seeds, pp).value;
    var normal := AccumulateNormals(o, data, pSplit);
    NormalsAlignWithSeeds(o, data, seeds, pp);
    var nSplit := Split(normal, pp).value;
    xyzout := OffsetParts(o, data, pSplit, nSplit);
  }

  /** Lines 137-143: the kept points moved back in place, then 8192 of them chosen by farthest-point sampling. */
  method RestoreAndSample(kept: seq<Vec3>, loc: Vec3, scale: real) returns (r: Response)
    ensures var restored := Map(kept, p => Restore(p, loc, scale));
      r == if |restored| == 0 then ServerError(NothingKept) else Ok(Gather(restored, Picks(restored, TargetPoints)))
  {
    var pointcloud := new Vec3[|kept|](i requires 0 <= i < |kept| => kept[i]);
    RestoreRows(pointcloud, scale, loc);
    var restored := pointcloud[..];
    assert restored == Map(kept, p => Restore(p, loc, scale));
    var centroids := FarthestPointSample(restored, TargetPoints);
    if centroids.None? {
      return ServerError(NothingKept);
    }
    return Ok(Gather(restored, centroids.value));
  }

  /**
   * The endpoint: normalisation and denormalisation loops in place, seeds split
   * into `count // 400` parts, normals accumulated and split alike, offsets
   * appended part by part, the outlier filter and farthest-point sampling.
   */
  method Predict(req: Request, o: Oracles, asWritten: bool) returns (r: Outcome)
    ensures r == UpsampleSpec(req, o, asWritten)
  {
    if req.Unparsable? {
      return Answer(ServerError(BadBody));
    }
    var pts := req.rows;
    if |pts| == 0 {
      return Answer(ServerError(EmptyCloud));
    }
    var loc, scale := Center(pts), Extent(pts);
    if scale == 0.0 {
      return OutsideModel;
    }
    var data := NormalisedCopy(pts, req.integral, asWritten);
    var generated := o.densify(data, SeedSpacing, |data|);
    if generated.Failure? {
      return Answer(ServerError(SeedsUnreadable));
    }
    var seeds := generated.value;
    var pp := |seeds| / SeedsPerPart;
    if pp == 0 {
      return Answer(ServerError(TooFewSeeds));
    }
    if |data| < NormalNeighbours {
      return Answer(ServerError(TooFewPoints));
    }
    var xyzout := OffsetSeeds(o, data, seeds, pp);
    var kept := Filter(o, xyzout);
    var response := RestoreAndSample(kept, loc, scale);
    return Answer(response);
  }

  /**
   * A successful answer has exactly 8192 points, each a filtered point moved
   * back into the input frame; it took at least 400 seeds and at least 100
   * input points, so neither neighbour query ran short.
   */
  lemma SuccessShape(req: Request, o: Oracles, asWritten: bool)
    requires UpsampleSpec(req, o, asWritten).Answer? && UpsampleSpec(req, o, asWritten).response.Ok?
    ensures req.Points? && |req.rows| > 0 && Extent(req.rows) != 0.0
    ensures var data := InputData(req.rows, req.integral, asWritten); o.densify(data, SeedSpacing, |data|).Success?
    ensures var pts := req.rows;
      var data := InputData(pts, req.integral, asWritten);
      var seeds := o.densify(data, SeedSpacing, |data|).value;
      var kept := Filter(o, Map(seeds, seed => Offset(o, data, seed)));
      var out := UpsampleSpec(req, o, asWritten).response.points;
      && |seeds| >= SeedsPerPart && |seeds| >= FilterNeighbours && |pts| >= NormalNeighbours
      && |out| == TargetPoints
      && forall t :: 0 <= t < |out| ==> out[t] in Map(kept, p => Restore(p, Center(pts), Extent(pts)))
  {
    var pts := req.rows;
    var data := InputData(pts, req.integral, asWritten);
    var seeds := o.densify(data, SeedSpacing, |data|).value;
    var kept := Filter(o, Map(seeds, seed => Offset(o, data, seed)));
    var restored := Map(kept, p => Restore(p, Center(pts), Extent(pts)));
    var picks := Picks(restored, TargetPoints);
    var out := Gather(restored, picks);
    forall t | 0 <= t < |out| ensures out[t] in restored {
      assert out[t] == restored[picks[t]];
    }
  }

  /** Fewer than 400 seeds, or fewer than 100 input points, are answered 500 before any network runs. */
  lemma ShortInputsRejected(pts: seq<Vec3>, integral: bool, o: Oracles, asWritten: bool)
    requires |pts| > 0 && Extent(pts) != 0.0
    requires var data := InputData(pts, integral, asWritten); o.densify(data, SeedSpacing, |data|).Success?
    ensures var data := InputData(pts, integral, asWritten);
      var seeds := o.densify(data, SeedSpacing, |data|).value;
      && (|seeds| < SeedsPerPart ==> UpsampleSpec(Points(pts, integral), o, asWritten) == Answer(ServerError(TooFewSeeds)))
      && (|seeds| >= SeedsPerPart && |pts| < NormalNeighbours ==>
            UpsampleSpec(Points(pts, integral), o, asWritten) == Answer(ServerError(TooFewPoints)))
  {
  }
}
