/**
 * The `predict` endpoint of the UDF meshing service: validate the request,
 * load the cloud, move it into the unit cube, sample an unsigned distance
 * field on an `N x N x N` grid, mesh it, and move the mesh back into the
 * input frame. Storage, the networks and marching cubes are oracles.
 */
module UdfService {
  import opened Wrappers
  import opened Vec
  import opened Bounds
  import opened Reshape
  import opened Batching
  import opened UdfGrid
  import opened UdfPasses

  /** The `res` field of the body: missing, JSON `null`, or an integer. */
  datatype ResField = Absent | Null | Given(value: int)

  /** The request body as the endpoint receives it. */
  datatype Body =
    | NotJson                                              // `request.json()` raises a ValueError
    | NotObject(typeName: string)                          // valid JSON that has no `.get`
    | Object(filePath: Option<string>, res: ResField)      // a JSON object; a null `file_path` reads as a missing one

  /** What the body of the `try` block can raise. */
  datatype Raised =
    | BadRequest(detail: string)   // `HTTPException(status_code=400, detail=...)`
    | ValueFailure                 // a `ValueError`, from JSON parsing or numpy
    | Unexpected(message: string)  // any other exception, with its `str`

  /** What the client receives. */
  datatype Response = Ok(filePath: string) | Error(status: nat, error: string)

  /** An answer, or a run whose arithmetic leaves the reals (a flat cloud divides by zero). */
  datatype Outcome = Answer(response: Response) | OutsideModel

  /** `str(e)`; an `HTTPException` prints as `"<status>: <detail>"`. */
  function Message(e: Raised): string
  {
    match e
    case BadRequest(d) => "400: " + d
    case ValueFailure => ""
    case Unexpected(m) => m
  }

  /**
   * The two `except` clauses as written: a `ValueError` becomes 400 "Invalid
   * JSON format" and every other exception becomes 500, the endpoint's own
   * `HTTPException(400)` included, since it is itself an `Exception`.
   */
  function HandleAsWritten(e: Raised): (r: Response)
    ensures r.Error?
    ensures r.status == 400 <==> e.ValueFailure?
    ensures r.status == 500 <==> !e.ValueFailure?
  {
    match e
    case ValueFailure => Error(400, "Invalid JSON format")
    case _ => Error(500, "Unexpected error: " + Message(e))
  }

  /**
   * The handlers as intended: an `HTTPException` raised on purpose reaches the
   * client with its own status and detail; the other two clauses are unchanged.
   */
  function Handle(e: Raised): (r: Response)
    ensures r.Error?
    ensures r.status == 400 <==> !e.Unexpected?
    ensures r.status == 500 <==> e.Unexpected?
    ensures e.BadRequest? ==> r.error == e.detail
  {
    match e
    case BadRequest(d) => Error(400, d)
    case ValueFailure => Error(400, "Invalid JSON format")
    case Unexpected(m) => Error(500, "Unexpected error: " + m)
  }

  /** The `except` clauses in force: as written, or as intended. */
  function Respond(e: Raised, asWritten: bool): Response
  {
    if asWritten then HandleAsWritten(e) else Handle(e)
  }

  /** As written, a rejected request is answered 500 with the status folded into the message. */
  lemma BadRequestBecomesServerError(d: string)
    ensures HandleAsWritten(BadRequest(d)) == Error(500, "Unexpected error: 400: " + d)
    ensures Handle(BadRequest(d)) == Error(400, d)
    ensures HandleAsWritten(BadRequest(d)) != Handle(BadRequest(d))
  {
  }

  /** Apart from the endpoint's own `HTTPException`, the corrected handlers answer as written. */
  lemma HandlersAgreeOtherwise(e: Raised)
    ensures Handle(e) == HandleAsWritten(e) <==> !e.BadRequest?
  {
  }

  /** `str.rfind(c)`: the last position of `c` in `s`, or -1. */
  function RFind(s: string, c: char): (i: int)
    ensures -1 <= i < |s|
    ensures i >= 0 ==> s[i] == c
    ensures forall j :: i < j < |s| ==> s[j] != c
  {
    if |s| == 0 then -1
    else if s[|s| - 1] == c then |s| - 1
    else RFind(s[..|s| - 1], c)
  }

  /**
   * `os.path.splitext(p)[1]` with `/` as separator: from the last `.` of the
   * last path component to the end, unless that component has nothing but
   * dots before it (a leading dot marks a hidden file, not an extension).
   */
  function Extension(p: string): (ext: string)
  {
    var sep := RFind(p, '/');
    var dot := RFind(p, '.');
    if dot > sep && exists k :: sep < k < dot && p[k] != '.' then p[dot..] else ""
  }

  /** The extension is a suffix of the path that is empty or one `.` followed by neither `.` nor `/`. */
  lemma ExtensionShape(p: string)
    ensures var ext := Extension(p);
      && |ext| <= |p| && ext == p[|p| - |ext|..]
      && (ext == [] || (ext[0] == '.' && forall j :: 1 <= j < |ext| ==> ext[j] != '.' && ext[j] != '/'))
  {
  }

  /** A last component `name.suffix` whose name does not end in `.` or `/` has extension `.suffix`. */
  lemma ExtensionOfName(stem: string, suffix: string)
    requires |stem| > 0 && stem[|stem| - 1] != '.' && stem[|stem| - 1] != '/'
    requires forall j :: 0 <= j < |suffix| ==> suffix[j] != '.' && suffix[j] != '/'
    ensures Extension(stem + "." + suffix) == "." + suffix
  {
    var p := stem + "." + suffix;
    assert p[|stem|] == '.';
    assert RFind(p, '.') == |stem|;
    assert p[|stem| - 1] == stem[|stem| - 1];
    assert RFind(p, '/') < |stem| - 1;
    assert p[|stem|..] == "." + suffix;
  }

  /** A file named only `.ply`, with or without a directory, has no extension. */
  lemma HiddenPlyHasNoExtension(dir: string)
    requires |dir| > 0 ==> dir[|dir| - 1] == '/'
    ensures Extension(dir + ".ply") == ""
  {
    var p := dir + ".ply";
    assert p[|dir|] == '.' && p[|dir| + 1..] == "ply";
    assert RFind(p, '.') == |dir|;
    assert |dir| > 0 ==> p[|dir| - 1] == '/';
    assert RFind(p, '/') == |dir| - 1;
  }

  /** `str.lower()` on ASCII letters. */
  function Lower(s: string): (r: string)
    ensures |r| == |s|
  {
    seq(|s|, i requires 0 <= i < |s| => if 'A' <= s[i] <= 'Z' then (s[i] as int + 32) as char else s[i])
  }

  /** `os.path.splitext(file_path)[1].lower() == '.ply'`. */
  predicate IsPly(p: string)
  {
    Lower(Extension(p)) == ".ply"
  }

  /** Upper-case and mixed-case `.PLY` extensions are accepted like `.ply`. */
  lemma PlyAnyCase(stem: string, e: string)
    requires |stem| > 0 && stem[|stem| - 1] != '.' && stem[|stem| - 1] != '/'
    requires e in {"ply", "PLY", "Ply", "pLY", "plY", "PlY", "pLy", "PLy"}
    ensures IsPly(stem + "." + e)
  {
    ExtensionOfName(stem, e);
    assert Lower("." + e) == ".ply";
  }

  /** The default grid resolution when `res` is absent. */
  const DefaultRes: int := 128

  const MissingPath: string := "file_path is required"
  const NotPly: string := "Only .ply files are supported"
  /** `str` of the `TypeError` that `None - 1` raises. */
  const NoneMinusInt: string := "unsupported operand type(s) for -: 'NoneType' and 'int'"

  /** `body.get("res", 128)`: the default when the field is missing, `None` when it is `null`. */
  function ResolveRes(res: ResField): (n: Option<int>)
    ensures res.Absent? ==> n == Some(DefaultRes)
    ensures res.Null? ==> n == None
    ensures res.Given? ==> n == Some(res.value)
  {
    match res
    case Absent => Some(DefaultRes)
    case Null => None
    case Given(k) => Some(k)
  }

  /**
   * The checks before anything is downloaded: the body must parse, must be an
   * object, must name a non-empty `file_path` with extension `.ply` in any case;
   * `res` defaults to 128 and is not checked.
   */
  function Validate(body: Body): (r: Result<(string, Option<int>), Raised>)
    ensures r.Success? <==> body.Object? && body.filePath.Some? && body.filePath.value != "" && IsPly(body.filePath.value)
    ensures r.Success? ==> r.value.0 == body.filePath.value
    ensures r.Success? ==> r.value.1 == ResolveRes(body.res)
    ensures r.Success? ==> (r.value.1 == None <==> body.res.Null?)
    ensures body.Object? && (body.filePath.None? || body.filePath.value == "") ==> r == Failure(BadRequest(MissingPath))
    ensures body.Object? && body.filePath.Some? && body.filePath.value != "" && !IsPly(body.filePath.value) ==>
      r == Failure(BadRequest(NotPly))
    ensures body.NotJson? ==> r == Failure(ValueFailure)
  {
    match body
    case NotJson => Failure(ValueFailure)
    case NotObject(t) => Failure(Unexpected("'" + t + "' object has no attribute 'get'"))
    case Object(filePath, res) =>
      if filePath.None? || filePath.value == "" then Failure(BadRequest(MissingPath))
      else if !IsPly(filePath.value) then Failure(BadRequest(NotPly))
      else Success((filePath.value, ResolveRes(res)))
  }

  /** A loaded point cloud with its estimated normals. */
  datatype Scan = Scan(points: seq<Vec3>, normals: seq<Vec3>)

  /** A triangle mesh: vertices and index triples. */
  datatype Mesh = Mesh(vertices: seq<Vec3>, faces: seq<(nat, nat, nat)>)

  /** The calls the endpoint makes into code outside this model; an error carries the exception's text. */
  datatype Oracles = Oracles(
    load: string -> Result<Scan, string>,          // download, then load and estimate normals
    nearest: (seq<Vec3>, Vec3) -> real,            // distance from a query point to the nearest cloud point
    field: (Scan, Vec3) -> (real, Vec3),           // the network's distance and gradient at a query point
    march: (seq<seq<seq<Vec3>>>, seq<seq<seq<real>>>, seq<seq<seq<Vec3>>>, real, nat) -> Mesh,
    repair: Mesh -> Mesh,                          // duplicate and degenerate face removal, hole filling
    store: Mesh -> Result<string, string>)         // export and upload; the stored path

  /** `vs * scale + center`: the mesh moved back into the input frame, faces unchanged. */
  function RestoreMesh(m: Mesh, center: Vec3, scale: real): (r: Mesh)
    ensures |r.vertices| == |m.vertices| && r.faces == m.faces
  {
    Mesh(seq(|m.vertices|, i requires 0 <= i < |m.vertices| => Restore(m.vertices[i], center, scale)), m.faces)
  }

  /** Moving the mesh back is undone by normalising its vertices again with the same center and scale. */
  lemma RestoreMeshInverse(m: Mesh, center: Vec3, scale: real)
    requires scale != 0.0
    ensures var r := RestoreMesh(m, center, scale);
      forall i :: 0 <= i < |m.vertices| ==> Normalise(r.vertices[i], center, scale) == m.vertices[i]
  {
    var r := RestoreMesh(m, center, scale);
    forall i | 0 <= i < |m.vertices| ensures Normalise(r.vertices[i], center, scale) == m.vertices[i] {
      NormaliseRestore(m.vertices[i], center, scale);
    }
  }

  /** The mesh marching cubes builds from the sampled field, in the normalised frame. */
  function MarchField(o: Oracles, n: nat, udf: seq<real>, grad: seq<Vec3>): Mesh
    requires n != 1 && |udf| == Cube(n) && |grad| == Cube(n)
  {
    o.march(GridCoords(n), Unflatten(udf, n), Unflatten(grad, n), VoxelSize(n), n)
  }

  /**
   * Reference for lines 76-166 on a usable cloud and resolution: normalise,
   * evaluate the banded field on the grid, march, move the mesh back, repair
   * and store it. A failing upload is answered by the handlers in force.
   */
  function Reconstruction(o: Oracles, scan: Scan, n: int, asWritten: bool): Response
    requires |scan.points| > 0 && Extent(scan.points) != 0.0 && n >= 0 && n != 1
  {
    var pts := scan.points;
    var cloud := Scan(NormaliseCloud(pts), scan.normals);
    var grid := Grid(n);
    GridRoundTrip(n);
    var f := BandedField(grid, q => o.nearest(cloud.points, q), q => o.field(cloud, q), VoxelSize(n));
    var mesh := RestoreMesh(MarchField(o, n, f.0, f.1), Center(pts), Extent(pts));
    match o.store(o.repair(mesh))
    case Success(url) => Ok(url)
    case Failure(m) => Respond(Unexpected(m), asWritten)
  }

  /** Lines 76-166: the reconstruction itself, with the grid evaluated batch by batch. */
  method Reconstruct(o: Oracles, scan: Scan, n: int, asWritten: bool) returns (r: Response)
    requires |scan.points| > 0 && Extent(scan.points) != 0.0 && n >= 0 && n != 1
    ensures r == Reconstruction(o, scan, n, asWritten)
  {
    var pts := scan.points;
    var center, scale := Center(pts), Extent(pts);
    var cloud := Scan(NormaliseCloud(pts), scan.normals);
    var voxelSize := VoxelSize(n);
    var grid := Grid(n);
    GridRoundTrip(n);
    var udf, grad := ComputeField(grid, q => o.nearest(cloud.points, q), q => o.field(cloud, q), voxelSize, MaxBatch);
    var mesh := RestoreMesh(MarchField(o, n, udf, grad), center, scale);
    var stored := o.store(o.repair(mesh));
    if stored.Failure? {
      return Respond(Unexpected(stored.error), asWritten);
    }
    return Ok(stored.value);
  }

  /**
   * Whole-request reference: the outcome of `predict`, with the field computed
   * point by point. `asWritten` selects the `except` clauses as written
   * (`HandleAsWritten`) or as intended (`Handle`).
   */
  function PredictSpec(body: Body, o: Oracles, asWritten: bool): Outcome
  {
    match Validate(body)
    case Failure(e) => Answer(Respond(e, asWritten))
    case Success((path, res)) =>
      match o.load(path)
      case Failure(m) => Answer(Respond(Unexpected(m), asWritten))
      case Success(scan) =>
        var pts := scan.points;
        if |pts| == 0 then Answer(Respond(ValueFailure, asWritten))
        else if Extent(pts) == 0.0 then OutsideModel
        else match res
          case None => Answer(Respond(Unexpected(NoneMinusInt), asWritten))
          case Some(n) =>
            if n == 1 then Answer(Respond(Unexpected("float division by zero"), asWritten))
            else if n < 0 then Answer(Respond(ValueFailure, asWritten))
            else Answer(Reconstruction(o, scan, n, asWritten))
  }

  /**
   * A missing, null or empty `file_path` is rejected before anything is
   * loaded: as written with 500 "Unexpected error: 400: file_path is
   * required", as intended with 400 "file_path is required".
   */
  lemma MissingFilePathRejected(res: ResField, o: Oracles)
    ensures PredictSpec(Object(None, res), o, true) == Answer(Error(500, "Unexpected error: 400: " + MissingPath))
    ensures PredictSpec(Object(Some(""), res), o, true) == Answer(Error(500, "Unexpected error: 400: " + MissingPath))
    ensures PredictSpec(Object(None, res), o, false) == Answer(Error(400, MissingPath))
    ensures PredictSpec(Object(Some(""), res), o, false) == Answer(Error(400, MissingPath))
  {
  }

  /**
   * A path whose extension is not `.ply` in any case is rejected before
   * anything is loaded: as written with 500 "Unexpected error: 400: Only .ply
   * files are supported", as intended with 400.
   */
  lemma NonPlyRejected(path: string, res: ResField, o: Oracles)
    requires path != "" && !IsPly(path)
    ensures PredictSpec(Object(Some(path), res), o, true) == Answer(Error(500, "Unexpected error: 400: " + NotPly))
    ensures PredictSpec(Object(Some(path), res), o, false) == Answer(Error(400, NotPly))
  {
  }

  /** A missing `res` behaves exactly like `res = 128`, under either handler. */
  lemma ResDefaultsTo128(path: string, o: Oracles, asWritten: bool)
    ensures PredictSpec(Object(Some(path), Absent), o, asWritten) == PredictSpec(Object(Some(path), Given(128)), o, asWritten)
  {
  }

  /**
   * `res: null` passes validation and is used as `None` at line 98, where
   * `N - 1` raises a `TypeError`: a usable cloud is answered 500.
   */
  lemma NullResFails(path: string, o: Oracles, asWritten: bool)
    requires path != "" && IsPly(path) && o.load(path).Success?
    requires |o.load(path).value.points| > 0 && Extent(o.load(path).value.points) != 0.0
    ensures PredictSpec(Object(Some(path), Null), o, asWritten) == Answer(Error(500, "Unexpected error: " + NoneMinusInt))
  {
  }

  /** The two endpoints answer differently exactly when validation rejects the request on purpose. */
  lemma EndpointsDifferOnlyOnRejections(body: Body, o: Oracles)
    ensures PredictSpec(body, o, true) != PredictSpec(body, o, false) <==>
      Validate(body).Failure? && Validate(body).error.BadRequest?
  {
    match Validate(body)
    case Failure(e) =>
      HandlersAgreeOtherwise(e);
    case Success((path, res)) =>
      match o.load(path)
      case Failure(m) =>
      case Success(scan) =>
        var pts := scan.points;
        if |pts| > 0 && Extent(pts) != 0.0 && res.Some? && res.value >= 0 && res.value != 1 {
          assert Reconstruction(o, scan, res.value, true) == Reconstruction(o, scan, res.value, false);
        }
  }

  /** A request answered 200 passed validation and loaded a cloud that is not a single point. */
  lemma SuccessNeedsValidCloud(body: Body, o: Oracles, asWritten: bool)
    requires PredictSpec(body, o, asWritten).Answer? && PredictSpec(body, o, asWritten).response.Ok?
    ensures body.Object? && body.filePath.Some? && IsPly(body.filePath.value)
    ensures o.load(body.filePath.value).Success?
    ensures |o.load(body.filePath.value).value.points| > 0
    ensures Extent(o.load(body.filePath.value).value.points) != 0.0
    ensures body.res.Absent? || (body.res.Given? && body.res.value >= 0 && body.res.value != 1)
  {
  }

  /**
   * The endpoint: validation, loading, normalisation, the chunked coarse and
   * refined passes with batches of `2**16`, marching cubes and the rescale.
   * Its answer is the reference outcome, whatever the batch size, under the
   * handlers as written or as intended.
   */
  method Predict(body: Body, o: Oracles, asWritten: bool) returns (r: Outcome)
    ensures r == PredictSpec(body, o, asWritten)
  {
    var v := Validate(body);
    if v.Failure? {
      return Answer(Respond(v.error, asWritten));
    }
    var (path, res) := v.value;
    var loaded := o.load(path);
    if loaded.Failure? {
      return Answer(Respond(Unexpected(loaded.error), asWritten));
    }
    var scan := loaded.value;
    var pts := scan.points;
    if |pts| == 0 {
      return Answer(Respond(ValueFailure, asWritten));
    }
    if Extent(pts) == 0.0 {
      return OutsideModel;
    }
    if res.None? {
      return Answer(Respond(Unexpected(NoneMinusInt), asWritten));
    }
    var n := res.value;
    if n == 1 {
      return Answer(Respond(Unexpected("float division by zero"), asWritten));
    }
    if n < 0 {
      return Answer(Respond(ValueFailure, asWritten));
    }
    var response := Reconstruct(o, scan, n, asWritten);
    return Answer(response);
  }
}
