/**
 * `AslamCamera`: the camera geometry the calibration builds for a
 * (camera model, distortion model) pair. Each branch indexes the
 * intrinsics, the distortion coefficients and the resolution and hands
 * the entries to the camera library's constructors; the library itself
 * is represented only by its demand that every argument be a number.
 */
module AslamCamera {
  import opened PyValues
  import opened Camera

  /** The geometry family each accepted branch constructs. */
  datatype Geometry =
    | DistortedPinhole
    | EquidistantDistortedPinhole
    | FovDistortedPinhole
    | Pinhole
    | DistortedOmni
    | Omni
    | ExtendedUnified
    | DoubleSphere

  /** A constructed camera: its geometry and the attribute its branch stored it in. */
  datatype Built = Built(geometry: Geometry, attribute: string)

  /** The supported pairs, as a table. */
  const SupportedPairs: set<(string, string)> := {
    ("pinhole", "radtan"), ("pinhole", "equidistant"), ("pinhole", "fov"), ("pinhole", "none"),
    ("omni", "radtan"), ("omni", "none"),
    ("eucm", "none"),
    ("ds", "none")
  }

  /**
   * The branch `__init__` takes for a pair. The pinhole branch reports
   * an unsupported distortion through `self.raiseError`, which this
   * class does not have, so it fails with an AttributeError; omni with
   * equidistant is refused outright before any construction.
   */
  function Build(cameraModel: Value, distModel: Value): (r: Result<Geometry>)
    ensures r.Success? <==> cameraModel.Str? && distModel.Str? && (cameraModel.s, distModel.s) in SupportedPairs
    ensures cameraModel == Str("omni") && distModel == Str("equidistant")
            ==> r == Failure(RuntimeError(UnsupportedDistortion("omni", distModel)))
    ensures cameraModel !in CameraModels ==> r == Failure(RuntimeError(UnknownCameraModel(cameraModel)))
    ensures r.Success? ==> cameraModel in CameraModels && distModel.s in DistortionModels
    ensures r.Success? ==> (r.value == Pinhole <==> cameraModel == Str("pinhole") && distModel == Str("none"))
  {
    if cameraModel == Str("pinhole") then
      if distModel == Str("radtan") then Success(DistortedPinhole)
      else if distModel == Str("equidistant") then Success(EquidistantDistortedPinhole)
      else if distModel == Str("fov") then Success(FovDistortedPinhole)
      else if distModel == Str("none") then Success(Pinhole)
      else Failure(AttributeError("raiseError"))
    else if cameraModel == Str("omni") then
      if distModel == Str("radtan") then Success(DistortedOmni)
      else if distModel == Str("equidistant") then Failure(RuntimeError(UnsupportedDistortion("omni", distModel)))
      else if distModel == Str("none") then Success(Omni)
      else Failure(RuntimeError(UnsupportedDistortion("omni", distModel)))
    else if cameraModel == Str("eucm") then
      if distModel == Str("none") then Success(ExtendedUnified)
      else Failure(RuntimeError(UnsupportedDistortion("eucm", distModel)))
    else if cameraModel == Str("ds") then
      if distModel == Str("none") then Success(DoubleSphere)
      else Failure(RuntimeError(UnsupportedDistortion("ds", distModel)))
    else Failure(RuntimeError(UnknownCameraModel(cameraModel)))
  }

  // ---------------------------------------------------------------------
  // Arguments and library calls

  /** Every entry converts to a number. */
  predicate Numeric(xs: seq<Value>) {
    forall k :: 0 <= k < |xs| ==> Number(xs[k]).Some?
  }

  /** A list whose first `n` entries are numbers. */
  predicate NumericPrefix(v: Value, n: nat) {
    v.List? && n <= |v.items| && Numeric(v.items[..n])
  }

  /** `v[0], v[1], ..., v[n-1]`, evaluated left to right. */
  function Indices(v: Value, n: nat): (r: Result<seq<Value>>)
    ensures r.Success? <==> forall k :: 0 <= k < n ==> PyIndex(v, k).Success?
    ensures r.Success? ==> |r.value| == n && forall k :: 0 <= k < n ==> r.value[k] == PyIndex(v, k).value
  {
    if n == 0 then Success([])
    else
      var front :- Indices(v, n - 1);
      var last :- PyIndex(v, n - 1);
      Success(front + [last])
  }

  /**
   * A call into the camera library: its bindings convert every argument
   * to a number and refuse anything else with an ArgumentError, which is
   * a TypeError.
   */
  function LibraryCall(args: seq<Value>): (r: Outcome)
    ensures r.Pass? <==> Numeric(args)
    ensures r.Fail? ==> r.error == TypeError
  {
    if Numeric(args) then Pass else Fail(TypeError)
  }

  /** How many leading model parameters precede the focal length: omni `xi`, eucm `alpha, beta`, ds `xi, alpha`. */
  function LeadCount(cameraModel: string): (n: nat)
    ensures n + 4 == IntrinsicsLength(cameraModel) || cameraModel !in ["pinhole", "omni", "eucm", "ds"]
  {
    match cameraModel
    case "pinhole" => 0
    case "omni" => 1
    case _ => 2
  }

  /** How many coefficients a geometry's distortion object is built from. */
  function CoefficientsUsed(g: Geometry): nat {
    match g
    case DistortedPinhole | EquidistantDistortedPinhole | DistortedOmni => 4
    case FovDistortedPinhole => 1
    case _ => 0
  }

  /** The distortion object, when the geometry has one, from `dist_coeff[0]` onwards. */
  function Distortion(distCoeff: Value, n: nat): (r: Outcome)
    ensures n > 0 ==> (r.Pass? <==> Indices(distCoeff, n).Success? && Numeric(Indices(distCoeff, n).value))
  {
    if n == 0 then Pass
    else
      match Indices(distCoeff, n)
      case Failure(e) => Fail(e)
      case Success(coeffs) => LibraryCall(coeffs)
  }

  /**
   * The projection's arguments: the model's leading parameters, then
   * `focalLength[0]`, `focalLength[1]`, `principalPoint[0]`,
   * `principalPoint[1]`, `resolution[0]`, `resolution[1]`.
   */
  function ProjectionArguments(lead: seq<Value>, focalLength: Value, principalPoint: Value, resolution: Value)
    : (r: Result<seq<Value>>)
    ensures r.Success? <==> && Indices(focalLength, 2).Success? && Indices(principalPoint, 2).Success?
                            && Indices(resolution, 2).Success?
    ensures r.Success? ==> r.value == lead + Indices(focalLength, 2).value + Indices(principalPoint, 2).value
                                           + Indices(resolution, 2).value
  {
    var fl :- Indices(focalLength, 2);
    var pp :- Indices(principalPoint, 2);
    var res :- Indices(resolution, 2);
    Success(lead + fl + pp + res)
  }

  /** The constructor calls of a branch: the distortion object, then the projection. */
  function Construct(g: Geometry, lead: seq<Value>, focalLength: Value, principalPoint: Value,
                     distCoeff: Value, resolution: Value): (r: Outcome)
    ensures r.Pass? <==> && Distortion(distCoeff, CoefficientsUsed(g)).Pass?
                         && ProjectionArguments(lead, focalLength, principalPoint, resolution).Success?
                         && Numeric(ProjectionArguments(lead, focalLength, principalPoint, resolution).value)
  {
    match Distortion(distCoeff, CoefficientsUsed(g))
    case Fail(e) => Fail(e)
    case Pass =>
      match ProjectionArguments(lead, focalLength, principalPoint, resolution)
      case Failure(e) => Fail(e)
      case Success(args) => LibraryCall(args)
  }

  // ---------------------------------------------------------------------
  // The constructor

  /**
   * `AslamCamera.__init__`: the camera model is dispatched first; then
   * the leading parameters and the focal-length and principal-point
   * slices are taken from the intrinsics; then the distortion model is
   * dispatched and the branch's constructors are called. Every branch
   * stores its geometry in `geometry` except pinhole without distortion,
   * which stores it in `pinholeAttribute`.
   */
  function InitWith(pinholeAttribute: string, cameraModel: Value, intrinsics: Value, distModel: Value,
                    distCoeff: Value, resolution: Value): (r: Result<Built>)
    ensures cameraModel !in CameraModels ==> r == Failure(RuntimeError(UnknownCameraModel(cameraModel)))
    ensures r.Success? ==> Build(cameraModel, distModel).Success? && r.value.geometry == Build(cameraModel, distModel).value
    ensures r.Success? ==> (r.value.attribute == "geometry" <==> r.value.geometry != Pinhole || pinholeAttribute == "geometry")
  {
    if cameraModel !in CameraModels then Failure(RuntimeError(UnknownCameraModel(cameraModel)))
    else
      var first := LeadCount(cameraModel.s);
      var lead :- Indices(intrinsics, first);
      var focalLength :- PySlice(intrinsics, first, first + 2);
      var principalPoint :- PySlice(intrinsics, first + 2, first + 4);
      var g :- Build(cameraModel, distModel);
      :- Construct(g, lead, focalLength, principalPoint, distCoeff, resolution);
      Success(Built(g, if g == Pinhole then pinholeAttribute else "geometry"))
  }

  /** The constructor as written: line 68 stores the pinhole geometry in `camera`. */
  function InitAsWritten(cameraModel: Value, intrinsics: Value, distModel: Value, distCoeff: Value, resolution: Value)
    : (r: Result<Built>)
    ensures r.Success? ==> (r.value.attribute == "camera" <==> r.value.geometry == Pinhole)
  {
    InitWith("camera", cameraModel, intrinsics, distModel, distCoeff, resolution)
  }

  /** The constructor with every branch storing its geometry in `geometry`. */
  function Init(cameraModel: Value, intrinsics: Value, distModel: Value, distCoeff: Value, resolution: Value)
    : (r: Result<Built>)
    ensures r.Success? ==> Build(cameraModel, distModel).Success? && r.value.geometry == Build(cameraModel, distModel).value
    ensures r.Success? ==> r.value.attribute == "geometry"
  {
    InitWith("geometry", cameraModel, intrinsics, distModel, distCoeff, resolution)
  }

  /**
   * The arguments a supported pair can be built from: the pair is in the
   * table, and every intrinsic, every coefficient the distortion model
   * uses and both resolution entries are numbers in a list long enough.
   */
  predicate Constructible(cameraModel: Value, intrinsics: Value, distModel: Value, distCoeff: Value, resolution: Value) {
    && cameraModel.Str? && distModel.Str? && (cameraModel.s, distModel.s) in SupportedPairs
    && NumericPrefix(intrinsics, IntrinsicsLength(cameraModel.s))
    && (DistortionModels[distModel.s] == 0 || NumericPrefix(distCoeff, DistortionModels[distModel.s]))
    && NumericPrefix(resolution, 2)
  }

  // ---------------------------------------------------------------------
  // Why the constructor succeeds

  lemma {:induction false} NumericConcat(a: seq<Value>, b: seq<Value>)
    ensures Numeric(a + b) <==> Numeric(a) && Numeric(b)
  {
    if Numeric(a) && Numeric(b) {
      forall k | 0 <= k < |a + b| ensures Number((a + b)[k]).Some? {
        if k >= |a| { assert (a + b)[k] == b[k - |a|]; }
      }
    }
    if Numeric(a + b) {
      forall k | 0 <= k < |a| ensures Number(a[k]).Some? {
        assert (a + b)[k] == a[k];
      }
      forall k | 0 <= k < |b| ensures Number(b[k]).Some? {
        assert (a + b)[|a| + k] == b[k];
      }
    }
  }

  /** Indexing the first `n > 0` entries yields numbers exactly for a list with a numeric prefix of that length. */
  lemma {:induction false} IndicesNumeric(v: Value, n: nat)
    requires n > 0
    ensures Indices(v, n).Success? && Numeric(Indices(v, n).value) <==> NumericPrefix(v, n)
    ensures NumericPrefix(v, n) ==> Indices(v, n).value == v.items[..n]
  {
    if NumericPrefix(v, n) {
      assert forall k :: 0 <= k < n ==> PyIndex(v, k) == Success(v.items[k]);
      assert Indices(v, n).value == v.items[..n];
    } else if Indices(v, n).Success? {
      var xs := Indices(v, n).value;
      assert PyIndex(v, 0).Success?;
      if v.List? {
        assert PyIndex(v, n - 1).Success?;
        assert xs == v.items[..n];
      } else {
        assert v.Str?;
        assert !Numeric(xs) by { assert xs[0] == PyIndex(v, 0).value; }
      }
    }
  }

  /** The two entries of `v[a:a+2]` are numbers exactly when `v` is a list holding numbers there. */
  lemma {:induction false} SliceNumeric(v: Value, a: nat)
    ensures (&& PySlice(v, a, a + 2).Success?
             && Indices(PySlice(v, a, a + 2).value, 2).Success?
             && Numeric(Indices(PySlice(v, a, a + 2).value, 2).value))
            <==> v.List? && a + 2 <= |v.items| && Numeric(v.items[a..a + 2])
  {
    if PySlice(v, a, a + 2).Success? {
      var s := PySlice(v, a, a + 2).value;
      IndicesNumeric(s, 2);
      if v.List? && a + 2 <= |v.items| {
        assert s.items == v.items[a..a + 2];
        assert s.items[..2] == v.items[a..a + 2];
      }
    }
  }

  /** The intrinsics yield numeric arguments exactly when their first `lead + 4` entries are numbers. */
  lemma {:induction false} IntrinsicsNumeric(v: Value, lead: nat)
    ensures (&& Indices(v, lead).Success? && Numeric(Indices(v, lead).value)
             && PySlice(v, lead, lead + 2).Success? && Indices(PySlice(v, lead, lead + 2).value, 2).Success?
             && Numeric(Indices(PySlice(v, lead, lead + 2).value, 2).value)
             && PySlice(v, lead + 2, lead + 4).Success? && Indices(PySlice(v, lead + 2, lead + 4).value, 2).Success?
             && Numeric(Indices(PySlice(v, lead + 2, lead + 4).value, 2).value))
            <==> NumericPrefix(v, lead + 4)
  {
    SliceNumeric(v, lead);
    SliceNumeric(v, lead + 2);
    if lead > 0 {
      IndicesNumeric(v, lead);
    }
    if v.List? && lead + 4 <= |v.items| {
      var xs := v.items;
      assert xs[..lead + 4] == xs[..lead] + xs[lead..lead + 2] + xs[lead + 2..lead + 4];
      NumericConcat(xs[..lead], xs[lead..lead + 2]);
      NumericConcat(xs[..lead] + xs[lead..lead + 2], xs[lead + 2..lead + 4]);
    }
  }

  /** What a supported pair's branch takes from the table: the leading parameters and the coefficients. */
  lemma {:induction false} BranchShape(cameraModel: Value, distModel: Value)
    requires Build(cameraModel, distModel).Success?
    ensures LeadCount(cameraModel.s) + 4 == IntrinsicsLength(cameraModel.s)
    ensures CoefficientsUsed(Build(cameraModel, distModel).value) == DistortionModels[distModel.s]
  {
  }

  /** The constructor of a supported pair succeeds exactly when its slices and its constructor calls do. */
  lemma {:induction false} InitSteps(pinholeAttribute: string, cameraModel: Value, intrinsics: Value,
      distModel: Value, distCoeff: Value, resolution: Value)
    requires Build(cameraModel, distModel).Success?
    ensures var first := LeadCount(cameraModel.s);
            InitWith(pinholeAttribute, cameraModel, intrinsics, distModel, distCoeff, resolution).Success?
            <==> && Indices(intrinsics, first).Success?
                 && PySlice(intrinsics, first, first + 2).Success?
                 && PySlice(intrinsics, first + 2, first + 4).Success?
                 && Construct(Build(cameraModel, distModel).value, Indices(intrinsics, first).value,
                              PySlice(intrinsics, first, first + 2).value, PySlice(intrinsics, first + 2, first + 4).value,
                              distCoeff, resolution).Pass?
  {
  }

  /** The projection's arguments are numbers exactly when the lead, both slices and the resolution give numbers. */
  lemma {:induction false} ProjectionNumeric(lead: seq<Value>, focalLength: Value, principalPoint: Value, resolution: Value)
    ensures (ProjectionArguments(lead, focalLength, principalPoint, resolution).Success?
             && Numeric(ProjectionArguments(lead, focalLength, principalPoint, resolution).value))
            <==> && Numeric(lead)
                 && Indices(focalLength, 2).Success? && Numeric(Indices(focalLength, 2).value)
                 && Indices(principalPoint, 2).Success? && Numeric(Indices(principalPoint, 2).value)
                 && Indices(resolution, 2).Success? && Numeric(Indices(resolution, 2).value)
  {
    if ProjectionArguments(lead, focalLength, principalPoint, resolution).Success? {
      var a, b, c := Indices(focalLength, 2).value, Indices(principalPoint, 2).value, Indices(resolution, 2).value;
      NumericConcat(lead, a);
      NumericConcat(lead + a, b);
      NumericConcat(lead + a + b, c);
    }
  }

  /** Constructible arguments, spelt out for the branch the pair takes. */
  lemma {:induction false} ConstructibleShape(cameraModel: Value, intrinsics: Value, distModel: Value,
      distCoeff: Value, resolution: Value)
    requires Build(cameraModel, distModel).Success?
    ensures var n := CoefficientsUsed(Build(cameraModel, distModel).value);
            Constructible(cameraModel, intrinsics, distModel, distCoeff, resolution)
            <==> && NumericPrefix(intrinsics, LeadCount(cameraModel.s) + 4)
                 && (n == 0 || NumericPrefix(distCoeff, n))
                 && NumericPrefix(resolution, 2)
  {
    BranchShape(cameraModel, distModel);
  }

  /** The leading parameters and both slices can be taken from the intrinsics. */
  predicate Sliced(intrinsics: Value, first: nat) {
    && Indices(intrinsics, first).Success?
    && PySlice(intrinsics, first, first + 2).Success?
    && PySlice(intrinsics, first + 2, first + 4).Success?
  }

  /** A branch's constructor calls succeed exactly when every argument they index is a number. */
  lemma {:induction false} ConstructNumeric(g: Geometry, lead: seq<Value>, focalLength: Value, principalPoint: Value,
      distCoeff: Value, resolution: Value)
    ensures Construct(g, lead, focalLength, principalPoint, distCoeff, resolution).Pass?
            <==> && (CoefficientsUsed(g) == 0 || NumericPrefix(distCoeff, CoefficientsUsed(g)))
                 && Numeric(lead)
                 && Indices(focalLength, 2).Success? && Numeric(Indices(focalLength, 2).value)
                 && Indices(principalPoint, 2).Success? && Numeric(Indices(principalPoint, 2).value)
                 && NumericPrefix(resolution, 2)
  {
    if CoefficientsUsed(g) > 0 {
      IndicesNumeric(distCoeff, CoefficientsUsed(g));
    }
    IndicesNumeric(resolution, 2);
    ProjectionNumeric(lead, focalLength, principalPoint, resolution);
  }

  /** When the slices can be taken, the constructor calls decide. */
  lemma {:induction false} InitSlicedCase(pinholeAttribute: string, cameraModel: Value,
      intrinsics: Value, distModel: Value, distCoeff: Value, resolution: Value)
    requires Build(cameraModel, distModel).Success?
    requires Sliced(intrinsics, LeadCount(cameraModel.s))
    ensures InitWith(pinholeAttribute, cameraModel, intrinsics, distModel, distCoeff, resolution).Success?
            <==> Constructible(cameraModel, intrinsics, distModel, distCoeff, resolution)
  {
    var first := LeadCount(cameraModel.s);
    var g := Build(cameraModel, distModel).value;
    var lead := Indices(intrinsics, first).value;
    var fl := PySlice(intrinsics, first, first + 2).value;
    var pp := PySlice(intrinsics, first + 2, first + 4).value;
    ConstructibleShape(cameraModel, intrinsics, distModel, distCoeff, resolution);
    InitSteps(pinholeAttribute, cameraModel, intrinsics, distModel, distCoeff, resolution);
    IntrinsicsNumeric(intrinsics, first);
    ConstructNumeric(g, lead, fl, pp, distCoeff, resolution);
  }

  /**
   * The constructor succeeds exactly for constructible arguments, with
   * the geometry of the pair's branch, whatever attribute line 68 uses.
   */
  lemma {:induction false} InitSucceedsExactlyWhenConstructible(pinholeAttribute: string, cameraModel: Value,
      intrinsics: Value, distModel: Value, distCoeff: Value, resolution: Value)
    ensures InitWith(pinholeAttribute, cameraModel, intrinsics, distModel, distCoeff, resolution).Success?
            <==> Constructible(cameraModel, intrinsics, distModel, distCoeff, resolution)
  {
    if Build(cameraModel, distModel).Success? {
      var first := LeadCount(cameraModel.s);
      if Sliced(intrinsics, first) {
        InitSlicedCase(pinholeAttribute, cameraModel, intrinsics, distModel, distCoeff, resolution);
      } else {
        ConstructibleShape(cameraModel, intrinsics, distModel, distCoeff, resolution);
        InitSteps(pinholeAttribute, cameraModel, intrinsics, distModel, distCoeff, resolution);
        IntrinsicsNumeric(intrinsics, first);
      }
    }
  }

  /**
   * `AslamCamera.fromParameters`: read the intrinsics, the distortion and
   * the resolution through the checking getters, then call the
   * constructor as written.
   */
  function FromParameters(d: Doc): (r: Result<Built>)
    ensures r.Success? <==> && IntrinsicsOf(d).Success? && DistortionOf(d).Success? && ResolutionOf(d).Success?
                            && Constructible(d["camera_model"], d["intrinsics"], d["distortion_model"],
                                             d["distortion_coeffs"], d["resolution"])
    ensures IntrinsicsOf(d).Failure? ==> r == Failure(IntrinsicsOf(d).error)
    ensures IntrinsicsOf(d).Success? && DistortionOf(d).Failure? ==> r == Failure(DistortionOf(d).error)
    ensures r.Success? ==> (r.value.attribute == "camera" <==> r.value.geometry == Pinhole)
  {
    var (cameraModel, intrinsics) :- IntrinsicsOf(d);
    var (distModel, distCoeff) :- DistortionOf(d);
    var resolution :- ResolutionOf(d);
    InitSucceedsExactlyWhenConstructible("camera", cameraModel, intrinsics, distModel, distCoeff, resolution);
    InitAsWritten(cameraModel, intrinsics, distModel, distCoeff, resolution)
  }

  /**
   * `fromParameters` over the corrected constructor: the same documents
   * are built, with the same geometry and the same errors, and every
   * camera has its geometry in `geometry`.
   */
  function FromParametersCorrected(d: Doc): (r: Result<Built>)
    ensures r.Success? <==> FromParameters(d).Success?
    ensures r.Failure? ==> r == FromParameters(d)
    ensures r.Success? ==> r.value == Built(FromParameters(d).value.geometry, "geometry")
  {
    var (cameraModel, intrinsics) :- IntrinsicsOf(d);
    var (distModel, distCoeff) :- DistortionOf(d);
    var resolution :- ResolutionOf(d);
    AsWrittenMissesGeometryOnlyForPinholeNone(cameraModel, intrinsics, distModel, distCoeff, resolution);
    Init(cameraModel, intrinsics, distModel, distCoeff, resolution)
  }

  /**
   * A document whose intrinsics and coefficients are lists of numbers, as
   * the setters store them, is built exactly when its pair is supported.
   */
  lemma {:induction false} StoredParametersBuild(d: Doc)
    requires IntrinsicsOf(d).Success? && DistortionOf(d).Success? && ResolutionOf(d).Success?
    requires Numeric(d["intrinsics"].items)
    requires d["distortion_coeffs"].List? && Numeric(d["distortion_coeffs"].items)
    ensures FromParameters(d).Success? <==> (d["camera_model"].s, d["distortion_model"].s) in SupportedPairs
  {
    var coeffs, res := d["distortion_coeffs"].items, d["resolution"].items;
    var model := d["distortion_model"].s;
    assert d["intrinsics"].items[..|d["intrinsics"].items|] == d["intrinsics"].items;
    assert coeffs[..DistortionModels[model]] == coeffs;
    assert Numeric(res[..2]) by { assert IsInt(res[0]) && IsInt(res[1]); }
  }

  /** Indexing a mapping by position fails at `[0]`, with the key 0. */
  lemma {:induction false} IndicesOfMapping(m: Doc, n: nat)
    requires n > 0
    ensures Indices(Dict(m), n) == Failure(KeyError(Int(0)))
  {
    if n > 1 {
      IndicesOfMapping(m, n - 1);
    }
  }

  /**
   * Coefficients given as a mapping reach `dist_coeff[0]` in every branch
   * with a distortion object, and the KeyError that raises escapes.
   */
  lemma {:induction false} MappingCoefficientsKeyError(pinholeAttribute: string, cameraModel: Value,
      intrinsics: Value, distModel: Value, m: Doc, resolution: Value)
    requires Build(cameraModel, distModel).Success? && CoefficientsUsed(Build(cameraModel, distModel).value) > 0
    requires Sliced(intrinsics, LeadCount(cameraModel.s))
    ensures InitWith(pinholeAttribute, cameraModel, intrinsics, distModel, Dict(m), resolution)
            == Failure(KeyError(Int(0)))
  {
    var n := CoefficientsUsed(Build(cameraModel, distModel).value);
    IndicesOfMapping(m, n);
    assert Distortion(Dict(m), n) == Fail(KeyError(Int(0)));
  }

  // ---------------------------------------------------------------------
  // Example documents

  /** A camera document holding the five fields the constructor reads. */
  function CameraDocument(cameraModel: Value, intrinsics: Value, distModel: Value, distCoeff: Value,
                          resolution: Value): (d: Doc)
    ensures "camera_model" in d && d["camera_model"] == cameraModel
    ensures "intrinsics" in d && d["intrinsics"] == intrinsics
    ensures "distortion_model" in d && d["distortion_model"] == distModel
    ensures "distortion_coeffs" in d && d["distortion_coeffs"] == distCoeff
    ensures "resolution" in d && d["resolution"] == resolution
  {
    map["camera_model" := cameraModel, "intrinsics" := intrinsics, "distortion_model" := distModel,
        "distortion_coeffs" := distCoeff, "resolution" := resolution]
  }

  const ExampleResolution: Value := List([Int(640), Int(480)])
  const ExampleProjection: seq<Value> := [Float(460.0), Float(460.0), Float(320.0), Float(240.0)]

  /** Four coefficients given as a mapping instead of a list. */
  const MappingCoefficients: Value :=
    Dict(map["a" := Float(0.0), "b" := Float(0.0), "c" := Float(0.0), "d" := Float(0.0)])

  /** Once the getters have read a document, `fromParameters` is the constructor on what they read. */
  lemma {:induction false} FromGetters(d: Doc)
    requires IntrinsicsOf(d).Success? && DistortionOf(d).Success? && ResolutionOf(d).Success?
    ensures FromParameters(d) == InitAsWritten(d["camera_model"], d["intrinsics"], d["distortion_model"],
                                               d["distortion_coeffs"], d["resolution"])
  {
  }

  /** The example resolution passes its getter. */
  lemma {:induction false} ExampleResolutionAccepted(d: Doc)
    requires "resolution" in d && d["resolution"] == ExampleResolution
    ensures ResolutionOf(d).Success?
  {
  }

  /** The example projection, after `lead` leading parameters the model accepts, passes the intrinsics getter. */
  lemma {:induction false} ExampleIntrinsicsAccepted(d: Doc, model: Value, lead: seq<Value>)
    requires model in CameraModels && |lead| + 4 == IntrinsicsLength(model.s)
    requires ValidIntrinsics(model, lead + ExampleProjection)
    requires "camera_model" in d && d["camera_model"] == model
    requires "intrinsics" in d && d["intrinsics"] == List(lead + ExampleProjection)
    ensures IntrinsicsOf(d).Success?
  {
  }

  /** No distortion with no coefficients passes the distortion getter. */
  lemma {:induction false} NoDistortionAccepted(d: Doc)
    requires "distortion_model" in d && d["distortion_model"] == Str("none")
    requires "distortion_coeffs" in d && d["distortion_coeffs"] == List([])
    ensures DistortionOf(d).Success?
  {
  }

  /**
   * The getters check only the number of coefficients, so a mapping of
   * four coefficients passes them; `dist_coeff[0]` then raises a plain
   * KeyError, which nothing turns into a reader error.
   */
  lemma MappingCoefficientsEscapeAsKeyError()
    ensures var d := CameraDocument(Str("pinhole"), List(ExampleProjection), Str("radtan"), MappingCoefficients,
                                    ExampleResolution);
            && DistortionOf(d).Success?
            && FromParameters(d) == Failure(KeyError(Int(0)))
  {
    var d := CameraDocument(Str("pinhole"), List(ExampleProjection), Str("radtan"), MappingCoefficients,
                            ExampleResolution);
    MappingDocumentRead(d);
    FromGetters(d);
    MappingCoefficientsKeyError("camera", Str("pinhole"), List(ExampleProjection), Str("radtan"),
                                MappingCoefficients.entries, ExampleResolution);
  }

  /** The document with mapping coefficients passes all three getters. */
  lemma MappingDocumentRead(d: Doc)
    requires d == CameraDocument(Str("pinhole"), List(ExampleProjection), Str("radtan"), MappingCoefficients,
                                 ExampleResolution)
    ensures IntrinsicsOf(d).Success? && DistortionOf(d).Success? && ResolutionOf(d).Success?
  {
    assert [] + ExampleProjection == ExampleProjection;
    ExampleIntrinsicsAccepted(d, Str("pinhole"), []);
    MappingCoefficientsAccepted(d);
    ExampleResolutionAccepted(d);
  }

  /** Four coefficients pass the distortion getter's length check, whatever their container. */
  lemma MappingCoefficientsAccepted(d: Doc)
    requires "distortion_model" in d && d["distortion_model"] == Str("radtan")
    requires "distortion_coeffs" in d && d["distortion_coeffs"] == MappingCoefficients
    ensures DistortionOf(d).Success?
  {
    assert MappingCoefficients.entries.Keys == {"a", "b", "c", "d"};
  }

  /**
   * An omni `xi` given as text passes `xi < 0` under Python 2 ordering,
   * and the projection's constructor then refuses it.
   */
  lemma TextOmniXiRefusedByLibrary()
    ensures var d := CameraDocument(Str("omni"), List([Str("0.9")] + ExampleProjection), Str("none"), List([]),
                                    ExampleResolution);
            && IntrinsicsOf(d).Success?
            && FromParameters(d) == Failure(TypeError)
  {
    var intrinsics := List([Str("0.9")] + ExampleProjection);
    var d := CameraDocument(Str("omni"), intrinsics, Str("none"), List([]), ExampleResolution);
    ExampleIntrinsicsAccepted(d, Str("omni"), [Str("0.9")]);
    NoDistortionAccepted(d);
    ExampleResolutionAccepted(d);
    FromGetters(d);
    InitSucceedsExactlyWhenConstructible("camera", Str("omni"), intrinsics, Str("none"), List([]), ExampleResolution);
    assert !Constructible(Str("omni"), intrinsics, Str("none"), List([]), ExampleResolution) by {
      assert Number(intrinsics.items[..5][0]).None?;
    }
    OmniTextXiFailsInLibrary(intrinsics);
  }

  /** Once the slices are taken, a failing constructor call is the constructor's failure. */
  lemma {:induction false} ConstructFailureEscapes(pinholeAttribute: string, cameraModel: Value, intrinsics: Value,
      distModel: Value, distCoeff: Value, resolution: Value)
    requires Build(cameraModel, distModel).Success? && Sliced(intrinsics, LeadCount(cameraModel.s))
    ensures var first := LeadCount(cameraModel.s);
            var c := Construct(Build(cameraModel, distModel).value, Indices(intrinsics, first).value,
                               PySlice(intrinsics, first, first + 2).value,
                               PySlice(intrinsics, first + 2, first + 4).value, distCoeff, resolution);
            c.Fail? ==> InitWith(pinholeAttribute, cameraModel, intrinsics, distModel, distCoeff, resolution)
                        == Failure(c.error)
  {
  }

  /** The failure of the omni example is the projection's TypeError. */
  lemma OmniTextXiFailsInLibrary(intrinsics: Value)
    requires intrinsics == List([Str("0.9")] + ExampleProjection)
    ensures InitAsWritten(Str("omni"), intrinsics, Str("none"), List([]), ExampleResolution) == Failure(TypeError)
  {
    var lead := [Str("0.9")];
    var fl := List([Float(460.0), Float(460.0)]);
    var pp := List([Float(320.0), Float(240.0)]);
    OmniExampleSlices(intrinsics);
    OmniExampleProjectionRefused();
    ConstructFailureEscapes("camera", Str("omni"), intrinsics, Str("none"), List([]), ExampleResolution);
  }

  /** The omni projection refuses a text `xi`. */
  lemma OmniExampleProjectionRefused()
    ensures Construct(Omni, [Str("0.9")], List([Float(460.0), Float(460.0)]), List([Float(320.0), Float(240.0)]),
                      List([]), ExampleResolution) == Fail(TypeError)
  {
    var args := ProjectionArguments([Str("0.9")], List([Float(460.0), Float(460.0)]),
                                    List([Float(320.0), Float(240.0)]), ExampleResolution);
    assert args.Success? && args.value[0] == Str("0.9");
  }

  /** What the omni branch takes from the example intrinsics. */
  lemma OmniExampleSlices(intrinsics: Value)
    requires intrinsics == List([Str("0.9")] + ExampleProjection)
    ensures Indices(intrinsics, 1) == Success([Str("0.9")])
    ensures PySlice(intrinsics, 1, 3) == Success(List([Float(460.0), Float(460.0)]))
    ensures PySlice(intrinsics, 3, 5) == Success(List([Float(320.0), Float(240.0)]))
  {
    assert PyIndex(intrinsics, 0) == Success(Str("0.9"));
    assert [] + [Str("0.9")] == [Str("0.9")];
    assert intrinsics.items[1..3] == [Float(460.0), Float(460.0)];
    assert intrinsics.items[3..5] == [Float(320.0), Float(240.0)];
  }

  /** An eucm or ds camera that is built has no distortion model and no coefficients. */
  lemma {:induction false} EucmAndDsNeedNoDistortion(d: Doc)
    requires FromParameters(d).Success?
    requires d["camera_model"] in [Str("eucm"), Str("ds")]
    ensures d["distortion_model"] == Str("none")
    ensures PyLen(d["distortion_coeffs"]) == Success(0)
  {
    assert CheckDistortion(d["distortion_model"], d["distortion_coeffs"]).Pass?;
  }

  // ---------------------------------------------------------------------
  // The attribute that holds the geometry

  /**
   * As written, a constructed camera has its geometry in `geometry`
   * exactly when its pair is not pinhole without distortion; apart from
   * the attribute it is the corrected constructor's camera.
   */
  lemma {:induction false} AsWrittenMissesGeometryOnlyForPinholeNone(cameraModel: Value, intrinsics: Value,
      distModel: Value, distCoeff: Value, resolution: Value)
    ensures var w := InitAsWritten(cameraModel, intrinsics, distModel, distCoeff, resolution);
            var c := Init(cameraModel, intrinsics, distModel, distCoeff, resolution);
            && (w.Success? <==> c.Success?)
            && (w.Failure? ==> w == c)
            && (w.Success? ==> w.value.geometry == c.value.geometry)
            && (w.Success? ==> (w.value.attribute == "geometry"
                                <==> !(cameraModel == Str("pinhole") && distModel == Str("none"))))
  {
    InitSucceedsExactlyWhenConstructible("camera", cameraModel, intrinsics, distModel, distCoeff, resolution);
    InitSucceedsExactlyWhenConstructible("geometry", cameraModel, intrinsics, distModel, distCoeff, resolution);
  }

  /**
   * A valid pinhole camera without distortion is read and constructed,
   * yet as written has no `geometry` attribute; the corrected
   * constructor stores the same geometry in `geometry`.
   */
  lemma PinholeWithoutDistortionLacksGeometry()
    ensures var d := CameraDocument(Str("pinhole"), List(ExampleProjection), Str("none"), List([]), ExampleResolution);
            && FromParameters(d) == Success(Built(Pinhole, "camera"))
            && Init(d["camera_model"], d["intrinsics"], d["distortion_model"], d["distortion_coeffs"],
                    d["resolution"]) == Success(Built(Pinhole, "geometry"))
  {
    var d := CameraDocument(Str("pinhole"), List(ExampleProjection), Str("none"), List([]), ExampleResolution);
    assert [] + ExampleProjection == ExampleProjection;
    ExampleIntrinsicsAccepted(d, Str("pinhole"), []);
    NoDistortionAccepted(d);
    ExampleResolutionAccepted(d);
    FromGetters(d);
    PinholeExampleConstructible();
    InitSucceedsExactlyWhenConstructible("camera", Str("pinhole"), List(ExampleProjection), Str("none"), List([]),
                                         ExampleResolution);
    AsWrittenMissesGeometryOnlyForPinholeNone(Str("pinhole"), List(ExampleProjection), Str("none"), List([]),
                                              ExampleResolution);
  }

  /** The pinhole example without distortion is constructible. */
  lemma PinholeExampleConstructible()
    ensures Constructible(Str("pinhole"), List(ExampleProjection), Str("none"), List([]), ExampleResolution)
  {
    assert ExampleProjection[..4] == ExampleProjection;
    assert ExampleResolution.items[..2] == ExampleResolution.items;
  }

  /** With the corrected attribute, every camera any branch constructs has its geometry in `geometry`. */
  lemma {:induction false} EveryBuiltCameraHasGeometry(cameraModel: Value, intrinsics: Value, distModel: Value,
      distCoeff: Value, resolution: Value)
    requires Init(cameraModel, intrinsics, distModel, distCoeff, resolution).Success?
    ensures Init(cameraModel, intrinsics, distModel, distCoeff, resolution).value.attribute == "geometry"
    ensures (cameraModel.s, distModel.s) in SupportedPairs
  {
    InitSucceedsExactlyWhenConstructible("geometry", cameraModel, intrinsics, distModel, distCoeff, resolution);
  }
}
