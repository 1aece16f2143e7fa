/**
 * `CameraParameters`: the camera model with its intrinsics vector, the
 * distortion model with its coefficients, and the image resolution.
 * Each setter checks its input before writing and each getter checks
 * the stored values again before returning them.
 */
module Camera {
  import opened PyValues
  import opened Sensor

  /** The reader name in this reader's error messages. */
  const CameraReader := "CameraConfig"

  /** The camera models `checkIntrinsics` knows. */
  const CameraModels: seq<Value> := [Str("pinhole"), Str("omni"), Str("eucm"), Str("ds")]

  /** The distortion models and how many coefficients each needs. */
  const DistortionModels: map<string, nat> := map["radtan" := 4, "equidistant" := 4, "fov" := 1, "none" := 0]

  function Invalid(field: string): Error {
    ReaderError(CameraReader, InvalidField(field))
  }

  // ---------------------------------------------------------------------
  // The intrinsics table

  /** Intrinsics length per camera model: pinhole 4, omni 5, eucm and ds 6. */
  function IntrinsicsLength(model: string): nat {
    match model
    case "pinhole" => 4
    case "omni" => 5
    case _ => 6
  }

  /** A focal length or principal point coordinate: a float, not negative. */
  predicate NonNegativeFloat(v: Value) {
    v.Float? && v.f >= 0.0
  }

  /**
   * Passes `x < 0` being false: anything but None and negative numbers
   * (Python 2 orders strings, lists and dicts above every number).
   */
  predicate NotBelowZero(v: Value) {
    !v.Null? && (Number(v).Some? ==> Number(v).value >= 0.0)
  }

  /** Passes `x < 0 or x >= 1` being false: a number in [0, 1). */
  predicate InUnitInterval(v: Value) {
    Number(v).Some? && 0.0 <= Number(v).value < 1.0
  }

  /**
   * The intrinsics a camera model accepts: the model's length, the last
   * four entries (fu, fv, pu, pv) non-negative floats, omni `xi` not
   * below 0, ds `alpha` and eucm `alpha` in [0, 1), eucm `beta` not
   * below 0; ds `xi` is not constrained.
   */
  predicate ValidIntrinsics(model: Value, xs: seq<Value>) {
    && model in CameraModels
    && |xs| == IntrinsicsLength(model.s)
    && (forall k :: |xs| - 4 <= k < |xs| ==> NonNegativeFloat(xs[k]))
    && (model.s == "omni" ==> NotBelowZero(xs[0]))
    && (model.s == "ds" ==> InUnitInterval(xs[1]))
    && (model.s == "eucm" ==> InUnitInterval(xs[0]) && NotBelowZero(xs[1]))
  }

  /** Both entries of a two-entry slice are non-negative floats. */
  predicate NonNegativeFloatPair(v: Value) {
    v.List? && |v.items| == 2 && NonNegativeFloat(v.items[0]) && NonNegativeFloat(v.items[1])
  }

  /** The focal length and principal point checks that close `checkIntrinsics`. */
  function CheckProjection(focalLength: Result<Value>, principalPoint: Result<Value>): (r: Outcome)
    ensures r.Pass? <==> focalLength.Success? && principalPoint.Success?
                         && NonNegativeFloatPair(focalLength.value) && NonNegativeFloatPair(principalPoint.value)
  {
    match focalLength
    case Failure(e) => Fail(e)
    case Success(fl) =>
      match principalPoint
      case Failure(e) => Fail(e)
      case Success(pp) =>
        if !NonNegativeFloatPair(fl) then Fail(Invalid("focalLength"))
        else if !NonNegativeFloatPair(pp) then Fail(Invalid("principalPoint"))
        else Pass
  }

  /** `checkIntrinsics`: the intrinsics table, checked in the source's order. */
  function CheckIntrinsics(model: Value, intrinsics: Value): (r: Outcome)
    ensures r.Pass? <==> intrinsics.List? && ValidIntrinsics(model, intrinsics.items)
    ensures model !in CameraModels ==> r == Fail(ReaderError(CameraReader, UnknownCameraModel(model)))
    ensures model in CameraModels && intrinsics.List? && |intrinsics.items| != IntrinsicsLength(model.s)
            ==> r == Fail(Invalid("intrinsics"))
  {
    if model !in CameraModels then Fail(ReaderError(CameraReader, UnknownCameraModel(model)))
    else
      match PyLen(intrinsics)
      case Failure(e) => Fail(e)
      case Success(n) =>
        if n != IntrinsicsLength(model.s) then Fail(Invalid("intrinsics"))
        else if model == Str("pinhole") then
          CheckProjection(PySlice(intrinsics, 0, 2), PySlice(intrinsics, 2, 4))
        else if model == Str("omni") then
          match PyIndex(intrinsics, 0)
          case Failure(e) => Fail(e)
          case Success(xi) =>
            if Lt(xi, 0.0) then Fail(Invalid("xi_omni"))
            else CheckProjection(PySlice(intrinsics, 1, 3), PySlice(intrinsics, 3, 5))
        else if model == Str("ds") then
          match PyIndex(intrinsics, 0)
          case Failure(e) => Fail(e)
          case Success(_) =>
            match PyIndex(intrinsics, 1)
            case Failure(e) => Fail(e)
            case Success(alpha) =>
              if Lt(alpha, 0.0) || !Lt(alpha, 1.0) then Fail(Invalid("alpha_ds"))
              else CheckProjection(PySlice(intrinsics, 2, 4), PySlice(intrinsics, 4, 6))
        else
          match PyIndex(intrinsics, 0)
          case Failure(e) => Fail(e)
          case Success(alpha) =>
            match PyIndex(intrinsics, 1)
            case Failure(e) => Fail(e)
            case Success(beta) =>
              if Lt(alpha, 0.0) || !Lt(alpha, 1.0) then Fail(Invalid("alpha_eucm"))
              else if Lt(beta, 0.0) then Fail(Invalid("beta_eucm"))
              else CheckProjection(PySlice(intrinsics, 2, 4), PySlice(intrinsics, 4, 6))
  }

  /** `getIntrinsics`: the stored model and intrinsics, checked again. */
  function IntrinsicsOf(d: Doc): (r: Result<(Value, Value)>)
    ensures r.Success? <==> && "camera_model" in d && "intrinsics" in d
                            && d["intrinsics"].List? && ValidIntrinsics(d["camera_model"], d["intrinsics"].items)
    ensures r.Success? ==> r.value == (d["camera_model"], d["intrinsics"])
    ensures "camera_model" !in d ==> r == Failure(ReaderError(CameraReader, MissingField(Str("camera_model"))))
    ensures "camera_model" in d && "intrinsics" !in d
            ==> r == Failure(ReaderError(CameraReader, MissingField(Str("intrinsics"))))
  {
    CatchKeyError(CameraReader,
      var model :- Get(d, "camera_model");
      var intrinsics :- Get(d, "intrinsics");
      :- CheckIntrinsics(model, intrinsics);
      Success((model, intrinsics)))
  }

  /**
   * What `setIntrinsics` stores (the entries converted by `float()`)
   * passes the getter's check again: the getter returns the model and
   * the stored list, and the stored numbers are the given ones.
   */
  lemma IntrinsicsRoundTrip(d: Doc, model: Value, intrinsics: Value)
    requires CheckIntrinsics(model, intrinsics).Pass?
    requires FloatList(intrinsics).Success?
    ensures var stored := List(FloatList(intrinsics).value);
            && IntrinsicsOf(d["camera_model" := model]["intrinsics" := stored]) == Success((model, stored))
            && |stored.items| == |intrinsics.items|
            && forall k :: 0 <= k < |stored.items| ==> Number(stored.items[k]) == Number(intrinsics.items[k])
  {
    var xs, fs := intrinsics.items, FloatList(intrinsics).value;
    assert FloatEach(xs).value == fs;
    forall k | 0 <= k < |xs|
      ensures Number(fs[k]) == Number(xs[k])
      ensures NonNegativeFloat(xs[k]) ==> NonNegativeFloat(fs[k])
      ensures NotBelowZero(xs[k]) ==> NotBelowZero(fs[k])
      ensures InUnitInterval(xs[k]) ==> InUnitInterval(fs[k])
    {
    }
    assert ValidIntrinsics(model, fs);
  }

  // ---------------------------------------------------------------------
  // Distortion

  /** `checkDistortion`: a known distortion model with exactly its number of coefficients. */
  function CheckDistortion(model: Value, coeffs: Value): (r: Outcome)
    ensures r.Pass? <==> model.Str? && model.s in DistortionModels && PyLen(coeffs) == Success(DistortionModels[model.s])
    ensures coeffs.List? ==> (r.Pass? <==> model.Str? && model.s in DistortionModels && |coeffs.items| == DistortionModels[model.s])
    ensures !model.List? && !model.Dict? && !(model.Str? && model.s in DistortionModels)
            ==> r == Fail(ReaderError(CameraReader, UnknownDistortionModel(model)))
  {
    // `model not in {...}` hashes the model: a list or dict raises TypeError
    if model.List? || model.Dict? then Fail(TypeError)
    else if !(model.Str? && model.s in DistortionModels) then
      Fail(ReaderError(CameraReader, UnknownDistortionModel(model)))
    else
      match PyLen(coeffs)
      case Failure(e) => Fail(e)
      case Success(n) =>
        if n != DistortionModels[model.s] then Fail(Invalid("distortion_coeffs")) else Pass
  }

  /** `getDistortion`: the stored model and coefficients, checked again. */
  function DistortionOf(d: Doc): (r: Result<(Value, Value)>)
    ensures r.Success? <==> && "distortion_model" in d && "distortion_coeffs" in d
                            && CheckDistortion(d["distortion_model"], d["distortion_coeffs"]).Pass?
    ensures r.Success? ==> r.value == (d["distortion_model"], d["distortion_coeffs"])
    ensures "distortion_model" !in d ==> r == Failure(ReaderError(CameraReader, MissingField(Str("distortion_model"))))
  {
    CatchKeyError(CameraReader,
      var model :- Get(d, "distortion_model");
      var coeffs :- Get(d, "distortion_coeffs");
      :- CheckDistortion(model, coeffs);
      Success((model, coeffs)))
  }

  /** What `setDistortion` stores passes the getter's check again, with the same numbers. */
  lemma DistortionRoundTrip(d: Doc, model: Value, coeffs: Value)
    requires CheckDistortion(model, coeffs).Pass?
    requires FloatList(coeffs).Success?
    ensures var stored := List(FloatList(coeffs).value);
            && DistortionOf(d["distortion_model" := model]["distortion_coeffs" := stored]) == Success((model, stored))
            && (coeffs.List? ==> forall k :: 0 <= k < |stored.items| ==> Number(stored.items[k]) == Number(coeffs.items[k]))
  {
    var stored := FloatList(coeffs).value;
    assert |stored| == PyLen(coeffs).value by {
      match coeffs
      case List(xs) =>
      case Str(s) =>
      case Dict(m) =>
    }
  }

  // ---------------------------------------------------------------------
  // Resolution

  /** `checkResolution`: two ints (a bool counts as an int); their sign is not checked. */
  function CheckResolution(resolution: Value): (r: Outcome)
    ensures r.Pass? <==> resolution.List? && |resolution.items| == 2
                         && IsInt(resolution.items[0]) && IsInt(resolution.items[1])
  {
    match PyLen(resolution)
    case Failure(e) => Fail(e)
    case Success(n) =>
      if n != 2 then Fail(Invalid("resolution"))
      else
        match PyIndex(resolution, 0)
        case Failure(e) => Fail(e)
        case Success(width) =>
          if !IsInt(width) then Fail(Invalid("resolution"))
          else
            match PyIndex(resolution, 1)
            case Failure(e) => Fail(e)
            case Success(height) =>
              if !IsInt(height) then Fail(Invalid("resolution")) else Pass
  }

  /** `getResolution`: the stored resolution, checked again. */
  function ResolutionOf(d: Doc): (r: Result<Value>)
    ensures r.Success? <==> "resolution" in d && CheckResolution(d["resolution"]).Pass?
    ensures r.Success? ==> r.value == d["resolution"]
    ensures "resolution" !in d ==> r == Failure(ReaderError(CameraReader, MissingField(Str("resolution"))))
  {
    CatchKeyError(CameraReader,
      var resolution :- Get(d, "resolution");
      :- CheckResolution(resolution);
      Success(resolution))
  }

  // ---------------------------------------------------------------------
  // Behaviours worth naming

  /** Whole-number focal lengths are refused: the check asks for floats, although the setter would convert. */
  lemma IntegerFocalLengthRejected()
    ensures CheckIntrinsics(Str("pinhole"), List([Int(400), Int(400), Float(320.0), Float(240.0)]))
            == Fail(Invalid("focalLength"))
  {
  }

  /**
   * ds leaves `xi` unchecked, so `setIntrinsics` can pass its check and
   * then fail in `float()` after it has already written `camera_model`.
   */
  lemma DoubleSphereXiUnchecked()
    ensures var intrinsics := List([Null, Float(0.5), Float(300.0), Float(300.0), Float(320.0), Float(240.0)]);
            && CheckIntrinsics(Str("ds"), intrinsics).Pass?
            && FloatList(intrinsics) == Failure(TypeError)
  {
    var intrinsics := List([Null, Float(0.5), Float(300.0), Float(300.0), Float(320.0), Float(240.0)]);
    assert ValidIntrinsics(Str("ds"), intrinsics.items);
  }

  // ---------------------------------------------------------------------
  // The camera reader object

  /** `CameraParameters`: the sensor document plus the camera accessors. */
  class CameraParameters {
    const sensor: SensorParameters

    constructor (yamlFile: string, referenceSensorName: string, createYaml: bool, parsed: Doc)
      ensures fresh(sensor)
      ensures sensor.yamlFile == yamlFile && sensor.name == CameraReader
      ensures sensor.referenceSensorName == referenceSensorName
      ensures sensor.extrinsicsFieldName == ExtrinsicsFieldName(referenceSensorName)
      ensures sensor.timeshiftFieldName == TimeshiftFieldName(referenceSensorName)
      ensures sensor.data == if createYaml then map[] else parsed
    {
      sensor := new SensorParameters(yamlFile, CameraReader, referenceSensorName, createYaml, parsed);
    }

    method GetIntrinsics() returns (r: Result<(Value, Value)>)
      ensures r == IntrinsicsOf(sensor.data)
    {
      r := IntrinsicsOf(sensor.data);
    }

    /**
     * `setIntrinsics`: checks, writes `camera_model`, then writes the
     * entries converted with `float()`; a failed conversion leaves the
     * model written.
     */
    method SetIntrinsics(model: Value, intrinsics: Value) returns (r: Outcome)
      modifies sensor
      ensures r.Pass? <==> CheckIntrinsics(model, intrinsics).Pass? && FloatList(intrinsics).Success?
      ensures CheckIntrinsics(model, intrinsics).Fail?
              ==> r == CheckIntrinsics(model, intrinsics) && sensor.data == old(sensor.data)
      ensures CheckIntrinsics(model, intrinsics).Pass? && FloatList(intrinsics).Failure?
              ==> r == Fail(FloatList(intrinsics).error) && sensor.data == old(sensor.data)["camera_model" := model]
      ensures r.Pass? ==> sensor.data == old(sensor.data)["camera_model" := model]
                                                         ["intrinsics" := List(FloatList(intrinsics).value)]
      ensures r.Pass? ==> IntrinsicsOf(sensor.data) == Success((model, List(FloatList(intrinsics).value)))
    {
      r := CheckIntrinsics(model, intrinsics);
      if r.Fail? {
        return;
      }
      ghost var before := sensor.data;
      sensor.data := sensor.data["camera_model" := model];
      var floats := FloatList(intrinsics);
      if floats.Failure? {
        r := Fail(floats.error);
        return;
      }
      sensor.data := sensor.data["intrinsics" := List(floats.value)];
      IntrinsicsRoundTrip(before, model, intrinsics);
    }

    method GetDistortion() returns (r: Result<(Value, Value)>)
      ensures r == DistortionOf(sensor.data)
    {
      r := DistortionOf(sensor.data);
    }

    /** `setDistortion`: as `setIntrinsics`, for `distortion_model` and `distortion_coeffs`. */
    method SetDistortion(model: Value, coeffs: Value) returns (r: Outcome)
      modifies sensor
      ensures r.Pass? <==> CheckDistortion(model, coeffs).Pass? && FloatList(coeffs).Success?
      ensures CheckDistortion(model, coeffs).Fail?
              ==> r == CheckDistortion(model, coeffs) && sensor.data == old(sensor.data)
      ensures CheckDistortion(model, coeffs).Pass? && FloatList(coeffs).Failure?
              ==> r == Fail(FloatList(coeffs).error) && sensor.data == old(sensor.data)["distortion_model" := model]
      ensures r.Pass? ==> sensor.data == old(sensor.data)["distortion_model" := model]
                                                         ["distortion_coeffs" := List(FloatList(coeffs).value)]
      ensures r.Pass? ==> DistortionOf(sensor.data) == Success((model, List(FloatList(coeffs).value)))
    {
      r := CheckDistortion(model, coeffs);
      if r.Fail? {
        return;
      }
      ghost var before := sensor.data;
      sensor.data := sensor.data["distortion_model" := model];
      var floats := FloatList(coeffs);
      if floats.Failure? {
        r := Fail(floats.error);
        return;
      }
      sensor.data := sensor.data["distortion_coeffs" := List(floats.value)];
      DistortionRoundTrip(before, model, coeffs);
    }

    method GetResolution() returns (r: Result<Value>)
      ensures r == ResolutionOf(sensor.data)
    {
      r := ResolutionOf(sensor.data);
    }

    method SetResolution(resolution: Value) returns (r: Outcome)
      modifies sensor
      ensures r == CheckResolution(resolution)
      ensures r.Pass? ==> sensor.data == old(sensor.data)["resolution" := resolution]
      ensures r.Fail? ==> sensor.data == old(sensor.data)
      ensures r.Pass? ==> ResolutionOf(sensor.data) == Success(resolution)
    {
      r := CheckResolution(resolution);
      if r.Pass? {
        sensor.data := sensor.data["resolution" := resolution];
      }
    }
  }
}
