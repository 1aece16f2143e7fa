/**
 * `CameraChainParameters`: the cameras of a rig, stored as `cam0`,
 * `cam1`, ... in order. Each camera after the first may carry the
 * transformation from its predecessor (`T_cn_cnm1`); cam0 is the base of
 * the chain and has none.
 */
module CameraChain {
  import opened PyValues
  import opened KeyNames
  import opened Sensor
  import opened Camera
  import opened Collections

  /** The reader name in this reader's error messages. */
  const ChainReader := "CameraChainParameters"

  /** The member document of `cam<nr>`, as `getCameraParameters` reaches it. */
  function CameraMember(d: Doc, nr: int): Result<Doc> {
    IndexedMember(ChainReader, "cam", d, nr)
  }

  /**
   * Writing a member back under its own key leaves the count alone, and
   * the lookup then finds what was written.
   */
  lemma WriteBack(d: Doc, nr: int, m: Doc)
    requires CameraMember(d, nr).Success?
    ensures var d' := d[Indexed("cam", nr) := Dict(m)];
            |d'| == |d| && CameraMember(d', nr) == Success(m)
  {
    var d' := d[Indexed("cam", nr) := Dict(m)];
    assert d'.Keys == d.Keys;
  }

  // ---------------------------------------------------------------------
  // The transformation from the previous camera

  /**
   * `getExtrinsicsLastCamToHere`: cam0 has no predecessor; past the
   * bounds check, the bare `except:` turns every way of not finding a
   * well-formed `T_cn_cnm1` into one "invalid baseline" error.
   */
  function LastCamExtrinsicsOf(d: Doc, camNr: int): (r: Result<Transformation>)
    ensures camNr == 0 ==> r == Failure(RuntimeError(NoPredecessor))
    ensures camNr != 0 && camNr >= |d| ==> r == Failure(ReaderError(ChainReader, OutOfRange(Int(camNr))))
    ensures r.Success? <==> && camNr != 0 && CameraMember(d, camNr).Success?
                            && "T_cn_cnm1" in CameraMember(d, camNr).value
                            && ParseTransformation(CameraMember(d, camNr).value["T_cn_cnm1"]).Some?
    ensures r.Success? ==> Some(r.value) == ParseTransformation(CameraMember(d, camNr).value["T_cn_cnm1"])
    ensures camNr != 0 && camNr < |d| && r.Failure? ==> r.error == ReaderError(ChainReader, InvalidField("T_cn_cnm1"))
  {
    if camNr == 0 then Failure(RuntimeError(NoPredecessor))
    else if camNr >= |d| then Failure(ReaderError(ChainReader, OutOfRange(Int(camNr))))
    else
      var key := Indexed("cam", camNr);
      if key in d && d[key].Dict? && "T_cn_cnm1" in d[key].entries
         && ParseTransformation(d[key].entries["T_cn_cnm1"]).Some?
      then Success(ParseTransformation(d[key].entries["T_cn_cnm1"]).value)
      else Failure(ReaderError(ChainReader, InvalidField("T_cn_cnm1")))
  }

  // ---------------------------------------------------------------------
  // Per-camera fields reached through a temporary camera reader

  /** `getExtrinsicsReferenceToCam`: the camera's `T_here_<reference>`. */
  function ReferenceExtrinsicsOf(d: Doc, reference: string, camNr: int): (r: Result<Transformation>)
    ensures r.Success? <==> && CameraMember(d, camNr).Success?
                            && ExtrinsicsOf(CameraReader, ExtrinsicsFieldName(reference), CameraMember(d, camNr).value).Success?
    ensures r.Success? ==> r == ExtrinsicsOf(CameraReader, ExtrinsicsFieldName(reference), CameraMember(d, camNr).value)
    ensures camNr >= |d| ==> r == Failure(ReaderError(ChainReader, OutOfRange(Int(camNr))))
  {
    CatchKeyError(ChainReader,
      if camNr >= |d| then Failure(ReaderError(ChainReader, OutOfRange(Int(camNr))))
      else
        var member :- CameraMember(d, camNr);
        ExtrinsicsOf(CameraReader, ExtrinsicsFieldName(reference), member))
  }

  /** The chain's `checkTimeshiftToReference`: an index in range, then a float. */
  function CheckCamTimeshift(count: nat, camNr: int, timeShift: Value): (r: Outcome)
    ensures r.Pass? <==> camNr < count && timeShift.Float?
    ensures camNr >= count ==> r == Fail(ReaderError(ChainReader, OutOfRange(Int(camNr))))
    ensures camNr < count && !timeShift.Float? ==> r == Fail(ReaderError(ChainReader, InvalidField("timeshift")))
  {
    if camNr >= count then Fail(ReaderError(ChainReader, OutOfRange(Int(camNr))))
    else if !timeShift.Float? then Fail(ReaderError(ChainReader, InvalidField("timeshift")))
    else Pass
  }

  /** `getTimeshiftToReference`: the camera's `timeshift_to_<reference>`, not re-checked. */
  function TimeshiftOfCam(d: Doc, reference: string, camNr: int): (r: Result<Value>)
    ensures r.Success? <==> CameraMember(d, camNr).Success? && TimeshiftFieldName(reference) in CameraMember(d, camNr).value
    ensures r.Success? ==> r.value == CameraMember(d, camNr).value[TimeshiftFieldName(reference)]
    ensures camNr >= |d| ==> r == Failure(ReaderError(ChainReader, OutOfRange(Int(camNr))))
  {
    CatchKeyError(ChainReader,
      if camNr >= |d| then Failure(ReaderError(ChainReader, OutOfRange(Int(camNr))))
      else
        var member :- CameraMember(d, camNr);
        TimeshiftOf(CameraReader, TimeshiftFieldName(reference), member))
  }

  // ---------------------------------------------------------------------
  // Overlaps

  /** The first id that is not below the count (`cam_id >= count`), if any. */
  function FirstOutOfRange(ids: seq<Value>, count: nat): (r: Option<Value>)
    ensures r.None? <==> forall k :: 0 <= k < |ids| ==> Lt(ids[k], count as real)
    ensures r.Some? ==> exists k :: && 0 <= k < |ids| && ids[k] == r.value && !Lt(ids[k], count as real)
                                    && forall j :: 0 <= j < k ==> Lt(ids[j], count as real)
  {
    if ids == [] then None
    else if !Lt(ids[0], count as real) then Some(ids[0])
    else
      assert forall k :: 1 <= k < |ids| ==> ids[k] == ids[1..][k - 1];
      var r := FirstOutOfRange(ids[1..], count);
      if r.Some? then
        var k :| && 0 <= k < |ids[1..]| && ids[1..][k] == r.value && !Lt(ids[1..][k], count as real)
                 && forall j :: 0 <= j < k ==> Lt(ids[1..][j], count as real);
        assert ids[k + 1] == r.value && forall j :: 0 <= j < k + 1 ==> Lt(ids[j], count as real);
        r
      else r
  }

  /**
   * `checkCamOverlaps` as a specification: the camera index must be
   * below the count, and so must every listed id; negative ids and None
   * pass, since only the upper bound is compared.
   */
  function OverlapsCheck(camNr: int, overlaps: Value, count: nat): (r: Outcome)
    ensures r.Pass? <==> && camNr < count && PyIter(overlaps).Success?
                         && forall k :: 0 <= k < |PyIter(overlaps).value| ==> Lt(PyIter(overlaps).value[k], count as real)
    ensures overlaps.List? ==> (r.Pass? <==> camNr < count && forall k :: 0 <= k < |overlaps.items| ==> Lt(overlaps.items[k], count as real))
    ensures camNr >= count ==> r == Fail(ReaderError(ChainReader, OutOfRange(Int(camNr))))
    ensures r.Fail? ==> r.error.ReaderError? || r.error == TypeError
  {
    if camNr >= count then Fail(ReaderError(ChainReader, OutOfRange(Int(camNr))))
    else
      match PyIter(overlaps)
      case Failure(e) => Fail(e)
      case Success(ids) =>
        match FirstOutOfRange(ids, count)
        case None => Pass
        case Some(id) => Fail(ReaderError(ChainReader, OutOfRange(id)))
  }

  /** Negative ids and None are accepted as overlaps. */
  lemma OverlapsLowerBoundUnchecked()
    ensures OverlapsCheck(0, List([Int(-1), Null]), 1) == Pass
    ensures OverlapsCheck(0, List([Int(0), Int(1)]), 1) == Fail(ReaderError(ChainReader, OutOfRange(Int(1))))
  {
    assert FirstOutOfRange([Int(0), Int(1)], 1) == Some(Int(1)) by {
      assert [Int(0), Int(1)][1..] == [Int(1)];
    }
  }

  /** `getCamOverlaps`: the stored list is looked up first, then checked. */
  function CamOverlapsOf(d: Doc, camNr: int): (r: Result<Value>)
    ensures r.Success? <==> && Indexed("cam", camNr) in d && d[Indexed("cam", camNr)].Dict?
                            && "cam_overlaps" in d[Indexed("cam", camNr)].entries
                            && OverlapsCheck(camNr, d[Indexed("cam", camNr)].entries["cam_overlaps"], |d|).Pass?
    ensures r.Success? ==> r.value == d[Indexed("cam", camNr)].entries["cam_overlaps"]
    ensures Indexed("cam", camNr) !in d ==> r == Failure(ReaderError(ChainReader, MissingField(Str(Indexed("cam", camNr)))))
  {
    CatchKeyError(ChainReader,
      var member :- Get(d, Indexed("cam", camNr));
      var overlaps :- GetItem(member, "cam_overlaps");
      :- OverlapsCheck(camNr, overlaps, |d|);
      Success(overlaps))
  }

  // ---------------------------------------------------------------------
  // Lenient flags

  /**
   * `getShouldFixLastCamToHere`: False for cam0 and wherever the flag
   * cannot be read; otherwise the stored value, unchecked.
   */
  function ShouldFixLastCamToHere(d: Doc, camNr: int): (r: Result<Value>)
    ensures camNr == 0 ==> r == Success(Bool(false))
    ensures camNr != 0 && camNr >= |d| ==> r == Failure(ReaderError(ChainReader, OutOfRange(Int(camNr))))
    ensures camNr != 0 && camNr < |d| ==> r.Success?
    ensures && camNr != 0 && camNr < |d|
            && !(Indexed("cam", camNr) in d && GetItem(d[Indexed("cam", camNr)], "fix_last_cam_to_here").Success?)
            ==> r == Success(Bool(false))
    ensures && camNr != 0 && r.Success? && r.value != Bool(false)
            ==> && Indexed("cam", camNr) in d && d[Indexed("cam", camNr)].Dict?
                && "fix_last_cam_to_here" in d[Indexed("cam", camNr)].entries
                && r.value == d[Indexed("cam", camNr)].entries["fix_last_cam_to_here"]
  {
    if camNr == 0 then Success(Bool(false))
    else if camNr >= |d| then Failure(ReaderError(ChainReader, OutOfRange(Int(camNr))))
    else
      var key := Indexed("cam", camNr);
      if key in d && d[key].Dict? && "fix_last_cam_to_here" in d[key].entries
      then Success(d[key].entries["fix_last_cam_to_here"])
      else Success(Bool(false))
  }

  /**
   * `getCameraImuOrientationPrior`: False for every camera but cam0; for
   * cam0 the stored value if it can be read, else False; an empty chain
   * is out of range.
   */
  function CameraImuOrientationPrior(d: Doc, camNr: int): (r: Result<Value>)
    ensures camNr != 0 ==> r == Success(Bool(false))
    ensures camNr == 0 && |d| == 0 ==> r == Failure(ReaderError(ChainReader, OutOfRange(Int(0))))
    ensures camNr == 0 && |d| > 0 ==> r.Success?
    ensures && camNr == 0 && |d| > 0
            && !("cam0" in d && GetItem(d["cam0"], "camera_imu_orientation_prior").Success?)
            ==> r == Success(Bool(false))
    ensures && r.Success? && r.value != Bool(false)
            ==> && camNr == 0 && "cam0" in d && d["cam0"].Dict?
                && "camera_imu_orientation_prior" in d["cam0"].entries
                && r.value == d["cam0"].entries["camera_imu_orientation_prior"]
  {
    if camNr != 0 then Success(Bool(false))
    else if camNr >= |d| then Failure(ReaderError(ChainReader, OutOfRange(Int(camNr))))
    else
      if "cam0" in d && d["cam0"].Dict? && "camera_imu_orientation_prior" in d["cam0"].entries
      then Success(d["cam0"].entries["camera_imu_orientation_prior"])
      else Success(Bool(false))
  }

  // ---------------------------------------------------------------------
  // The chain reader object

  /** `CameraChainParameters`. */
  class CameraChainParameters {
    var data: Doc
    const yamlFile: string
    const referenceSensorName: string

    constructor (yamlFile: string, referenceSensorName: string, createYaml: bool, parsed: Doc)
      ensures this.yamlFile == yamlFile && this.referenceSensorName == referenceSensorName
      ensures data == if createYaml then map[] else parsed
    {
      this.yamlFile := yamlFile;
      this.referenceSensorName := referenceSensorName;
      data := if createYaml then map[] else parsed;
    }

    /** `numCameras`. */
    function NumCameras(): (n: nat)
      reads this
      ensures n == |data|
    {
      |data|
    }

    /**
     * `addCameraAtEnd`: stores the camera's document under
     * `cam<count>`. On a chain whose keys are `cam0` .. `cam<count-1>`
     * the count grows by one and the new camera is found at the old count.
     */
    method AddCameraAtEnd(cam: CameraParameters)
      modifies this
      ensures data == old(data)[Indexed("cam", |old(data)|) := Dict(cam.sensor.data)]
      ensures DenseKeys("cam", old(data)) ==> && DenseKeys("cam", data) && |data| == |old(data)| + 1
                                              && CameraMember(data, |old(data)|) == Success(cam.sensor.data)
                                              && forall nr :: 0 <= nr < |old(data)| ==> CameraMember(data, nr) == CameraMember(old(data), nr)
    {
      if DenseKeys("cam", data) {
        AppendKeepsDense("cam", data, Dict(cam.sensor.data));
        forall nr | 0 <= nr < |data|
          ensures Indexed("cam", nr) != Indexed("cam", |data|)
        {
          IndexedInjective("cam", nr, |data|);
        }
      }
      data := data[Indexed("cam", |data|) := Dict(cam.sensor.data)];
    }

    /** `getCameraParameters`: a fresh camera reader whose document is the member's. */
    method GetCameraParameters(nr: int) returns (r: Result<CameraParameters>)
      ensures r.Success? <==> CameraMember(data, nr).Success?
      ensures r.Failure? ==> r.error == CameraMember(data, nr).error
      ensures r.Success? ==> && fresh(r.value.sensor)
                             && r.value.sensor.data == CameraMember(data, nr).value
                             && r.value.sensor.name == CameraReader
                             && r.value.sensor.referenceSensorName == referenceSensorName
                             && r.value.sensor.extrinsicsFieldName == ExtrinsicsFieldName(referenceSensorName)
                             && r.value.sensor.timeshiftFieldName == TimeshiftFieldName(referenceSensorName)
    {
      var member := CameraMember(data, nr);
      if member.Failure? {
        return Failure(member.error);
      }
      var param := new CameraParameters("TEMP_CONFIG", referenceSensorName, true, map[]);
      param.sensor.SetYamlDict(member.value);
      r := Success(param);
    }

    /**
     * `setExtrinsicsLastCamToHere`: refused for cam0; otherwise writes
     * `T_cn_cnm1` into the member found under `cam<camNr>`, without a
     * bounds check and without the decorator, so a missing member is a
     * plain KeyError.
     */
    method SetExtrinsicsLastCamToHere(camNr: int, extrinsics: Transformation) returns (r: Outcome)
      modifies this
      ensures camNr == 0 ==> r == Fail(RuntimeError(NoPredecessor))
      ensures camNr != 0 && Indexed("cam", camNr) !in old(data) ==> r == Fail(KeyError(Str(Indexed("cam", camNr))))
      ensures r.Pass? <==> camNr != 0 && Indexed("cam", camNr) in old(data) && old(data)[Indexed("cam", camNr)].Dict?
      ensures r.Fail? ==> data == old(data)
      ensures r.Pass? ==> data == old(data)[Indexed("cam", camNr) :=
                                   Dict(old(data)[Indexed("cam", camNr)].entries["T_cn_cnm1" := TransformationValue(extrinsics)])]
      ensures r.Pass? && DenseKeys("cam", old(data)) ==> LastCamExtrinsicsOf(data, camNr) == Success(extrinsics)
    {
      if camNr == 0 {
        return Fail(RuntimeError(NoPredecessor));
      }
      var key := Indexed("cam", camNr);
      if key !in data {
        return Fail(KeyError(Str(key)));
      }
      var member := data[key];
      if !member.Dict? {
        return Fail(TypeError);
      }
      if DenseKeys("cam", data) {
        IndexedKeysMember("cam", |data|, camNr);
      }
      data := data[key := Dict(member.entries["T_cn_cnm1" := TransformationValue(extrinsics)])];
      TransformationRoundTrip(extrinsics);
      r := Pass;
    }

    method GetExtrinsicsLastCamToHere(camNr: int) returns (r: Result<Transformation>)
      ensures r == LastCamExtrinsicsOf(data, camNr)
    {
      r := LastCamExtrinsicsOf(data, camNr);
    }

    /**
     * `setExtrinsicsReferenceToCam`: sets `T_here_<reference>` through a
     * temporary camera reader and writes its document back.
     */
    method SetExtrinsicsReferenceToCam(camNr: int, extrinsics: Transformation) returns (r: Outcome)
      modifies this
      ensures r.Pass? <==> CameraMember(old(data), camNr).Success?
      ensures r.Fail? ==> r.error == CameraMember(old(data), camNr).error && data == old(data)
      ensures r.Pass? ==> data == old(data)[Indexed("cam", camNr) :=
                                   Dict(CameraMember(old(data), camNr).value[ExtrinsicsFieldName(referenceSensorName)
                                                                             := TransformationValue(extrinsics)])]
      ensures r.Pass? ==> ReferenceExtrinsicsOf(data, referenceSensorName, camNr) == Success(extrinsics)
    {
      var param := GetCameraParameters(camNr);
      if param.Failure? {
        return Fail(param.error);
      }
      var cam := param.value;
      cam.sensor.SetExtrinsicsReferenceToHere(extrinsics);
      var member := cam.sensor.GetYamlDict();
      WriteBack(data, camNr, member);
      data := data[Indexed("cam", camNr) := Dict(member)];
      r := Pass;
    }

    method GetExtrinsicsReferenceToCam(camNr: int) returns (r: Result<Transformation>)
      ensures r == ReferenceExtrinsicsOf(data, referenceSensorName, camNr)
    {
      r := ReferenceExtrinsicsOf(data, referenceSensorName, camNr);
    }

    method GetTimeshiftToReference(camNr: int) returns (r: Result<Value>)
      ensures r == TimeshiftOfCam(data, referenceSensorName, camNr)
    {
      r := TimeshiftOfCam(data, referenceSensorName, camNr);
    }

    /**
     * `setTimeshiftToReference`: checked by the chain, set through a
     * temporary camera reader (whose own check passes again) and written back.
     */
    method SetTimeshiftToReference(camNr: int, timeShift: Value) returns (r: Outcome)
      modifies this
      ensures r.Pass? <==> CheckCamTimeshift(|old(data)|, camNr, timeShift).Pass? && CameraMember(old(data), camNr).Success?
      ensures CheckCamTimeshift(|old(data)|, camNr, timeShift).Fail? ==> r == CheckCamTimeshift(|old(data)|, camNr, timeShift)
      ensures r.Fail? ==> data == old(data)
      ensures r.Pass? ==> data == old(data)[Indexed("cam", camNr) :=
                                   Dict(CameraMember(old(data), camNr).value[TimeshiftFieldName(referenceSensorName) := timeShift])]
      ensures r.Pass? ==> TimeshiftOfCam(data, referenceSensorName, camNr) == Success(timeShift)
    {
      r := CheckCamTimeshift(|data|, camNr, timeShift);
      if r.Fail? {
        return;
      }
      var param := GetCameraParameters(camNr);
      if param.Failure? {
        return Fail(param.error);
      }
      var cam := param.value;
      r := cam.sensor.SetTimeshiftToReference(timeShift);
      var member := cam.sensor.GetYamlDict();
      WriteBack(data, camNr, member);
      data := data[Indexed("cam", camNr) := Dict(member)];
    }

    /** `checkCamOverlaps`, walking the list and stopping at the first id out of range. */
    method CheckCamOverlaps(camNr: int, overlaps: Value) returns (r: Outcome)
      ensures r == OverlapsCheck(camNr, overlaps, |data|)
    {
      var count := |data|;
      if camNr >= count {
        return Fail(ReaderError(ChainReader, OutOfRange(Int(camNr))));
      }
      var iter := PyIter(overlaps);
      if iter.Failure? {
        return Fail(iter.error);
      }
      var ids := iter.value;
      var i := 0;
      while i < |ids|
        invariant 0 <= i <= |ids|
        invariant FirstOutOfRange(ids[i..], count) == FirstOutOfRange(ids, count)
      {
        if !Lt(ids[i], count as real) {
          return Fail(ReaderError(ChainReader, OutOfRange(ids[i])));
        }
        assert ids[i..][1..] == ids[i + 1..];
        i := i + 1;
      }
      r := Pass;
    }

    method GetCamOverlaps(camNr: int) returns (r: Result<Value>)
      ensures r == CamOverlapsOf(data, camNr)
    {
      r := CamOverlapsOf(data, camNr);
    }

    /**
     * `setCamOverlaps`: checks, then replaces `cam_overlaps` in the
     * member and nothing else; the getter then returns the list.
     */
    method SetCamOverlaps(camNr: int, overlaps: Value) returns (r: Outcome)
      modifies this
      ensures OverlapsCheck(camNr, overlaps, |old(data)|).Fail? ==> r == OverlapsCheck(camNr, overlaps, |old(data)|)
      ensures r.Pass? <==> && OverlapsCheck(camNr, overlaps, |old(data)|).Pass?
                           && Indexed("cam", camNr) in old(data) && old(data)[Indexed("cam", camNr)].Dict?
      ensures r.Fail? ==> data == old(data)
      ensures r.Pass? ==> data == old(data)[Indexed("cam", camNr) :=
                                   Dict(old(data)[Indexed("cam", camNr)].entries["cam_overlaps" := overlaps])]
      ensures r.Pass? ==> CamOverlapsOf(data, camNr) == Success(overlaps)
    {
      r := CheckCamOverlaps(camNr, overlaps);
      if r.Fail? {
        return;
      }
      var key := Indexed("cam", camNr);
      if key !in data {
        return Fail(KeyError(Str(key)));
      }
      var member := data[key];
      if !member.Dict? {
        return Fail(TypeError);
      }
      data := data[key := Dict(member.entries["cam_overlaps" := overlaps])];
      assert data.Keys == old(data).Keys;
    }

    method GetShouldFixLastCamToHere(camNr: int) returns (r: Result<Value>)
      ensures r == ShouldFixLastCamToHere(data, camNr)
    {
      r := ShouldFixLastCamToHere(data, camNr);
    }

    method GetCameraImuOrientationPrior(camNr: int) returns (r: Result<Value>)
      ensures r == CameraImuOrientationPrior(data, camNr)
    {
      r := CameraImuOrientationPrior(data, camNr);
    }
  }
}
