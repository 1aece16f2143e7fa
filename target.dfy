/**
 * `CalibrationTargetParameters`: the target type (checkerboard,
 * circlegrid or aprilgrid) and the fields each type requires. The reader
 * has no setters, so it is modelled as functions on the document.
 */
module Target {
  import opened PyValues

  /** The reader name in this reader's error messages. */
  const TargetReader := "CalibrationTargetConfig"

  /** The target types `checkTargetType` knows. */
  const TargetTypes: seq<Value> := [Str("aprilgrid"), Str("checkerboard"), Str("circlegrid")]

  /** `checkTargetType`: list membership, so any value can be compared. */
  function CheckTargetType(targetType: Value): (r: Outcome)
    ensures r.Pass? <==> targetType in TargetTypes
    ensures r.Fail? ==> r.error == ReaderError(TargetReader, UnknownTargetType(targetType))
  {
    if targetType !in TargetTypes then Fail(ReaderError(TargetReader, UnknownTargetType(targetType))) else Pass
  }

  /** `getTargetType`. */
  function TargetTypeOf(d: Doc): (r: Result<Value>)
    ensures r.Success? <==> "target_type" in d && d["target_type"] in TargetTypes
    ensures r.Success? ==> r.value == d["target_type"]
    ensures "target_type" !in d ==> r == Failure(ReaderError(TargetReader, MissingField(Str("target_type"))))
  {
    CatchKeyError(TargetReader,
      var targetType :- Get(d, "target_type");
      :- CheckTargetType(targetType);
      Success(targetType))
  }

  /** The fields each target type reads, in the order the source reads them. */
  function RequiredFields(targetType: string): seq<string> {
    match targetType
    case "checkerboard" => ["targetRows", "targetCols", "rowSpacingMeters", "colSpacingMeters"]
    case "circlegrid" => ["targetRows", "targetCols", "spacingMeters", "asymmetricGrid"]
    case _ => ["numberTargets", "tagRows", "tagCols", "tagSize", "tagSpacing"]
  }

  /** What each field must hold: a count is an int of at least 3, a length a positive float. */
  predicate FieldValid(field: string, v: Value) {
    match field
    case "targetRows" | "targetCols" | "tagRows" | "tagCols" => IsInt(v) && Number(v).value >= 3.0
    case "rowSpacingMeters" | "colSpacingMeters" | "spacingMeters" | "tagSize" | "tagSpacing" =>
      v.Float? && v.f > 0.0
    case "asymmetricGrid" => v.Bool?
    // `numberTargets` is read but never checked
    case _ => true
  }

  /** A document `getTargetParams` accepts. */
  predicate ValidTarget(d: Doc) {
    && "target_type" in d && d["target_type"] in TargetTypes
    && (forall f :: f in RequiredFields(d["target_type"].s) ==> f in d && FieldValid(f, d[f]))
  }

  /**
   * The `try` block reading a type's fields: the first absent one is
   * reported through `raiseError`; otherwise the fields with their values.
   */
  function Fetch(d: Doc, fields: seq<string>): (r: Result<Doc>)
    ensures r.Success? <==> forall k :: 0 <= k < |fields| ==> fields[k] in d
    ensures r.Success? ==> r.value.Keys == set k | 0 <= k < |fields| :: fields[k]
    ensures r.Success? ==> forall f :: f in r.value ==> f in d && r.value[f] == d[f]
    ensures r.Failure? ==> exists i :: && 0 <= i < |fields| && fields[i] !in d
                                      && (forall j :: 0 <= j < i ==> fields[j] in d)
                                      && r.error == ReaderError(TargetReader, MissingField(Str(fields[i])))
  {
    if fields == [] then Success(map[])
    else if fields[0] !in d then
      Failure(ReaderError(TargetReader, MissingField(Str(fields[0]))))
    else
      var rest :- Fetch(d, fields[1..]);
      assert forall k :: 1 <= k < |fields| ==> fields[k] == fields[1..][k - 1];
      assert (set k | 0 <= k < |fields| :: fields[k]) == {fields[0]} + set k | 0 <= k < |fields[1..]| :: fields[1..][k];
      Success(rest[fields[0] := d[fields[0]]])
  }

  /**
   * The field checks of one branch, in source order. Each failing check
   * appends to `errList`, a name that is never defined: the first
   * invalid field ends the call with a NameError.
   */
  function CheckFields(d: Doc, fields: seq<string>): (r: Outcome)
    requires forall k :: 0 <= k < |fields| ==> fields[k] in d
    ensures r.Pass? <==> forall k :: 0 <= k < |fields| ==> FieldValid(fields[k], d[fields[k]])
    ensures r.Fail? ==> r.error == NameError("errList")
  {
    if fields == [] then Pass
    else if !FieldValid(fields[0], d[fields[0]]) then Fail(NameError("errList"))
    else
      assert forall k :: 1 <= k < |fields| ==> fields[k] == fields[1..][k - 1];
      CheckFields(d, fields[1..])
  }

  /**
   * `getTargetParams`: exactly the type's fields, as stored, plus
   * `targetType`; or the error the first failing step raises.
   */
  function TargetParamsOf(d: Doc): (r: Result<Doc>)
    ensures r.Success? <==> ValidTarget(d)
    ensures r.Success? ==> && r.value.Keys == (set f | f in RequiredFields(d["target_type"].s)) + {"targetType"}
                           && r.value["targetType"] == d["target_type"]
                           && forall f :: f in RequiredFields(d["target_type"].s) ==> r.value[f] == d[f]
    ensures TargetTypeOf(d).Failure? ==> r == Failure(TargetTypeOf(d).error)
    ensures && TargetTypeOf(d).Success? && (forall f :: f in RequiredFields(d["target_type"].s) ==> f in d)
            && !ValidTarget(d)
            ==> r == Failure(NameError("errList"))
  {
    CatchKeyError(TargetReader,
      var targetType :- TargetTypeOf(d);
      var fields := RequiredFields(targetType.s);
      var params :- Fetch(d, fields);
      :- CheckFields(d, fields);
      RequiredFieldsFetched(d, targetType.s, params);
      Success(params["targetType" := targetType]))
  }

  /** What `Fetch` returns for a type's fields, which never include the added `targetType` key. */
  lemma {:induction false} RequiredFieldsFetched(d: Doc, targetType: string, params: Doc)
    requires Fetch(d, RequiredFields(targetType)) == Success(params)
    ensures params.Keys == set f | f in RequiredFields(targetType)
    ensures "targetType" !in RequiredFields(targetType)
    ensures forall f :: f in RequiredFields(targetType) ==> params[f] == d[f]
  {
    var fields := RequiredFields(targetType);
    assert forall f :: f in fields <==> exists k :: 0 <= k < |fields| && fields[k] == f;
  }

  /** A missing field of the chosen type is reported by name, not as a KeyError. */
  lemma MissingFieldReported(d: Doc, field: string)
    requires TargetTypeOf(d).Success?
    requires field in RequiredFields(d["target_type"].s) && field !in d
    ensures TargetParamsOf(d).Failure?
    ensures TargetParamsOf(d).error.ReaderError? && TargetParamsOf(d).error.fault.MissingField?
  {
    var fields := RequiredFields(d["target_type"].s);
    var r := Fetch(d, fields);
    assert r.Failure?;
  }

  /** `numberTargets` is read but not checked: any value is returned as stored. */
  lemma NumberTargetsUnchecked(v: Value)
    ensures var d := map["target_type" := Str("aprilgrid"), "numberTargets" := v, "tagRows" := Int(6),
                         "tagCols" := Int(6), "tagSize" := Float(0.088), "tagSpacing" := Float(0.3)];
            TargetParamsOf(d).Success? && TargetParamsOf(d).value["numberTargets"] == v
  {
    var d := map["target_type" := Str("aprilgrid"), "numberTargets" := v, "tagRows" := Int(6),
                 "tagCols" := Int(6), "tagSize" := Float(0.088), "tagSpacing" := Float(0.3)];
    assert ValidTarget(d);
  }

  /** A bool counts as an int, but True and False are below 3; a float count is refused. */
  lemma CountsMustBeIntsOfAtLeastThree()
    ensures !FieldValid("targetRows", Bool(true))
    ensures !FieldValid("tagCols", Float(6.0))
    ensures FieldValid("targetCols", Int(3)) && !FieldValid("targetCols", Int(2))
    ensures !FieldValid("tagSize", Int(1)) && FieldValid("tagSize", Float(0.02))
  {
  }
}
