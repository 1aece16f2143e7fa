/**
 * What every physical sensor's parameters share (`SensorParametersBase`
 * on top of `ParametersBase`): the document, the reader name used in
 * error messages, the reference sensor, and the rostopic, extrinsics and
 * timeshift fields whose names are derived from the reference sensor.
 */
module Sensor {
  import opened PyValues

  // ---------------------------------------------------------------------
  // Rigid transformations

  type Matrix = seq<seq<real>>

  predicate Is4x4(m: Matrix) {
    |m| == 4 && forall r :: 0 <= r < 4 ==> |m[r]| == 4
  }

  /** An `sm.Transformation`, seen through its homogeneous 4x4 matrix `T()`. */
  type Transformation = m: Matrix | Is4x4(m)
    witness [[1.0, 0.0, 0.0, 0.0], [0.0, 1.0, 0.0, 0.0], [0.0, 0.0, 1.0, 0.0], [0.0, 0.0, 0.0, 1.0]]

  /** `t.T().tolist()`: four rows of four floats. */
  function TransformationValue(t: Transformation): (v: Value)
    ensures v.List? && |v.items| == 4
  {
    List(seq(4, r requires 0 <= r < 4 => List(seq(4, c requires 0 <= c < 4 => Float(t[r][c])))))
  }

  /** One row of `np.array(v)`: four numbers. */
  function RowOf(v: Value): (r: Option<seq<real>>)
    ensures r.Some? ==> |r.value| == 4
  {
    if v.List? && |v.items| == 4 && forall c :: 0 <= c < 4 ==> Number(v.items[c]).Some?
    then Some(seq(4, c requires 0 <= c < 4 => Number(v.items[c]).value))
    else None
  }

  /** `sm.Transformation(np.array(v))`: succeeds on a 4x4 nested list of numbers. */
  function ParseTransformation(v: Value): (r: Option<Transformation>)
    ensures r.Some? <==> v.List? && |v.items| == 4 && forall k :: 0 <= k < 4 ==> RowOf(v.items[k]).Some?
  {
    if v.List? && |v.items| == 4 && forall k :: 0 <= k < 4 ==> RowOf(v.items[k]).Some?
    then
      var m: Transformation := seq(4, k requires 0 <= k < 4 => RowOf(v.items[k]).value);
      Some(m)
    else None
  }

  /** Storing a transformation and constructing one from what was stored gives it back. */
  lemma TransformationRoundTrip(t: Transformation)
    ensures ParseTransformation(TransformationValue(t)) == Some(t)
  {
    var v := TransformationValue(t);
    forall k | 0 <= k < 4
      ensures RowOf(v.items[k]) == Some(t[k])
    {
      var row := v.items[k];
      assert row == List(seq(4, c requires 0 <= c < 4 => Float(t[k][c])));
      assert forall c :: 0 <= c < 4 ==> Number(row.items[c]) == Some(t[k][c]);
      assert RowOf(row).value == t[k];
    }
    assert ParseTransformation(v).value == t;
  }

  // ---------------------------------------------------------------------
  // Field names derived from the reference sensor

  /** `extrinsics_field_name`: "T_here_<reference>". */
  function ExtrinsicsFieldName(reference: string): string { "T_here_" + reference }

  /** `timeshift_field_name`: "timeshift_to_<reference>". */
  function TimeshiftFieldName(reference: string): string { "timeshift_to_" + reference }

  /**
   * The derived names never collide with each other, with `rostopic`,
   * or across reference sensors.
   */
  lemma DerivedFieldNamesDistinct(a: string, b: string)
    ensures ExtrinsicsFieldName(a) != TimeshiftFieldName(b)
    ensures ExtrinsicsFieldName(a) != "rostopic" && TimeshiftFieldName(a) != "rostopic"
    ensures ExtrinsicsFieldName(a) == ExtrinsicsFieldName(b) <==> a == b
    ensures TimeshiftFieldName(a) == TimeshiftFieldName(b) <==> a == b
  {
    assert ExtrinsicsFieldName(a)[0] == 'T' && TimeshiftFieldName(b)[0] == 't';
    assert ExtrinsicsFieldName(a)[1] == '_';
    assert TimeshiftFieldName(a)[1] == 'i';
    if ExtrinsicsFieldName(a) == ExtrinsicsFieldName(b) {
      assert a == ExtrinsicsFieldName(a)[7..] && b == ExtrinsicsFieldName(b)[7..];
    }
    if TimeshiftFieldName(a) == TimeshiftFieldName(b) {
      assert a == TimeshiftFieldName(a)[13..] && b == TimeshiftFieldName(b)[13..];
    }
  }

  // ---------------------------------------------------------------------
  // Checks and accessors on a sensor document

  /** `checkRosTopic`: the topic must be a string. */
  function CheckRosTopic(reader: string, topic: Value): (r: Outcome)
    ensures r.Pass? <==> topic.Str?
    ensures r.Fail? ==> r.error == ReaderError(reader, InvalidField("rostopic"))
  {
    if !topic.Str? then Fail(ReaderError(reader, InvalidField("rostopic"))) else Pass
  }

  /** `getRosTopic`: the stored topic, re-checked on read. */
  function RosTopicOf(reader: string, d: Doc): (r: Result<Value>)
    ensures r.Success? <==> "rostopic" in d && d["rostopic"].Str?
    ensures r.Success? ==> r.value == d["rostopic"]
    ensures "rostopic" !in d ==> r == Failure(ReaderError(reader, MissingField(Str("rostopic"))))
  {
    CatchKeyError(reader,
      var topic :- Get(d, "rostopic");
      :- CheckRosTopic(reader, topic);
      Get(d, "rostopic"))
  }

  /**
   * `getExtrinsicsReferenceToHere`: the stored matrix as a transformation.
   * The bare `except:` around the lookup turns a missing field into the
   * same "invalid extrinsics" error as a malformed one.
   */
  function ExtrinsicsOf(reader: string, field: string, d: Doc): (r: Result<Transformation>)
    ensures r.Success? <==> field in d && ParseTransformation(d[field]).Some?
    ensures r.Success? ==> Some(r.value) == ParseTransformation(d[field])
    ensures r.Failure? ==> r.error == ReaderError(reader, InvalidField(field))
  {
    match Get(d, field)
    case Success(v) =>
      (match ParseTransformation(v)
       case Some(t) => Success(t)
       case None => Failure(ReaderError(reader, InvalidField(field))))
    case Failure(_) => Failure(ReaderError(reader, InvalidField(field)))
  }

  /** `checkTimeshiftToReference`: the shift must be a float. */
  function CheckTimeshift(reader: string, timeShift: Value): (r: Outcome)
    ensures r.Pass? <==> timeShift.Float?
    ensures r.Fail? ==> r.error == ReaderError(reader, InvalidField("timeshift"))
  {
    if !timeShift.Float? then Fail(ReaderError(reader, InvalidField("timeshift"))) else Pass
  }

  /** `getTimeshiftToReference`: the stored value, not re-checked. */
  function TimeshiftOf(reader: string, field: string, d: Doc): (r: Result<Value>)
    ensures r.Success? <==> field in d
    ensures r.Success? ==> r.value == d[field]
    ensures r.Failure? ==> r.error == ReaderError(reader, MissingField(Str(field)))
  {
    CatchKeyError(reader, Get(d, field))
  }

  // ---------------------------------------------------------------------
  // The sensor reader object

  /**
   * `SensorParametersBase` (with its `ParametersBase`): a document that
   * the setters update in place.
   */
  class SensorParameters {
    var data: Doc
    const yamlFile: string
    const name: string
    const referenceSensorName: string
    const extrinsicsFieldName: string
    const timeshiftFieldName: string

    /** The document is the already-parsed file, or empty when `createYaml` is set. */
    constructor (yamlFile: string, name: string, referenceSensorName: string, createYaml: bool, parsed: Doc)
      ensures this.yamlFile == yamlFile && this.name == name
      ensures this.referenceSensorName == referenceSensorName
      ensures extrinsicsFieldName == ExtrinsicsFieldName(referenceSensorName)
      ensures timeshiftFieldName == TimeshiftFieldName(referenceSensorName)
      ensures data == if createYaml then map[] else parsed
    {
      this.yamlFile := yamlFile;
      this.name := name;
      this.referenceSensorName := referenceSensorName;
      extrinsicsFieldName := ExtrinsicsFieldName(referenceSensorName);
      timeshiftFieldName := TimeshiftFieldName(referenceSensorName);
      data := if createYaml then map[] else parsed;
    }

    method GetYamlDict() returns (d: Doc)
      ensures d == data
    {
      d := data;
    }

    method SetYamlDict(d: Doc)
      modifies this
      ensures data == d
    {
      data := d;
    }

    method GetRosTopic() returns (r: Result<Value>)
      ensures r == RosTopicOf(name, data)
      ensures r.Success? ==> r.value.Str?
    {
      r := RosTopicOf(name, data);
    }

    method SetRosTopic(topic: Value) returns (r: Outcome)
      modifies this
      ensures r == CheckRosTopic(name, topic)
      ensures r.Pass? ==> data == old(data)["rostopic" := topic]
      ensures r.Fail? ==> data == old(data)
      ensures r.Pass? ==> RosTopicOf(name, data) == Success(topic)
    {
      r := CheckRosTopic(name, topic);
      if r.Pass? {
        data := data["rostopic" := topic];
      }
    }

    method HasExtrinsics() returns (b: bool)
      ensures b <==> extrinsicsFieldName in data
    {
      b := extrinsicsFieldName in data;
    }

    method SetExtrinsicsReferenceToHere(extrinsics: Transformation)
      modifies this
      ensures data == old(data)[extrinsicsFieldName := TransformationValue(extrinsics)]
      ensures ExtrinsicsOf(name, extrinsicsFieldName, data) == Success(extrinsics)
    {
      data := data[extrinsicsFieldName := TransformationValue(extrinsics)];
      TransformationRoundTrip(extrinsics);
    }

    method GetExtrinsicsReferenceToHere() returns (r: Result<Transformation>)
      ensures r == ExtrinsicsOf(name, extrinsicsFieldName, data)
      ensures r.Success? <==> extrinsicsFieldName in data && ParseTransformation(data[extrinsicsFieldName]).Some?
    {
      r := ExtrinsicsOf(name, extrinsicsFieldName, data);
    }

    method GetTimeshiftToReference() returns (r: Result<Value>)
      ensures r == TimeshiftOf(name, timeshiftFieldName, data)
      ensures r.Success? <==> timeshiftFieldName in data
    {
      r := TimeshiftOf(name, timeshiftFieldName, data);
    }

    method SetTimeshiftToReference(timeShift: Value) returns (r: Outcome)
      modifies this
      ensures r == CheckTimeshift(name, timeShift)
      ensures r.Pass? ==> data == old(data)[timeshiftFieldName := timeShift]
      ensures r.Fail? ==> data == old(data)
      ensures r.Pass? ==> TimeshiftOf(name, timeshiftFieldName, data) == Success(timeShift)
    {
      r := CheckTimeshift(name, timeShift);
      if r.Pass? {
        data := data[timeshiftFieldName := timeShift];
      }
    }
  }
}
