/**
 * `LiDARParameters`: whether point timestamps are relative, and a hint
 * for how many points a frame holds.
 */
module LiDAR {
  import opened PyValues
  import opened Sensor

  /** The reader name in this reader's error messages. */
  const LiDARReader := "LiDARConfig"

  /** `checkRelativePointTimestamp`: the flag must be a bool. */
  function CheckRelativePointTimestamp(timestamp: Value): (r: Outcome)
    ensures r.Pass? <==> timestamp.Bool?
    ensures r.Fail? ==> r.error == ReaderError(LiDARReader, InvalidField("relative_point_timestamp"))
  {
    if !timestamp.Bool? then Fail(ReaderError(LiDARReader, InvalidField("relative_point_timestamp"))) else Pass
  }

  /** `getRelativePointTimestamp`. */
  function RelativePointTimestampOf(d: Doc): (r: Result<Value>)
    ensures r.Success? <==> "relative_point_timestamp" in d && d["relative_point_timestamp"].Bool?
    ensures r.Success? ==> r.value == d["relative_point_timestamp"]
    ensures "relative_point_timestamp" !in d
            ==> r == Failure(ReaderError(LiDARReader, MissingField(Str("relative_point_timestamp"))))
  {
    CatchKeyError(LiDARReader,
      var timestamp :- Get(d, "relative_point_timestamp");
      :- CheckRelativePointTimestamp(timestamp);
      Success(timestamp))
  }

  /** `checkReservedPointsPerFrame`: the hint must be an int (a bool is one too). */
  function CheckReservedPointsPerFrame(num: Value): (r: Outcome)
    ensures r.Pass? <==> IsInt(num)
    ensures r.Fail? ==> r.error == ReaderError(LiDARReader, InvalidField("reserved_points_per_frame"))
  {
    if !IsInt(num) then Fail(ReaderError(LiDARReader, InvalidField("reserved_points_per_frame"))) else Pass
  }

  /** `getReservedPointsPerFrame`. */
  function ReservedPointsPerFrameOf(d: Doc): (r: Result<Value>)
    ensures r.Success? <==> "reserved_points_per_frame" in d && IsInt(d["reserved_points_per_frame"])
    ensures r.Success? ==> r.value == d["reserved_points_per_frame"]
    ensures "reserved_points_per_frame" !in d
            ==> r == Failure(ReaderError(LiDARReader, MissingField(Str("reserved_points_per_frame"))))
  {
    CatchKeyError(LiDARReader,
      var num :- Get(d, "reserved_points_per_frame");
      :- CheckReservedPointsPerFrame(num);
      Success(num))
  }

  /** `LiDARParameters`: the sensor document plus the LiDAR accessors. */
  class LiDARParameters {
    const sensor: SensorParameters

    constructor (yamlFile: string, referenceSensorName: string, createYaml: bool, parsed: Doc)
      ensures fresh(sensor)
      ensures sensor.yamlFile == yamlFile && sensor.name == LiDARReader
      ensures sensor.referenceSensorName == referenceSensorName
      ensures sensor.extrinsicsFieldName == ExtrinsicsFieldName(referenceSensorName)
      ensures sensor.timeshiftFieldName == TimeshiftFieldName(referenceSensorName)
      ensures sensor.data == if createYaml then map[] else parsed
    {
      sensor := new SensorParameters(yamlFile, LiDARReader, referenceSensorName, createYaml, parsed);
    }

    method GetRelativePointTimestamp() returns (r: Result<Value>)
      ensures r == RelativePointTimestampOf(sensor.data)
      ensures r.Success? ==> r.value.Bool?
    {
      r := RelativePointTimestampOf(sensor.data);
    }

    method SetRelativePointTimestamp(timestamp: Value) returns (r: Outcome)
      modifies sensor
      ensures r == CheckRelativePointTimestamp(timestamp)
      ensures r.Pass? ==> sensor.data == old(sensor.data)["relative_point_timestamp" := timestamp]
      ensures r.Fail? ==> sensor.data == old(sensor.data)
      ensures r.Pass? ==> RelativePointTimestampOf(sensor.data) == Success(timestamp)
    {
      r := CheckRelativePointTimestamp(timestamp);
      if r.Pass? {
        sensor.data := sensor.data["relative_point_timestamp" := timestamp];
      }
    }

    method GetReservedPointsPerFrame() returns (r: Result<Value>)
      ensures r == ReservedPointsPerFrameOf(sensor.data)
      ensures r.Success? ==> IsInt(r.value)
    {
      r := ReservedPointsPerFrameOf(sensor.data);
    }

    /** `setRoughlyReservedPointsPerFrame`. */
    method SetRoughlyReservedPointsPerFrame(num: Value) returns (r: Outcome)
      modifies sensor
      ensures r == CheckReservedPointsPerFrame(num)
      ensures r.Pass? ==> sensor.data == old(sensor.data)["reserved_points_per_frame" := num]
      ensures r.Fail? ==> sensor.data == old(sensor.data)
      ensures r.Pass? ==> ReservedPointsPerFrameOf(sensor.data) == Success(num)
    {
      r := CheckReservedPointsPerFrame(num);
      if r.Pass? {
        sensor.data := sensor.data["reserved_points_per_frame" := num];
      }
    }
  }
}
