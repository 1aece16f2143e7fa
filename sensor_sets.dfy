/**
 * `ImuSetParameters` and `LiDARListParameters`: a document whose entries
 * are member sensors' documents, a counter of adds, and a lookup by
 * number that hands back a fresh reader around the member document.
 */
module SensorSets {
  import opened PyValues
  import opened KeyNames
  import opened Collections
  import opened Imu
  import opened LiDAR

  /** The reader names in these readers' error messages. */
  const ImuSetReader := "ImuSetConfig"
  const LiDARListReader := "LiDARListParameters"

  /** `ImuSetParameters`. */
  class ImuSetParameters {
    var data: Doc
    var imuCount: nat
    const yamlFile: string
    const referenceSensorName: string

    constructor (yamlFile: string, referenceSensorName: string, createYaml: bool, parsed: Doc)
      ensures this.yamlFile == yamlFile && this.referenceSensorName == referenceSensorName
      ensures data == if createYaml then map[] else parsed
      ensures imuCount == 0
    {
      this.yamlFile := yamlFile;
      this.referenceSensorName := referenceSensorName;
      data := if createYaml then map[] else parsed;
      imuCount := 0;
    }

    /** `numImus`. */
    function NumImus(): (n: nat)
      reads this
      ensures n == |data|
    {
      |data|
    }

    /**
     * `addImuParameters`: stores the member under the given name or
     * `imu<counter>`, and advances the counter in both cases. From an
     * empty set, unnamed adds keep the keys `imu0` .. `imu<n-1>`.
     */
    method AddImuParameters(imu: ImuParameters, name: Option<string>)
      modifies this
      ensures data == old(data)[MemberKey("imu", old(imuCount), name) := Dict(imu.sensor.data)]
      ensures imuCount == old(imuCount) + 1
      ensures name.None? && DenseKeys("imu", old(data)) && old(imuCount) == |old(data)|
              ==> DenseKeys("imu", data) && imuCount == |data|
    {
      if name.None? && DenseKeys("imu", data) && imuCount == |data| {
        AppendKeepsDense("imu", data, Dict(imu.sensor.data));
      }
      data := data[MemberKey("imu", imuCount, name) := Dict(imu.sensor.data)];
      imuCount := imuCount + 1;
    }

    /** `getImuParameters`: a fresh IMU reader whose document is the member's. */
    method GetImuParameters(nr: int) returns (r: Result<ImuParameters>)
      ensures r.Success? <==> IndexedMember(ImuSetReader, "imu", data, nr).Success?
      ensures r.Failure? ==> r.error == IndexedMember(ImuSetReader, "imu", data, nr).error
      ensures r.Success? ==> && fresh(r.value.sensor)
                             && r.value.sensor.data == IndexedMember(ImuSetReader, "imu", data, nr).value
                             && r.value.sensor.referenceSensorName == referenceSensorName
    {
      var member := IndexedMember(ImuSetReader, "imu", data, nr);
      if member.Failure? {
        return Failure(member.error);
      }
      var param := new ImuParameters("TEMP_CONFIG", referenceSensorName, true, map[]);
      param.sensor.SetYamlDict(member.value);
      r := Success(param);
    }
  }

  /** `LiDARListParameters`: as the IMU set, with `lidar<N>` keys. */
  class LiDARListParameters {
    var data: Doc
    var lidarCount: nat
    const yamlFile: string
    const referenceSensorName: string

    constructor (yamlFile: string, referenceSensorName: string, createYaml: bool, parsed: Doc)
      ensures this.yamlFile == yamlFile && this.referenceSensorName == referenceSensorName
      ensures data == if createYaml then map[] else parsed
      ensures lidarCount == 0
    {
      this.yamlFile := yamlFile;
      this.referenceSensorName := referenceSensorName;
      data := if createYaml then map[] else parsed;
      lidarCount := 0;
    }

    /** `numLiDARs`. */
    function NumLiDARs(): (n: nat)
      reads this
      ensures n == |data|
    {
      |data|
    }

    /** `getLiDARParameters`: a fresh LiDAR reader whose document is the member's. */
    method GetLiDARParameters(nr: int) returns (r: Result<LiDARParameters>)
      ensures r.Success? <==> IndexedMember(LiDARListReader, "lidar", data, nr).Success?
      ensures r.Failure? ==> r.error == IndexedMember(LiDARListReader, "lidar", data, nr).error
      ensures r.Success? ==> && fresh(r.value.sensor)
                             && r.value.sensor.data == IndexedMember(LiDARListReader, "lidar", data, nr).value
                             && r.value.sensor.referenceSensorName == referenceSensorName
    {
      var member := IndexedMember(LiDARListReader, "lidar", data, nr);
      if member.Failure? {
        return Failure(member.error);
      }
      var param := new LiDARParameters("TEMP_CONFIG", referenceSensorName, true, map[]);
      param.sensor.SetYamlDict(member.value);
      r := Success(param);
    }

    /** `addLiDARParameters`: as `addImuParameters`. */
    method AddLiDARParameters(lidar: LiDARParameters, name: Option<string>)
      modifies this
      ensures data == old(data)[MemberKey("lidar", old(lidarCount), name) := Dict(lidar.sensor.data)]
      ensures lidarCount == old(lidarCount) + 1
      ensures name.None? && DenseKeys("lidar", old(data)) && old(lidarCount) == |old(data)|
              ==> DenseKeys("lidar", data) && lidarCount == |data|
    {
      if name.None? && DenseKeys("lidar", data) && lidarCount == |data| {
        AppendKeepsDense("lidar", data, Dict(lidar.sensor.data));
      }
      data := data[MemberKey("lidar", lidarCount, name) := Dict(lidar.sensor.data)];
      lidarCount := lidarCount + 1;
    }
  }
}
