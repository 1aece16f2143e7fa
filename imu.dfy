/**
 * `ImuParameters`: the IMU model name, its update rate and the noise
 * statistics of its accelerometer and gyroscope.
 */
module Imu {
  import opened PyValues
  import opened Sensor

  /** The reader name in this reader's error messages. */
  const ImuReader := "ImuConfig"

  /** The two instruments whose statistics the reader holds. */
  datatype Instrument = Accelerometer | Gyroscope

  /** The prefix of the instrument's fields: "accelerometer" or "gyroscope". */
  function Prefix(inst: Instrument): string {
    match inst
    case Accelerometer => "accelerometer"
    case Gyroscope => "gyroscope"
  }

  function NoiseDensityField(inst: Instrument): string { Prefix(inst) + "_noise_density" }

  function RandomWalkField(inst: Instrument): string { Prefix(inst) + "_random_walk" }

  /** The four statistics fields, the update rate and the model name are six distinct keys. */
  lemma StatisticsFieldsDistinct(a: Instrument, b: Instrument)
    ensures NoiseDensityField(a) != RandomWalkField(b)
    ensures NoiseDensityField(a) == NoiseDensityField(b) <==> a == b
    ensures RandomWalkField(a) == RandomWalkField(b) <==> a == b
    ensures NoiseDensityField(a) !in {"update_rate", "model"} && RandomWalkField(a) !in {"update_rate", "model"}
  {
  }

  /**
   * Python 2's `v <= 0.0` being false: a positive number, or any string,
   * list or dict (they order above every number).
   */
  predicate AboveZero(v: Value) {
    !Le(v, 0.0)
  }

  /**
   * The discrete-time noise density `density / sqrt(1.0 / rate)`, kept
   * as the pair it is computed from (the square root is not modelled).
   */
  datatype DiscreteNoise = DiscreteNoise(density: real, rate: real)

  /** What the statistics getters return: (discrete density, random walk, density). */
  datatype Statistics = Statistics(discrete: DiscreteNoise, randomWalk: Value, noiseDensity: Value)

  // ---------------------------------------------------------------------
  // Checks and getters on an IMU document

  /** `checkModel`: the model must be a string. */
  function CheckModel(model: Value): (r: Outcome)
    ensures r.Pass? <==> model.Str?
    ensures r.Fail? ==> r.error == ReaderError(ImuReader, InvalidField("model"))
  {
    if !model.Str? then Fail(ReaderError(ImuReader, InvalidField("model"))) else Pass
  }

  /** `getModel`. */
  function ModelOf(d: Doc): (r: Result<Value>)
    ensures r.Success? <==> "model" in d && d["model"].Str?
    ensures r.Success? ==> r.value == d["model"]
    ensures "model" !in d ==> r == Failure(ReaderError(ImuReader, MissingField(Str("model"))))
  {
    CatchKeyError(ImuReader,
      var model :- Get(d, "model");
      :- CheckModel(model);
      Success(model))
  }

  /** `checkUpdateRate`: refuses a rate `<= 0.0` (and None, which orders below numbers). */
  function CheckUpdateRate(rate: Value): (r: Outcome)
    ensures r.Pass? <==> AboveZero(rate)
    ensures Number(rate).Some? ==> (r.Pass? <==> Number(rate).value > 0.0)
    ensures r.Fail? ==> r.error == ReaderError(ImuReader, InvalidField("update_rate"))
  {
    if Le(rate, 0.0) then Fail(ReaderError(ImuReader, InvalidField("update_rate"))) else Pass
  }

  /** `getUpdateRate`. */
  function UpdateRateOf(d: Doc): (r: Result<Value>)
    ensures r.Success? <==> "update_rate" in d && AboveZero(d["update_rate"])
    ensures r.Success? ==> r.value == d["update_rate"]
    ensures "update_rate" !in d ==> r == Failure(ReaderError(ImuReader, MissingField(Str("update_rate"))))
    ensures r.Failure? ==> r.error.ReaderError?
  {
    CatchKeyError(ImuReader,
      var rate :- Get(d, "update_rate");
      :- CheckUpdateRate(rate);
      Success(rate))
  }

  /**
   * `checkAccelerometerStatistics` / `checkGyroStatistics`: the noise
   * density is checked first, then the random walk.
   */
  function CheckStatistics(inst: Instrument, noiseDensity: Value, randomWalk: Value): (r: Outcome)
    ensures r.Pass? <==> AboveZero(noiseDensity) && AboveZero(randomWalk)
    ensures !AboveZero(noiseDensity) ==> r == Fail(ReaderError(ImuReader, InvalidField(NoiseDensityField(inst))))
    ensures AboveZero(noiseDensity) && !AboveZero(randomWalk)
            ==> r == Fail(ReaderError(ImuReader, InvalidField(RandomWalkField(inst))))
  {
    if Le(noiseDensity, 0.0) then Fail(ReaderError(ImuReader, InvalidField(NoiseDensityField(inst))))
    else if Le(randomWalk, 0.0) then Fail(ReaderError(ImuReader, InvalidField(RandomWalkField(inst))))
    else Pass
  }

  /**
   * `density / math.sqrt(1.0 / rate)`: `1.0 / rate` refuses a
   * non-number and divides by zero for a zero rate; the square root of a
   * negative quotient is a math domain error; the density must then be a
   * number. The discrete density is kept as the pair it is computed from.
   */
  function Discretize(noiseDensity: Value, rate: Value): (r: Result<DiscreteNoise>)
    ensures r.Success? <==> PositiveNumber(rate) && Number(noiseDensity).Some?
    ensures r.Success? ==> r.value == DiscreteNoise(Number(noiseDensity).value, Number(rate).value)
    ensures Number(rate).None? ==> r == Failure(TypeError)
    ensures Number(rate) == Some(0.0) ==> r == Failure(ZeroDivisionError)
    ensures Number(rate).Some? && Number(rate).value < 0.0 ==> r == Failure(ValueError)
    ensures PositiveNumber(rate) && Number(noiseDensity).None? ==> r == Failure(TypeError)
  {
    match Number(rate)
    case None => Failure(TypeError)
    case Some(rt) =>
      if rt == 0.0 then Failure(ZeroDivisionError)
      else if rt < 0.0 then Failure(ValueError)
      else
        match Number(noiseDensity)
        case None => Failure(TypeError)
        case Some(nd) => Success(DiscreteNoise(nd, rt))
  }

  /** A statistic or rate both checks and arithmetic accept: a number above zero. */
  predicate PositiveNumber(v: Value) {
    Number(v).Some? && Number(v).value > 0.0
  }

  /**
   * `getAccelerometerStatistics` / `getGyroStatistics`: the statistics
   * are checked before the update rate is read; the random walk and the
   * density come back as stored.
   */
  function StatisticsOf(inst: Instrument, d: Doc): (r: Result<Statistics>)
    ensures r.Success? <==> && NoiseDensityField(inst) in d && RandomWalkField(inst) in d && "update_rate" in d
                            && PositiveNumber(d[NoiseDensityField(inst)]) && AboveZero(d[RandomWalkField(inst)])
                            && PositiveNumber(d["update_rate"])
    ensures r.Success? ==> && r.value.noiseDensity == d[NoiseDensityField(inst)]
                           && r.value.randomWalk == d[RandomWalkField(inst)]
                           && r.value.discrete == DiscreteNoise(Number(d[NoiseDensityField(inst)]).value,
                                                                Number(d["update_rate"]).value)
    ensures NoiseDensityField(inst) !in d
            ==> r == Failure(ReaderError(ImuReader, MissingField(Str(NoiseDensityField(inst)))))
  {
    CatchKeyError(ImuReader,
      var noiseDensity :- Get(d, NoiseDensityField(inst));
      var randomWalk :- Get(d, RandomWalkField(inst));
      :- CheckStatistics(inst, noiseDensity, randomWalk);
      var rate :- UpdateRateOf(d);
      var discrete :- Discretize(noiseDensity, rate);
      Success(Statistics(discrete, randomWalk, noiseDensity)))
  }

  /**
   * A successful read divides by a positive rate and a positive density:
   * `sqrt(1.0 / rate)` is defined and the discrete density is positive.
   */
  lemma DiscreteNoiseWellDefined(inst: Instrument, d: Doc)
    requires StatisticsOf(inst, d).Success?
    ensures var n := StatisticsOf(inst, d).value.discrete;
            n.density > 0.0 && n.rate > 0.0
  {
  }

  /** Statistics are validated first: a bad density is reported even when the update rate is missing. */
  lemma StatisticsCheckedBeforeRate(inst: Instrument, d: Doc)
    requires NoiseDensityField(inst) in d && RandomWalkField(inst) in d && "update_rate" !in d
    ensures !AboveZero(d[NoiseDensityField(inst)])
            ==> StatisticsOf(inst, d) == Failure(ReaderError(ImuReader, InvalidField(NoiseDensityField(inst))))
    ensures AboveZero(d[NoiseDensityField(inst)]) && AboveZero(d[RandomWalkField(inst)])
            ==> StatisticsOf(inst, d) == Failure(ReaderError(ImuReader, MissingField(Str("update_rate"))))
  {
  }

  /** A string density passes the `<= 0.0` check but not the division. */
  lemma StringDensityPassesCheck(inst: Instrument, d: Doc)
    requires d == map[NoiseDensityField(inst) := Str("0.01"), RandomWalkField(inst) := Float(0.001),
                      "update_rate" := Float(200.0)]
    ensures CheckStatistics(inst, d[NoiseDensityField(inst)], d[RandomWalkField(inst)]).Pass?
    ensures StatisticsOf(inst, d) == Failure(TypeError)
  {
    StatisticsFieldsDistinct(inst, inst);
  }

  // ---------------------------------------------------------------------
  // The IMU reader object

  /** `ImuParameters`: the sensor document plus the IMU accessors. */
  class ImuParameters {
    const sensor: SensorParameters

    constructor (yamlFile: string, referenceSensorName: string, createYaml: bool, parsed: Doc)
      ensures fresh(sensor)
      ensures sensor.yamlFile == yamlFile && sensor.name == ImuReader
      ensures sensor.referenceSensorName == referenceSensorName
      ensures sensor.extrinsicsFieldName == ExtrinsicsFieldName(referenceSensorName)
      ensures sensor.timeshiftFieldName == TimeshiftFieldName(referenceSensorName)
      ensures sensor.data == if createYaml then map[] else parsed
    {
      sensor := new SensorParameters(yamlFile, ImuReader, referenceSensorName, createYaml, parsed);
    }

    method GetModel() returns (r: Result<Value>)
      ensures r == ModelOf(sensor.data)
      ensures r.Success? ==> r.value.Str?
    {
      r := ModelOf(sensor.data);
    }

    method GetUpdateRate() returns (r: Result<Value>)
      ensures r == UpdateRateOf(sensor.data)
      ensures r.Success? ==> AboveZero(r.value)
    {
      r := UpdateRateOf(sensor.data);
    }

    method SetUpdateRate(rate: Value) returns (r: Outcome)
      modifies sensor
      ensures r == CheckUpdateRate(rate)
      ensures r.Pass? ==> sensor.data == old(sensor.data)["update_rate" := rate]
      ensures r.Fail? ==> sensor.data == old(sensor.data)
      ensures r.Pass? ==> UpdateRateOf(sensor.data) == Success(rate)
    {
      r := CheckUpdateRate(rate);
      if r.Pass? {
        sensor.data := sensor.data["update_rate" := rate];
      }
    }

    method GetStatistics(inst: Instrument) returns (r: Result<Statistics>)
      ensures r == StatisticsOf(inst, sensor.data)
    {
      r := StatisticsOf(inst, sensor.data);
    }

    /**
     * `setAccelerometerStatistics` / `setGyroStatistics`: check, then
     * write the density and the random walk. With a positive numeric
     * update rate and a numeric density already stored, the getter
     * returns what was written.
     */
    method SetStatistics(inst: Instrument, noiseDensity: Value, randomWalk: Value) returns (r: Outcome)
      modifies sensor
      ensures r == CheckStatistics(inst, noiseDensity, randomWalk)
      ensures r.Pass? ==> sensor.data == old(sensor.data)[NoiseDensityField(inst) := noiseDensity]
                                                         [RandomWalkField(inst) := randomWalk]
      ensures r.Fail? ==> sensor.data == old(sensor.data)
      ensures r.Pass? && Number(noiseDensity).Some? && "update_rate" in old(sensor.data)
              && PositiveNumber(old(sensor.data)["update_rate"])
              ==> StatisticsOf(inst, sensor.data)
                  == Success(Statistics(DiscreteNoise(Number(noiseDensity).value,
                                                      Number(old(sensor.data)["update_rate"]).value),
                                        randomWalk, noiseDensity))
    {
      r := CheckStatistics(inst, noiseDensity, randomWalk);
      if r.Pass? {
        StatisticsFieldsDistinct(inst, inst);
        sensor.data := sensor.data[NoiseDensityField(inst) := noiseDensity][RandomWalkField(inst) := randomWalk];
      }
    }
  }
}
