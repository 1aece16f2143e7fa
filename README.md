# Kalibr configuration readers, modelled in Dafny

Kalibr describes a calibration problem in YAML files: a camera chain
(`cam0`, `cam1`, ...), IMUs, LiDARs and the calibration target. The
readers in `kalibr_common/ConfigReader.py` wrap the parsed document of
each file (`self.data`, a mapping from string keys to values) and give it
typed accessors:

- every `check*` method validates a value and raises a RuntimeError
  prefixed `[<reader name> Reader]: ` (`raiseError`) when it is refused;
- every setter checks before it writes, and most getters check the
  stored value again before they return it; `getTimeshiftToReference`,
  `getShouldFixLastCamToHere`, `getCameraImuOrientationPrior` and the
  `numberTargets` field of `getTargetParams` return what is stored
  without a check;
- the decorator `catch_keyerror` turns a missing key into the reader's
  "field missing" error;
- the collection readers store member documents under `cam<N>`,
  `imu<N>` and `lidar<N>` and look them up by number.

This project models those readers. The parsed document is a Dafny map
from strings to a `Value` datatype (`PyValues`). Every exception a reader
can raise is a value of the `Error` datatype: `ReaderError(reader, fault)`
is `raiseError`, the other constructors are Python's own exceptions. The
checks and getters are functions on the document. The readers themselves
are classes whose `data` field the setters and add methods replace, as the
source updates `self.data` in place. The Python 2 rules the checks depend
on are spelled out, for example:

- a bool is an `int`;
- comparing a number with None, a string or a list never raises: None
  orders below every number, the others above;
- `x in {...}` raises TypeError for a list or dict `x`.

Modules, one file each: `PyValues` (values, errors, the Python
operations and `catch_keyerror`), `KeyNames` (`<prefix><N>` keys),
`Sensor` (`ParametersBase` with `SensorParametersBase`), `Camera`,
`AslamCamera`, `Imu`, `LiDAR`, `Target`, `Collections` (what the three
collections share), `SensorSets` (IMU set, LiDAR list) and `CameraChain`.

## Model

| member | source | states |
|---|---|---|
| `PyValues.CatchKeyError` | aslam_offline_calibration/kalibr/python/kalibr_common/ConfigReader.py:184-192 | a KeyError becomes the reader's MissingField error with the same key; every other result, success or error, passes through unchanged; the result is never a KeyError |
| `PyValues.CatchKeyErrorOutcome` | aslam_offline_calibration/kalibr/python/kalibr_common/ConfigReader.py:184-192 | the same decorator around an accessor that returns nothing |
| `PyValues.FloatList` | aslam_offline_calibration/kalibr/python/kalibr_common/ConfigReader.py:387 | `[float(val) for val in v]`: on success one float per element of the input, and for a list exactly the element-wise conversion |
| `KeyNames.IndexedInjective` | aslam_offline_calibration/kalibr/python/kalibr_common/ConfigReader.py:783 | `cam{0}`-style keys with the same prefix are equal exactly when their numbers are |
| `KeyNames.IndexedKeysMember` | aslam_offline_calibration/kalibr/python/kalibr_common/ConfigReader.py:782-783 | `<prefix><i>` is among the first n keys exactly when 0 <= i < n |
| `KeyNames.IndexedKeysCount` | aslam_offline_calibration/kalibr/python/kalibr_common/ConfigReader.py:782-783 | the first n keys are n distinct strings |
| `Sensor.TransformationRoundTrip` | aslam_offline_calibration/kalibr/python/kalibr_common/ConfigReader.py:263-276 | storing a transformation as `T().tolist()` and constructing one from the stored list gives the same transformation |
| `Sensor.DerivedFieldNamesDistinct` | aslam_offline_calibration/kalibr/python/kalibr_common/ConfigReader.py:243-244 | `T_here_<ref>` and `timeshift_to_<ref>` never collide with each other or with `rostopic`, and each determines its reference sensor |
| `Sensor.CheckRosTopic` | aslam_offline_calibration/kalibr/python/kalibr_common/ConfigReader.py:247-249 | passes exactly for a string; otherwise the reader's invalid-rostopic error |
| `Sensor.RosTopicOf` | aslam_offline_calibration/kalibr/python/kalibr_common/ConfigReader.py:251-254 | succeeds exactly when `rostopic` is stored and is a string, returning it; absent, the MissingField error |
| `Sensor.ExtrinsicsOf` | aslam_offline_calibration/kalibr/python/kalibr_common/ConfigReader.py:269-276 | succeeds exactly when the field holds a 4x4 numeric matrix, returning it; absent or malformed both give the one invalid-extrinsics error |
| `Sensor.CheckTimeshift` | aslam_offline_calibration/kalibr/python/kalibr_common/ConfigReader.py:278-280 | passes exactly for a float |
| `Sensor.TimeshiftOf` | aslam_offline_calibration/kalibr/python/kalibr_common/ConfigReader.py:282-284 | the stored timeshift, not re-checked; absent, the MissingField error |
| `Sensor.SensorParameters.constructor` | aslam_offline_calibration/kalibr/python/kalibr_common/ConfigReader.py:239-244 | name and reference sensor stored, field names derived from the reference; document empty when created, else the parsed one |
| `Sensor.SensorParameters.GetYamlDict` | aslam_offline_calibration/kalibr/python/kalibr_common/ConfigReader.py:229-230 | returns the document |
| `Sensor.SensorParameters.SetYamlDict` | aslam_offline_calibration/kalibr/python/kalibr_common/ConfigReader.py:232-233 | replaces the document |
| `Sensor.SensorParameters.GetRosTopic` | aslam_offline_calibration/kalibr/python/kalibr_common/ConfigReader.py:251-254 | the getter; a success is a string |
| `Sensor.SensorParameters.SetRosTopic` | aslam_offline_calibration/kalibr/python/kalibr_common/ConfigReader.py:256-258 | a refused topic leaves the document unchanged; an accepted one changes only `rostopic`, and the getter then returns it |
| `Sensor.SensorParameters.HasExtrinsics` | aslam_offline_calibration/kalibr/python/kalibr_common/ConfigReader.py:260-261 | true exactly when `T_here_<ref>` is a key |
| `Sensor.SensorParameters.SetExtrinsicsReferenceToHere` | aslam_offline_calibration/kalibr/python/kalibr_common/ConfigReader.py:263-267 | changes only `T_here_<ref>`; the getter then returns the same transformation |
| `Sensor.SensorParameters.GetExtrinsicsReferenceToHere` | aslam_offline_calibration/kalibr/python/kalibr_common/ConfigReader.py:269-276 | succeeds exactly when the field holds a well-formed matrix |
| `Sensor.SensorParameters.GetTimeshiftToReference` | aslam_offline_calibration/kalibr/python/kalibr_common/ConfigReader.py:282-284 | succeeds exactly when `timeshift_to_<ref>` is a key |
| `Sensor.SensorParameters.SetTimeshiftToReference` | aslam_offline_calibration/kalibr/python/kalibr_common/ConfigReader.py:286-288 | a non-float leaves the document unchanged; a float changes only `timeshift_to_<ref>`, and the getter then returns it |
| `Camera.CheckIntrinsics` | aslam_offline_calibration/kalibr/python/kalibr_common/ConfigReader.py:300-374 | passes exactly for a list meeting the table: pinhole 4, omni 5, eucm and ds 6 entries; the last four non-negative floats; omni xi not below 0; ds and eucm alpha in [0, 1); eucm beta not below 0; ds xi free. An unknown model and a wrong length give their own errors |
| `Camera.IntrinsicsOf` | aslam_offline_calibration/kalibr/python/kalibr_common/ConfigReader.py:376-381 | succeeds exactly when both fields are stored and pass the check, returning them; the first absent field is reported missing |
| `Camera.IntrinsicsRoundTrip` | aslam_offline_calibration/kalibr/python/kalibr_common/ConfigReader.py:376-387 | what the setter stores (the float conversion of checked intrinsics) passes the getter's check again, with the same length and the same numbers |
| `Camera.CheckDistortion` | aslam_offline_calibration/kalibr/python/kalibr_common/ConfigReader.py:390-402 | passes exactly when the model is radtan/equidistant (4), fov (1) or none (0) and the length matches; an unknown model gives UnknownDistortionModel, a list or dict model a TypeError |
| `Camera.DistortionOf` | aslam_offline_calibration/kalibr/python/kalibr_common/ConfigReader.py:404-408 | succeeds exactly when both fields are stored and pass the check, returning them |
| `Camera.DistortionRoundTrip` | aslam_offline_calibration/kalibr/python/kalibr_common/ConfigReader.py:404-413 | what the setter stores passes the getter's check again, with the same numbers |
| `Camera.CheckResolution` | aslam_offline_calibration/kalibr/python/kalibr_common/ConfigReader.py:416-418 | passes exactly for a list of two ints (bools included); no positivity check |
| `Camera.ResolutionOf` | aslam_offline_calibration/kalibr/python/kalibr_common/ConfigReader.py:420-423 | succeeds exactly when the stored resolution passes the check |
| `Camera.IntegerFocalLengthRejected` | aslam_offline_calibration/kalibr/python/kalibr_common/ConfigReader.py:367-369 | whole-number focal lengths are refused although the setter would convert them |
| `Camera.DoubleSphereXiUnchecked` | aslam_offline_calibration/kalibr/python/kalibr_common/ConfigReader.py:331-344 | a ds vector whose xi is None passes the check, and its float conversion then fails |
| `Camera.CameraParameters.constructor` | aslam_offline_calibration/kalibr/python/kalibr_common/ConfigReader.py:291-293 | a sensor document named `CameraConfig` with the given reference sensor |
| `Camera.CameraParameters.GetIntrinsics` | aslam_offline_calibration/kalibr/python/kalibr_common/ConfigReader.py:376-381 | the getter on the current document |
| `Camera.CameraParameters.SetIntrinsics` | aslam_offline_calibration/kalibr/python/kalibr_common/ConfigReader.py:383-387 | refused input leaves the document unchanged; a failed float conversion leaves only `camera_model` written; success writes the model and the converted list, and the getter returns them |
| `Camera.CameraParameters.GetDistortion` | aslam_offline_calibration/kalibr/python/kalibr_common/ConfigReader.py:404-408 | the getter on the current document |
| `Camera.CameraParameters.SetDistortion` | aslam_offline_calibration/kalibr/python/kalibr_common/ConfigReader.py:410-413 | as SetIntrinsics for `distortion_model` and `distortion_coeffs` |
| `Camera.CameraParameters.GetResolution` | aslam_offline_calibration/kalibr/python/kalibr_common/ConfigReader.py:420-423 | the getter on the current document |
| `Camera.CameraParameters.SetResolution` | aslam_offline_calibration/kalibr/python/kalibr_common/ConfigReader.py:425-427 | refused input leaves the document unchanged; otherwise only `resolution` changes and the getter returns it |
| `AslamCamera.Build` | aslam_offline_calibration/kalibr/python/kalibr_common/ConfigReader.py:13-172 | the branch table of `__init__`: succeeds exactly for pinhole with radtan, equidistant, fov or none, omni with radtan or none, eucm with none and ds with none; omni with equidistant is a RuntimeError; an unknown camera model is a RuntimeError; the plain pinhole geometry is chosen exactly for pinhole without distortion |
| `AslamCamera.Indices` | aslam_offline_calibration/kalibr/python/kalibr_common/ConfigReader.py:20-21 | `v[0]` .. `v[n-1]` succeed exactly when every one of those indexings does, and give their values in order |
| `AslamCamera.LibraryCall` | aslam_offline_calibration/kalibr/python/kalibr_common/ConfigReader.py:20-26 | a camera-library constructor accepts its arguments exactly when every one is a number, and refuses the others with a TypeError |
| `AslamCamera.Distortion` | aslam_offline_calibration/kalibr/python/kalibr_common/ConfigReader.py:19-21 | a distortion object built from n > 0 coefficients succeeds exactly when `dist_coeff[0]` .. `dist_coeff[n-1]` exist and are numbers |
| `AslamCamera.ProjectionArguments` | aslam_offline_calibration/kalibr/python/kalibr_common/ConfigReader.py:23-26 | the projection receives the model's leading parameters, the two focal lengths, the two principal-point coordinates and the two resolution entries, in that order, and fails when one cannot be indexed |
| `AslamCamera.Construct` | aslam_offline_calibration/kalibr/python/kalibr_common/ConfigReader.py:19-28 | a branch's constructor calls succeed exactly when the distortion object is built and every projection argument is a number |
| `AslamCamera.InitWith` | aslam_offline_calibration/kalibr/python/kalibr_common/ConfigReader.py:13-172 | an unknown camera model is refused before anything is indexed; a constructed camera has the geometry of its pair's branch, stored in `geometry` except where line 68's attribute differs |
| `AslamCamera.InitAsWritten` | aslam_offline_calibration/kalibr/python/kalibr_common/ConfigReader.py:63-68 | as written, a constructed camera stores its geometry in `camera` exactly when it is the plain pinhole geometry |
| `AslamCamera.Init` | aslam_offline_calibration/kalibr/python/kalibr_common/ConfigReader.py:13-172 | the corrected constructor: a constructed camera has the geometry of its pair's branch and stores it in `geometry` |
| `AslamCamera.IntrinsicsNumeric` | aslam_offline_calibration/kalibr/python/kalibr_common/ConfigReader.py:16-17 | the leading parameters and the two two-entry slices of the intrinsics are numbers exactly when the intrinsics are a list whose first `lead + 4` entries are numbers |
| `AslamCamera.ConstructNumeric` | aslam_offline_calibration/kalibr/python/kalibr_common/ConfigReader.py:19-28 | the constructor calls succeed exactly when the used coefficients, the leading parameters, both slices and the resolution are numbers in lists long enough |
| `AslamCamera.InitSucceedsExactlyWhenConstructible` | aslam_offline_calibration/kalibr/python/kalibr_common/ConfigReader.py:13-172 | `__init__` succeeds exactly when the pair is supported and every intrinsic, every coefficient the distortion model uses and both resolution entries are numbers in lists long enough, whatever attribute line 68 uses |
| `AslamCamera.FromParameters` | aslam_offline_calibration/kalibr/python/kalibr_common/ConfigReader.py:174-180 | succeeds exactly when the three getters succeed and what they read is constructible; a getter's error is the result; as written, a built camera has its geometry in `camera` exactly when it is the plain pinhole |
| `AslamCamera.FromParametersCorrected` | aslam_offline_calibration/kalibr/python/kalibr_common/ConfigReader.py:174-180 | `fromParameters` over the corrected constructor builds the same documents with the same geometry and fails with the same errors, and every camera has its geometry in `geometry` |
| `AslamCamera.FromGetters` | aslam_offline_calibration/kalibr/python/kalibr_common/ConfigReader.py:174-180 | once the three getters succeed, `fromParameters` is the constructor as written applied to what they read |
| `AslamCamera.StoredParametersBuild` | aslam_offline_calibration/kalibr/python/kalibr_common/ConfigReader.py:174-180 | a document whose intrinsics and coefficients are lists of numbers, as the setters store them, is built exactly when its pair is supported |
| `AslamCamera.IndicesOfMapping` | aslam_offline_calibration/kalibr/python/kalibr_common/ConfigReader.py:20 | indexing a mapping with string keys by position fails at `[0]` with a KeyError for 0 |
| `AslamCamera.MappingCoefficientsKeyError` | aslam_offline_calibration/kalibr/python/kalibr_common/ConfigReader.py:19-21 | coefficients given as a mapping with string keys make every branch with a distortion object fail with a KeyError for 0, whichever attribute line 68 uses |
| `AslamCamera.MappingCoefficientsEscapeAsKeyError` | aslam_offline_calibration/kalibr/python/kalibr_common/ConfigReader.py:174-180 | four coefficients in a mapping pass `getDistortion`, and `fromParameters` then fails with a plain KeyError, not a reader error |
| `AslamCamera.TextOmniXiRefusedByLibrary` | aslam_offline_calibration/kalibr/python/kalibr_common/ConfigReader.py:115-119 | an omni `xi` given as text passes `getIntrinsics`, and the projection constructor then refuses it with a TypeError |
| `AslamCamera.EucmAndDsNeedNoDistortion` | aslam_offline_calibration/kalibr/python/kalibr_common/ConfigReader.py:136-167 | an eucm or ds camera that is built has distortion model none and no coefficients |
| `AslamCamera.AsWrittenMissesGeometryOnlyForPinholeNone` | aslam_offline_calibration/kalibr/python/kalibr_common/ConfigReader.py:63-68 | the as-written and the corrected constructor succeed and fail alike with the same geometry, and as written the geometry is in `geometry` exactly when the pair is not pinhole without distortion |
| `AslamCamera.PinholeWithoutDistortionLacksGeometry` | aslam_offline_calibration/kalibr/python/kalibr_common/ConfigReader.py:63-72 | a valid pinhole camera without distortion is read and built by `fromParameters`, yet its geometry is in `camera`, not `geometry`; the corrected constructor puts the same geometry in `geometry` |
| `AslamCamera.EveryBuiltCameraHasGeometry` | aslam_offline_calibration/kalibr/python/kalibr_common/ConfigReader.py:13-172 | with the corrected attribute every camera any branch constructs has its geometry in `geometry`, and its pair is supported |
| `Imu.CheckModel` | aslam_offline_calibration/kalibr/python/kalibr_common/ConfigReader.py:482-484 | passes exactly for a string |
| `Imu.ModelOf` | aslam_offline_calibration/kalibr/python/kalibr_common/ConfigReader.py:486-489 | succeeds exactly when `model` is stored and is a string |
| `Imu.CheckUpdateRate` | aslam_offline_calibration/kalibr/python/kalibr_common/ConfigReader.py:492-494 | refuses exactly what `<= 0.0` accepts: None and numbers not above 0 |
| `Imu.UpdateRateOf` | aslam_offline_calibration/kalibr/python/kalibr_common/ConfigReader.py:496-499 | succeeds exactly when the stored rate passes the check; every failure is a reader error |
| `Imu.CheckStatistics` | aslam_offline_calibration/kalibr/python/kalibr_common/ConfigReader.py:506-510 | density checked first, then random walk, each refused when `<= 0.0`; the gyroscope check (lines 527-531) is the same with its own field names |
| `Imu.Discretize` | aslam_offline_calibration/kalibr/python/kalibr_common/ConfigReader.py:516 | `density / sqrt(1.0 / rate)`: a non-number rate is a TypeError, a zero rate a ZeroDivisionError, a negative rate a math-domain ValueError, and with a positive rate it succeeds exactly for a numeric density |
| `Imu.StatisticsOf` | aslam_offline_calibration/kalibr/python/kalibr_common/ConfigReader.py:512-519 | succeeds exactly when density and rate are positive numbers and the random walk passes its check; returns the random walk and the density as stored (gyroscope: lines 533-537) |
| `Imu.DiscreteNoiseWellDefined` | aslam_offline_calibration/kalibr/python/kalibr_common/ConfigReader.py:516 | a successful read divides by a positive rate and a positive density |
| `Imu.StatisticsCheckedBeforeRate` | aslam_offline_calibration/kalibr/python/kalibr_common/ConfigReader.py:512-516 | the statistics are validated before the update rate is read |
| `Imu.StringDensityPassesCheck` | aslam_offline_calibration/kalibr/python/kalibr_common/ConfigReader.py:506-516 | a string density passes the check and then fails the division with a TypeError |
| `Imu.ImuParameters.constructor` | aslam_offline_calibration/kalibr/python/kalibr_common/ConfigReader.py:475-477 | a sensor document named `ImuConfig` |
| `Imu.ImuParameters.GetModel` | aslam_offline_calibration/kalibr/python/kalibr_common/ConfigReader.py:486-489 | the getter; a success is a string |
| `Imu.ImuParameters.GetUpdateRate` | aslam_offline_calibration/kalibr/python/kalibr_common/ConfigReader.py:496-499 | the getter; a success is above zero |
| `Imu.ImuParameters.SetUpdateRate` | aslam_offline_calibration/kalibr/python/kalibr_common/ConfigReader.py:501-503 | refused input leaves the document unchanged; otherwise only `update_rate` changes and the getter returns it |
| `Imu.ImuParameters.GetStatistics` | aslam_offline_calibration/kalibr/python/kalibr_common/ConfigReader.py:512-519 | the statistics getter of either instrument on the current document |
| `Imu.ImuParameters.SetStatistics` | aslam_offline_calibration/kalibr/python/kalibr_common/ConfigReader.py:521-524 | refused input leaves the document unchanged; otherwise only the two fields change, and with a positive numeric rate the getter returns them (gyroscope: lines 539-542) |
| `LiDAR.CheckRelativePointTimestamp` | aslam_offline_calibration/kalibr/python/kalibr_common/ConfigReader.py:582-584 | passes exactly for a bool |
| `LiDAR.RelativePointTimestampOf` | aslam_offline_calibration/kalibr/python/kalibr_common/ConfigReader.py:586-589 | succeeds exactly when the flag is stored and is a bool |
| `LiDAR.CheckReservedPointsPerFrame` | aslam_offline_calibration/kalibr/python/kalibr_common/ConfigReader.py:596-598 | passes exactly for an int (bools included) |
| `LiDAR.ReservedPointsPerFrameOf` | aslam_offline_calibration/kalibr/python/kalibr_common/ConfigReader.py:600-603 | succeeds exactly when the hint is stored and is an int |
| `LiDAR.LiDARParameters.constructor` | aslam_offline_calibration/kalibr/python/kalibr_common/ConfigReader.py:573-575 | a sensor document named `LiDARConfig` |
| `LiDAR.LiDARParameters.GetRelativePointTimestamp` | aslam_offline_calibration/kalibr/python/kalibr_common/ConfigReader.py:586-589 | the getter; a success is a bool |
| `LiDAR.LiDARParameters.SetRelativePointTimestamp` | aslam_offline_calibration/kalibr/python/kalibr_common/ConfigReader.py:591-593 | refused input leaves the document unchanged; otherwise only the flag changes and the getter returns it |
| `LiDAR.LiDARParameters.GetReservedPointsPerFrame` | aslam_offline_calibration/kalibr/python/kalibr_common/ConfigReader.py:600-603 | the getter; a success is an int |
| `LiDAR.LiDARParameters.SetRoughlyReservedPointsPerFrame` | aslam_offline_calibration/kalibr/python/kalibr_common/ConfigReader.py:605-607 | refused input leaves the document unchanged; otherwise only the hint changes and the getter returns it |
| `Target.CheckTargetType` | aslam_offline_calibration/kalibr/python/kalibr_common/ConfigReader.py:648-654 | passes exactly for aprilgrid, checkerboard or circlegrid |
| `Target.TargetTypeOf` | aslam_offline_calibration/kalibr/python/kalibr_common/ConfigReader.py:656-659 | succeeds exactly when `target_type` is stored and known |
| `Target.Fetch` | aslam_offline_calibration/kalibr/python/kalibr_common/ConfigReader.py:666-673 | succeeds exactly when every field is stored, returning exactly those fields with their values; otherwise names the first absent field in reading order |
| `Target.CheckFields` | aslam_offline_calibration/kalibr/python/kalibr_common/ConfigReader.py:675-682 | passes exactly when every field is valid; the first invalid one raises NameError for `errList` |
| `Target.TargetParamsOf` | aslam_offline_calibration/kalibr/python/kalibr_common/ConfigReader.py:661-743 | succeeds exactly for a known type whose fields are all present and valid (counts ints of at least 3, lengths positive floats, `asymmetricGrid` a bool), returning exactly those fields plus `targetType`; a type error passes through; present but invalid fields give the NameError |
| `Target.MissingFieldReported` | aslam_offline_calibration/kalibr/python/kalibr_common/ConfigReader.py:666-673 | a missing field of the chosen type is a reader error naming a missing field, not a KeyError |
| `Target.NumberTargetsUnchecked` | aslam_offline_calibration/kalibr/python/kalibr_common/ConfigReader.py:716-741 | any `numberTargets` value is accepted and returned as stored |
| `Target.CountsMustBeIntsOfAtLeastThree` | aslam_offline_calibration/kalibr/python/kalibr_common/ConfigReader.py:675-682 | True is an int below 3 and is refused; a float count and an int length are refused |
| `Collections.IndexedMember` | aslam_offline_calibration/kalibr/python/kalibr_common/ConfigReader.py:785-792 | succeeds exactly when `nr` is below the count and `<prefix><nr>` holds a mapping; `nr` at or past the count is out of range; an absent key is reported missing (also lines 632-639 and 926-933) |
| `Collections.AppendKeepsDense` | aslam_offline_calibration/kalibr/python/kalibr_common/ConfigReader.py:782-783 | storing under `<prefix><count>` in a collection keyed `<prefix>0..` adds one entry and keeps the keys dense |
| `Collections.DenseLookup` | aslam_offline_calibration/kalibr/python/kalibr_common/ConfigReader.py:785-792 | in a dense collection every index below the count is found |
| `Collections.DenseNegativeIndex` | aslam_offline_calibration/kalibr/python/kalibr_common/ConfigReader.py:786-791 | a negative index passes the bounds check and is then reported missing |
| `Collections.AppendCanOverwrite` | aslam_offline_calibration/kalibr/python/kalibr_common/ConfigReader.py:782-783 | when keys are not dense, adding at the end replaces an existing member and the count does not grow |
| `Collections.MemberKey` | aslam_offline_calibration/kalibr/python/kalibr_common/ConfigReader.py:626-630 | the given name, or `<prefix><counter>` when none is given |
| `Collections.NamedAddShiftsNumbering` | aslam_offline_calibration/kalibr/python/kalibr_common/ConfigReader.py:626-639 | after a named add and an unnamed one, index 0 is missing although the set holds two members, and index 1 finds the unnamed member |
| `SensorSets.ImuSetParameters.constructor` | aslam_offline_calibration/kalibr/python/kalibr_common/ConfigReader.py:618-621 | counter 0, the given reference sensor |
| `SensorSets.ImuSetParameters.NumImus` | aslam_offline_calibration/kalibr/python/kalibr_common/ConfigReader.py:623-624 | the number of entries |
| `SensorSets.ImuSetParameters.AddImuParameters` | aslam_offline_calibration/kalibr/python/kalibr_common/ConfigReader.py:626-630 | stores the member under its key and advances the counter even when a name is given; unnamed adds keep a dense set dense with counter equal to the count |
| `SensorSets.ImuSetParameters.GetImuParameters` | aslam_offline_calibration/kalibr/python/kalibr_common/ConfigReader.py:632-639 | a fresh IMU reader whose document is the member's, or the lookup's error |
| `SensorSets.LiDARListParameters.constructor` | aslam_offline_calibration/kalibr/python/kalibr_common/ConfigReader.py:918-921 | counter 0, the given reference sensor |
| `SensorSets.LiDARListParameters.NumLiDARs` | aslam_offline_calibration/kalibr/python/kalibr_common/ConfigReader.py:923-924 | the number of entries |
| `SensorSets.LiDARListParameters.GetLiDARParameters` | aslam_offline_calibration/kalibr/python/kalibr_common/ConfigReader.py:926-933 | a fresh LiDAR reader whose document is the member's, or the lookup's error |
| `SensorSets.LiDARListParameters.AddLiDARParameters` | aslam_offline_calibration/kalibr/python/kalibr_common/ConfigReader.py:935-939 | as AddImuParameters with `lidar<N>` keys |
| `CameraChain.WriteBack` | aslam_offline_calibration/kalibr/python/kalibr_common/ConfigReader.py:818-823 | writing a found member back keeps the count, and the lookup then returns what was written |
| `CameraChain.LastCamExtrinsicsOf` | aslam_offline_calibration/kalibr/python/kalibr_common/ConfigReader.py:802-816 | cam0 is refused (no predecessor); an index at or past the count is out of range; otherwise succeeds exactly when the member holds a well-formed `T_cn_cnm1`, and every other failure is the one invalid-baseline error |
| `CameraChain.ReferenceExtrinsicsOf` | aslam_offline_calibration/kalibr/python/kalibr_common/ConfigReader.py:825-831 | the member's `T_here_<ref>` read through a camera reader; out of range past the count |
| `CameraChain.CheckCamTimeshift` | aslam_offline_calibration/kalibr/python/kalibr_common/ConfigReader.py:833-838 | passes exactly for an index below the count and a float |
| `CameraChain.TimeshiftOfCam` | aslam_offline_calibration/kalibr/python/kalibr_common/ConfigReader.py:840-846 | the member's `timeshift_to_<ref>`, not re-checked |
| `CameraChain.FirstOutOfRange` | aslam_offline_calibration/kalibr/python/kalibr_common/ConfigReader.py:858-860 | none exactly when every id compares below the count; otherwise the first id that does not |
| `CameraChain.OverlapsCheck` | aslam_offline_calibration/kalibr/python/kalibr_common/ConfigReader.py:854-860 | passes exactly when the camera index and every listed id are below the count; lower bounds are not checked |
| `CameraChain.OverlapsLowerBoundUnchecked` | aslam_offline_calibration/kalibr/python/kalibr_common/ConfigReader.py:854-860 | -1 and None are accepted; an id equal to the count is refused |
| `CameraChain.CamOverlapsOf` | aslam_offline_calibration/kalibr/python/kalibr_common/ConfigReader.py:862-865 | the stored list is looked up before the check and returned when the check passes |
| `CameraChain.ShouldFixLastCamToHere` | aslam_offline_calibration/kalibr/python/kalibr_common/ConfigReader.py:888-900 | False for cam0 and wherever the flag cannot be read; out of range past the count; a value other than False comes from the stored flag |
| `CameraChain.CameraImuOrientationPrior` | aslam_offline_calibration/kalibr/python/kalibr_common/ConfigReader.py:902-914 | False for every camera but cam0; cam0 of an empty chain is out of range; otherwise the stored prior or False |
| `CameraChain.CameraChainParameters.constructor` | aslam_offline_calibration/kalibr/python/kalibr_common/ConfigReader.py:771-773 | the given reference sensor; document empty when created |
| `CameraChain.CameraChainParameters.NumCameras` | aslam_offline_calibration/kalibr/python/kalibr_common/ConfigReader.py:871-872 | the number of entries |
| `CameraChain.CameraChainParameters.AddCameraAtEnd` | aslam_offline_calibration/kalibr/python/kalibr_common/ConfigReader.py:778-783 | stores the camera under `cam<count>`; on a dense chain the count grows by one, the new camera is found at the old count and earlier cameras are unchanged |
| `CameraChain.CameraChainParameters.GetCameraParameters` | aslam_offline_calibration/kalibr/python/kalibr_common/ConfigReader.py:785-792 | a fresh camera reader with the chain's reference sensor whose document is the member's, or the lookup's error |
| `CameraChain.CameraChainParameters.SetExtrinsicsLastCamToHere` | aslam_offline_calibration/kalibr/python/kalibr_common/ConfigReader.py:794-800 | cam0 is refused; a missing member is a plain KeyError; otherwise only the member's `T_cn_cnm1` changes, and on a dense chain the getter returns the transformation |
| `CameraChain.CameraChainParameters.GetExtrinsicsLastCamToHere` | aslam_offline_calibration/kalibr/python/kalibr_common/ConfigReader.py:802-816 | the getter on the current document |
| `CameraChain.CameraChainParameters.SetExtrinsicsReferenceToCam` | aslam_offline_calibration/kalibr/python/kalibr_common/ConfigReader.py:818-823 | fails as the lookup fails, leaving the chain unchanged; otherwise only the member's `T_here_<ref>` changes and the getter returns the transformation |
| `CameraChain.CameraChainParameters.GetExtrinsicsReferenceToCam` | aslam_offline_calibration/kalibr/python/kalibr_common/ConfigReader.py:825-831 | the getter on the current document |
| `CameraChain.CameraChainParameters.GetTimeshiftToReference` | aslam_offline_calibration/kalibr/python/kalibr_common/ConfigReader.py:840-846 | the getter on the current document |
| `CameraChain.CameraChainParameters.SetTimeshiftToReference` | aslam_offline_calibration/kalibr/python/kalibr_common/ConfigReader.py:848-852 | refused input or a failed lookup leaves the chain unchanged; otherwise only the member's `timeshift_to_<ref>` changes and the getter returns it |
| `CameraChain.CameraChainParameters.CheckCamOverlaps` | aslam_offline_calibration/kalibr/python/kalibr_common/ConfigReader.py:854-860 | the loop over the list stops at the first id out of range and agrees with the specification OverlapsCheck |
| `CameraChain.CameraChainParameters.GetCamOverlaps` | aslam_offline_calibration/kalibr/python/kalibr_common/ConfigReader.py:862-865 | the getter on the current document |
| `CameraChain.CameraChainParameters.SetCamOverlaps` | aslam_offline_calibration/kalibr/python/kalibr_common/ConfigReader.py:867-869 | a refused list leaves the chain unchanged; otherwise only the member's `cam_overlaps` changes and the getter returns the list |
| `CameraChain.CameraChainParameters.GetShouldFixLastCamToHere` | aslam_offline_calibration/kalibr/python/kalibr_common/ConfigReader.py:888-900 | the flag on the current document |
| `CameraChain.CameraChainParameters.GetCameraImuOrientationPrior` | aslam_offline_calibration/kalibr/python/kalibr_common/ConfigReader.py:902-914 | the prior on the current document |

## Left out

- `readYaml` and `writeYaml` (file I/O): a reader starts from an already-parsed document passed to its constructor, or from an empty one when it is created.
- `printDetails` and `formatIndented`: output formatting only.
- Default parameter values (`reference_sensor_name="camera0"`, `createYaml=False`, `name=None`): callers pass every argument.
- The `isinstance` checks on `CameraParameters` and `sm.Transformation` arguments: Dafny's static types guarantee them, so their RuntimeErrors cannot arise in the model.
- Error message text: an error records the reader name and what was wrong, not the message string.
- Floats are real numbers: NaN and infinities are not modelled, and neither is rounding.
- Python 2 `long` and `unicode` values are not told apart from `int` and `str`; a non-ASCII string, which YAML loads as `unicode` and `isinstance(x, str)` refuses, is not modelled.
- `AslamCamera.LibraryCall`: the camera library is represented only by its Python bindings' argument conversion: every argument must be a number. Which values its constructors refuse, and whether a parameter takes an int or a float, are not modelled. Neither are the frame, keypoint, reprojection-error and undistorter types each branch assigns.
- Mappings inside a document have string keys only. A mapping with integer keys, such as `distortion_coeffs: {0: 0.1, 1: 0.2, 2: 0.3, 3: 0.4}`, which Python indexes like a list, is not modelled.
- `Sensor.ExtrinsicsOf`: a well-formed transformation is a 4x4 list of numbers. The further checks `sm.Transformation` makes on the matrix are not modelled.
- `Imu.StatisticsOf`: the discrete noise density `density / sqrt(1.0 / rate)` is returned as the pair it is computed from. There is no square root on Dafny reals.
- `PyValues.FloatList`: `float()` of a string is taken as a ValueError. Python would convert numeric text such as `"1.5"`. Iterating a non-empty dict is taken as a TypeError. Python iterates its keys, so the conversion fails with a ValueError, or succeeds for keys such as `"1.5"`.
- `CameraChain.OverlapsCheck`: iterating a non-empty dict is taken as a TypeError. Python iterates its keys, which are strings, so the check would fail with an out-of-range error instead.
- `Collections.IndexedMember`: a member that is not a mapping fails with a TypeError when it is looked up. Python hands it to the temporary reader and fails at the reader's first access.
- Aliasing of member documents: `addCameraAtEnd`, `getCameraParameters` and the set add and get methods share the member dict between the collection and the member reader in Python. The model copies it, so the two differ in both directions. A member reader mutated after it was added or obtained changes the collection in Python but not in the model. Likewise, the chain's in-place writes to a member (`setExtrinsicsLastCamToHere` at line 800, `setCamOverlaps` at line 869) show through any reader obtained or added earlier in Python, but not in the model. The write-backs of `setExtrinsicsReferenceToCam` and `setTimeshiftToReference` replace the member with the temporary reader's dict, which is again shared in Python.
- The pinhole branch with an unsupported distortion model calls `self.raiseError`, which `AslamCamera` does not define. It is modelled as written, as an AttributeError.

## Findings

| source | as written | input that shows it | evidently intended | confidence | as-written member | corrected member |
|---|---|---|---|---|---|---|
| aslam_offline_calibration/kalibr/python/kalibr_common/ConfigReader.py:68 | the pinhole camera without distortion stores its geometry in `self.camera` | camera_model pinhole, intrinsics [460.0, 460.0, 320.0, 240.0], distortion none with no coefficients, resolution [640, 480] | every branch stores its geometry in `self.geometry`, where the other branches put it | medium, not executed | `AslamCamera.InitAsWritten` | `AslamCamera.Init` |
