# dynamic_robot_localization — processing-status vocabulary and node state

A Dafny model of the logic written out in the header of the localization node
of dynamic_robot_localization, the component that registers streaming 3-D
point clouds against a reference map to track a robot's pose:

- `processing_status.dfy` (module `SensorDataProcessing`): the closed set of 21
  outcomes a processing cycle can report (`SensorDataProcessingStatus`), the
  integer value C++ gives each one, and the serialiser
  `s_sensorDataProcessingStatusToStr`, both on the declared enumerators (`Name`)
  and on any value the enum type can hold (`NameOfValue`, whose switch falls
  through to `""`). A reverse lookup (`StatusNamed`) is the serialiser's
  partner: the round trip proves that the names are pairwise distinct.
- `localization.dfy` (module `DynamicRobotLocalization`): the map-update policy
  enumeration `MapUpdateMode` and a class `Localization` holding the fields that
  have inline behaviour: the four matcher lists (initial-pose feature,
  initial-pose point, tracking, tracking recovery), the two ambient-cloud
  integration filter lists, the reference-cloud flags, the processing status,
  the processing limit and counter, and the save file names. Matchers and filters
  are opaque handles. Getters are functions with field-level `reads` frames.
  Each setter has a `modifies` frame naming only its own field, so every other
  field is unchanged by construction.
- `wrappers.dfy`: the `Option` type.

C++ `int` is modelled as `int32` and `size_t` as `uint64`. No arithmetic is
done on either in the modelled code. The enum's raw values are modelled as
`StatusValue`, the range 0..31 that C++ allows for an unscoped enum whose
enumerators are 0..20. The values 21..31 are the ones that reach the `return ""`
after the switch.

## Model

| member | source | states |
|---|---|---|
| `SensorDataProcessing.Ordinal` | include/dynamic_robot_localization/localization/localization.h:156-178 | every declared outcome has an integer value below 21 (its declaration position) |
| `SensorDataProcessing.FromOrdinal` | include/dynamic_robot_localization/localization/localization.h:156-178 | a value names an outcome iff it lies in 0..20, and the outcome it names has exactly that value |
| `SensorDataProcessing.OrdinalRoundTrip` | include/dynamic_robot_localization/localization/localization.h:156-178 | the 21 outcomes and the values 0..20 are in one-to-one correspondence: each outcome is recovered from its own value |
| `SensorDataProcessing.Name` | include/dynamic_robot_localization/localization/localization.h:181-203 | the switch has a case for every declared outcome, and every outcome is serialised to a non-empty string |
| `SensorDataProcessing.NameOfValue` | include/dynamic_robot_localization/localization/localization.h:180-205 | on a raw enum value the serialiser returns `""` exactly when the value names no declared outcome, so the fallback is reached only outside the enum |
| `SensorDataProcessing.NameOfValueOfStatus` | include/dynamic_robot_localization/localization/localization.h:181-203 | on an outcome's own value the raw serialiser returns that outcome's name |
| `SensorDataProcessing.StatusNamed` | include/dynamic_robot_localization/localization/localization.h:182-202 | reverse lookup of a name: any outcome it finds is serialised back to the given string |
| `SensorDataProcessing.NameRoundTrip` | include/dynamic_robot_localization/localization/localization.h:182-202 | looking up the serialised name of any outcome gives back that outcome |
| `SensorDataProcessing.NameInjective` | include/dynamic_robot_localization/localization/localization.h:182-202 | two outcomes have the same name iff they are the same outcome |
| `SensorDataProcessing.StatusNamedExactlyNames` | include/dynamic_robot_localization/localization/localization.h:182-202 | the lookup succeeds on exactly the strings the serialiser can produce |
| `SensorDataProcessing.NameOfValueInjective` | include/dynamic_robot_localization/localization/localization.h:180-205 | a declared value's name is shared by no other raw value, including the out-of-range ones that map to `""` |
| `DynamicRobotLocalization.Localization.IntegrationFilters` | include/dynamic_robot_localization/localization/localization.h:602-603 | the integration filters of the node are the unsuffixed list followed by the `_map_frame_` list (an order chosen by the model; the header only declares the two vectors): same count, same members |
| `DynamicRobotLocalization.Localization.CloudMatchers` | include/dynamic_robot_localization/localization/localization.h:618-621 | the node's matchers over all tracking modes are the four lists together: same count, same members |
| `DynamicRobotLocalization.Localization.AmbientPointcloudIntegrationActive` | include/dynamic_robot_localization/localization/localization.h:401 | integration is active iff the combined integration filter list is non-empty |
| `DynamicRobotLocalization.Localization.CloudMatchersActive` | include/dynamic_robot_localization/localization/localization.h:402 | registration is active iff the combined matcher list is non-empty |
| `DynamicRobotLocalization.IntegrationActiveHasFilter` | include/dynamic_robot_localization/localization/localization.h:401 | integration is active iff some filter is held in one of the two integration lists |
| `DynamicRobotLocalization.MatchersActiveHasMatcher` | include/dynamic_robot_localization/localization/localization.h:402 | registration is active iff some matcher is held in one of the four matcher lists |
| `DynamicRobotLocalization.Localization.ReferencePointCloudLoaded` | include/dynamic_robot_localization/localization/localization.h:395 | returns whether a reference cloud is loaded, which is that field; it reads only that field, so setters of other fields leave it unchanged |
| `DynamicRobotLocalization.Localization.ReferencePointCloudRequired` | include/dynamic_robot_localization/localization/localization.h:396 | returns whether a reference cloud is required, which is that field; it reads only that field, so setters of other fields leave it unchanged |
| `DynamicRobotLocalization.Localization.GetSensorDataProcessingStatus` | include/dynamic_robot_localization/localization/localization.h:397 | returns the status of the last processing cycle, which is that field; it reads only that field, so setters of other fields leave it unchanged |
| `DynamicRobotLocalization.Localization.GetMapUpdateMode` | include/dynamic_robot_localization/localization/localization.h:400 | returns the configured map-update policy, the only behaviour of `MapUpdateMode` in the header, which is that field; it reads only that field, so setters of other fields leave it unchanged |
| `DynamicRobotLocalization.Localization.GetFilteredPointcloudSaveFilename` | include/dynamic_robot_localization/localization/localization.h:403 | returns the filtered-cloud save file name, which is that field; it reads only that field, so setters of other fields leave it unchanged |
| `DynamicRobotLocalization.Localization.GetFilteredPointcloudSaveFrameId` | include/dynamic_robot_localization/localization/localization.h:404 | returns the filtered-cloud save frame id, which is that field; it reads only that field, so setters of other fields leave it unchanged |
| `DynamicRobotLocalization.Localization.GetLimitOfPointcloudsToProcess` | include/dynamic_robot_localization/localization/localization.h:410 | returns the processing limit as a 32-bit `int`, which is that field; it reads only that field, so setters of other fields leave it unchanged |
| `DynamicRobotLocalization.Localization.GetNumberOfProcessedPointclouds` | include/dynamic_robot_localization/localization/localization.h:411 | returns the processed-cloud count as a 64-bit `size_t`, which is that field; it reads only that field, so setters of other fields leave it unchanged |
| `DynamicRobotLocalization.Localization.SetReferencePointCloudRequired` | include/dynamic_robot_localization/localization/localization.h:415 | afterwards `ReferencePointCloudRequired()` (line 396) returns the argument; only that field may change |
| `DynamicRobotLocalization.Localization.SetAmbientPointcloudIntegrationFiltersPreprocessedPointcloudSaveFilename` | include/dynamic_robot_localization/localization/localization.h:416 | afterwards the integration save file name is the argument; only that field may change |
| `DynamicRobotLocalization.Localization.SetFilteredPointcloudSaveFilename` | include/dynamic_robot_localization/localization/localization.h:417 | afterwards `GetFilteredPointcloudSaveFilename()` (line 403) returns the argument; only that field may change |
| `DynamicRobotLocalization.Localization.SetFilteredPointcloudSaveFrameId` | include/dynamic_robot_localization/localization/localization.h:418 | afterwards `GetFilteredPointcloudSaveFrameId()` (line 404) returns the argument; only that field may change |
| `DynamicRobotLocalization.Localization.SetLimitOfPointcloudsToProcess` | include/dynamic_robot_localization/localization/localization.h:419 | afterwards `GetLimitOfPointcloudsToProcess()` (line 410) returns the argument; only that field may change |
| `DynamicRobotLocalization.ConfigureProcessing` | include/dynamic_robot_localization/localization/localization.h:395-419 | after both setters run, the two getters return the new values. The frame names only those two fields, so nothing else changes. The ensures spell out that every other getter returns what it did before: the loaded flag, the status, the map-update mode (line 400), the processed count (line 411), the three save names, both combined strategy lists and both activity predicates |

## Left out

- The bodies of the node's operations live in `impl/localization.hpp`, which is not part of this model. Their behaviour is therefore not modelled. This covers the admission check `checkIfAmbientPointCloudShouldBeProcessed` and `checkIfTrackingIsLost` (lines 315-316), `processAmbientPointCloud` (317-318), the filter, normal-estimator, keypoint and matcher pipelines (322-352), the transformation aligner (354-358), the outlier detectors (360-376), `applyTransformationValidator` (383-384), the localization and reference-map updates (388-391) and `resetNumberOfProcessedPointclouds` (312).
- The tracking failure counters (lines 534-538) and their transitions: the header declares them, but no code for them appears in it.
- The default constructor and destructor (lines 212-213) are defined in the same implementation file. `Localization.constructor` therefore takes every modelled field as an argument and leaves the save file names unspecified.
- Configuration loading from the ROS parameter server and the service callbacks (lines 217-287) are ROS configuration plumbing.
- Publishers, subscribers, service servers and the ROS spinner (lines 304-311, 556-587) are message transport.
- Reference-cloud loading from file, ROS message or occupancy grid (lines 290-296) is I/O and PCL conversion.
- tf2 transforms, poses, covariance, timestamps and timing fields (e.g. lines 314, 354-358, 386, 398-399, 405, 548-552, 622-646) are floating-point geometry and external libraries. For the same reason the getters that return them are not modelled.
- The frame-id getters (lines 406-409) return configuration strings that only the parameter-server loading sets. They are not modelled.
- PCL point clouds, kd-trees and the circular buffer (lines 590-600) are foreign library types. Strategy lists hold opaque handles only, and the filters, estimators, detectors and validators other than those in the modelled lists are left out.
- `cloud_matchers/feature_matchers/keypoint_detectors/keypoint_detector.h` is a thin holder of a PCL keypoint detector and a cloud publisher. `findKeypoints` has no body in that header, so nothing of it is modelled.
- `SensorDataProcessing.Name`: it does not state that each string is spelled exactly like its enumerator, because a Dafny datatype cannot refer to its own constructor names. The spelling is the body itself, one named constant per enumerator. Distinctness and non-emptiness are proved.
