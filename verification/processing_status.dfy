/**
 * The closed vocabulary of outcomes of processing one sensor point cloud
 * (Localization::SensorDataProcessingStatus) and its serialiser
 * (Localization::s_sensorDataProcessingStatusToStr).
 */
module SensorDataProcessing {
  import opened Wrappers

  /** One outcome per processed cloud, listed in declaration order. */
  datatype SensorDataProcessingStatus =
    | ExceptionRaised
    | FailedInitialPoseEstimation
    | FailedNormalEstimation
    | FailedPoseEstimation
    | FailedTransformationAligner
    | FailedTFTransform
    | FillingCircularBufferWithMsgsFromAllTopics
    | FirstPointCloudInSlamMode
    | MinimumElapsedTimeSinceLastPointCloudNotReached
    | MissingReferencePointCloud
    | PointCloudAgeHigherThanMaximum
    | PointCloudDiscarded
    | ReachedLimitOfNumberOfPointCloudsToProcess
    | PointCloudFilteringFailed
    | PointCloudOlderThanLastPointCloudReceived
    | PointCloudSubscribersDisabled
    | PointCloudWithoutTheMinimumNumberOfRequiredPoints
    | PoseEstimationRejectedByTransformationValidators
    | SuccessfulPreprocessing
    | SuccessfulPoseEstimation
    | WaitingForSensorData

  /** Number of declared enumerators. */
  const StatusCount: nat := 21

  /**
   * The values an object of the (unscoped, unfixed) C++ enum type may hold:
   * the smallest bit-field containing the enumerators 0..20, that is 0..31.
   * Values 21..31 are representable but name no enumerator.
   */
  newtype StatusValue = v: int | 0 <= v < 32

  /** The integer C++ gives each enumerator: its position in the declaration. */
  function Ordinal(s: SensorDataProcessingStatus): (n: nat)
    ensures n < StatusCount
  {
    match s
    case ExceptionRaised => 0
    case FailedInitialPoseEstimation => 1
    case FailedNormalEstimation => 2
    case FailedPoseEstimation => 3
    case FailedTransformationAligner => 4
    case FailedTFTransform => 5
    case FillingCircularBufferWithMsgsFromAllTopics => 6
    case FirstPointCloudInSlamMode => 7
    case MinimumElapsedTimeSinceLastPointCloudNotReached => 8
    case MissingReferencePointCloud => 9
    case PointCloudAgeHigherThanMaximum => 10
    case PointCloudDiscarded => 11
    case ReachedLimitOfNumberOfPointCloudsToProcess => 12
    case PointCloudFilteringFailed => 13
    case PointCloudOlderThanLastPointCloudReceived => 14
    case PointCloudSubscribersDisabled => 15
    case PointCloudWithoutTheMinimumNumberOfRequiredPoints => 16
    case PoseEstimationRejectedByTransformationValidators => 17
    case SuccessfulPreprocessing => 18
    case SuccessfulPoseEstimation => 19
    case WaitingForSensorData => 20
  }

  /** The enumerator whose value is `n`, if any. */
  function FromOrdinal(n: int): (r: Option<SensorDataProcessingStatus>)
    ensures r.Some? <==> 0 <= n < StatusCount
    ensures r.Some? ==> Ordinal(r.value) == n
  {
    if n == 0 then Some(ExceptionRaised)
    else if n == 1 then Some(FailedInitialPoseEstimation)
    else if n == 2 then Some(FailedNormalEstimation)
    else if n == 3 then Some(FailedPoseEstimation)
    else if n == 4 then Some(FailedTransformationAligner)
    else if n == 5 then Some(FailedTFTransform)
    else if n == 6 then Some(FillingCircularBufferWithMsgsFromAllTopics)
    else if n == 7 then Some(FirstPointCloudInSlamMode)
    else if n == 8 then Some(MinimumElapsedTimeSinceLastPointCloudNotReached)
    else if n == 9 then Some(MissingReferencePointCloud)
    else if n == 10 then Some(PointCloudAgeHigherThanMaximum)
    else if n == 11 then Some(PointCloudDiscarded)
    else if n == 12 then Some(ReachedLimitOfNumberOfPointCloudsToProcess)
    else if n == 13 then Some(PointCloudFilteringFailed)
    else if n == 14 then Some(PointCloudOlderThanLastPointCloudReceived)
    else if n == 15 then Some(PointCloudSubscribersDisabled)
    else if n == 16 then Some(PointCloudWithoutTheMinimumNumberOfRequiredPoints)
    else if n == 17 then Some(PoseEstimationRejectedByTransformationValidators)
    else if n == 18 then Some(SuccessfulPreprocessing)
    else if n == 19 then Some(SuccessfulPoseEstimation)
    else if n == 20 then Some(WaitingForSensorData)
    else None
  }

  /** The declared enumerators are exactly the values 0..20: each has a distinct value and is recovered from it. */
  lemma OrdinalRoundTrip(s: SensorDataProcessingStatus)
    ensures FromOrdinal(Ordinal(s)) == Some(s)
  {
  }

  /** The spelling of each enumerator. */
  const SpellingExceptionRaised: string := "ExceptionRaised"
  const SpellingFailedInitialPoseEstimation: string := "FailedInitialPoseEstimation"
  const SpellingFailedNormalEstimation: string := "FailedNormalEstimation"
  const SpellingFailedPoseEstimation: string := "FailedPoseEstimation"
  const SpellingFailedTransformationAligner: string := "FailedTransformationAligner"
  const SpellingFailedTFTransform: string := "FailedTFTransform"
  const SpellingFillingCircularBufferWithMsgsFromAllTopics: string := "FillingCircularBufferWithMsgsFromAllTopics"
  const SpellingFirstPointCloudInSlamMode: string := "FirstPointCloudInSlamMode"
  const SpellingMinimumElapsedTimeSinceLastPointCloudNotReached: string := "MinimumElapsedTimeSinceLastPointCloudNotReached"
  const SpellingMissingReferencePointCloud: string := "MissingReferencePointCloud"
  const SpellingPointCloudAgeHigherThanMaximum: string := "PointCloudAgeHigherThanMaximum"
  const SpellingPointCloudDiscarded: string := "PointCloudDiscarded"
  const SpellingReachedLimitOfNumberOfPointCloudsToProcess: string := "ReachedLimitOfNumberOfPointCloudsToProcess"
  const SpellingPointCloudFilteringFailed: string := "PointCloudFilteringFailed"
  const SpellingPointCloudOlderThanLastPointCloudReceived: string := "PointCloudOlderThanLastPointCloudReceived"
  const SpellingPointCloudSubscribersDisabled: string := "PointCloudSubscribersDisabled"
  const SpellingPointCloudWithoutTheMinimumNumberOfRequiredPoints: string := "PointCloudWithoutTheMinimumNumberOfRequiredPoints"
  const SpellingPoseEstimationRejectedByTransformationValidators: string := "PoseEstimationRejectedByTransformationValidators"
  const SpellingSuccessfulPreprocessing: string := "SuccessfulPreprocessing"
  const SpellingSuccessfulPoseEstimation: string := "SuccessfulPoseEstimation"
  const SpellingWaitingForSensorData: string := "WaitingForSensorData"

  /** The serialiser on the declared enumerators: each outcome is spelled as its enumerator, never as "". */
  function Name(s: SensorDataProcessingStatus): (r: string)
    ensures |r| > 0
  {
    match s
    case ExceptionRaised => SpellingExceptionRaised
    case FailedInitialPoseEstimation => SpellingFailedInitialPoseEstimation
    case FailedNormalEstimation => SpellingFailedNormalEstimation
    case FailedPoseEstimation => SpellingFailedPoseEstimation
    case FailedTransformationAligner => SpellingFailedTransformationAligner
    case FailedTFTransform => SpellingFailedTFTransform
    case FillingCircularBufferWithMsgsFromAllTopics => SpellingFillingCircularBufferWithMsgsFromAllTopics
    case FirstPointCloudInSlamMode => SpellingFirstPointCloudInSlamMode
    case MinimumElapsedTimeSinceLastPointCloudNotReached => SpellingMinimumElapsedTimeSinceLastPointCloudNotReached
    case MissingReferencePointCloud => SpellingMissingReferencePointCloud
    case PointCloudAgeHigherThanMaximum => SpellingPointCloudAgeHigherThanMaximum
    case PointCloudDiscarded => SpellingPointCloudDiscarded
    case ReachedLimitOfNumberOfPointCloudsToProcess => SpellingReachedLimitOfNumberOfPointCloudsToProcess
    case PointCloudFilteringFailed => SpellingPointCloudFilteringFailed
    case PointCloudOlderThanLastPointCloudReceived => SpellingPointCloudOlderThanLastPointCloudReceived
    case PointCloudSubscribersDisabled => SpellingPointCloudSubscribersDisabled
    case PointCloudWithoutTheMinimumNumberOfRequiredPoints => SpellingPointCloudWithoutTheMinimumNumberOfRequiredPoints
    case PoseEstimationRejectedByTransformationValidators => SpellingPoseEstimationRejectedByTransformationValidators
    case SuccessfulPreprocessing => SpellingSuccessfulPreprocessing
    case SuccessfulPoseEstimation => SpellingSuccessfulPoseEstimation
    case WaitingForSensorData => SpellingWaitingForSensorData
  }

  /**
   * The serialiser on any value the enum type can hold: the switch names every
   * declared enumerator, and a value outside the declaration falls through to "".
   */
  function NameOfValue(v: StatusValue): (r: string)
    ensures r != "" <==> (v as int) < StatusCount
  {
    match FromOrdinal(v as int)
    case Some(s) => Name(s)
    case None => ""
  }

  /** On a declared enumerator's own value, the serialiser agrees with Name. */
  lemma NameOfValueOfStatus(s: SensorDataProcessingStatus)
    ensures NameOfValue(Ordinal(s) as StatusValue) == Name(s)
  {
    OrdinalRoundTrip(s);
  }

  /** The reverse lookup: the outcome spelled `w`, if any. */
  function StatusNamed(w: string): (r: Option<SensorDataProcessingStatus>)
    ensures r.Some? ==> Name(r.value) == w
  {
    if w == SpellingExceptionRaised then Some(ExceptionRaised)
    else if w == SpellingFailedTFTransform then Some(FailedTFTransform)
    else if w == SpellingPointCloudDiscarded then Some(PointCloudDiscarded)
    else if w == SpellingFailedPoseEstimation then Some(FailedPoseEstimation)
    else if w == SpellingWaitingForSensorData then Some(WaitingForSensorData)
    else if w == SpellingFailedNormalEstimation then Some(FailedNormalEstimation)
    else if w == SpellingSuccessfulPreprocessing then Some(SuccessfulPreprocessing)
    else if w == SpellingSuccessfulPoseEstimation then Some(SuccessfulPoseEstimation)
    else if w == SpellingFirstPointCloudInSlamMode then Some(FirstPointCloudInSlamMode)
    else if w == SpellingPointCloudFilteringFailed then Some(PointCloudFilteringFailed)
    else if w == SpellingMissingReferencePointCloud then Some(MissingReferencePointCloud)
    else if w == SpellingFailedInitialPoseEstimation then Some(FailedInitialPoseEstimation)
    else if w == SpellingFailedTransformationAligner then Some(FailedTransformationAligner)
    else if w == SpellingPointCloudSubscribersDisabled then Some(PointCloudSubscribersDisabled)
    else if w == SpellingPointCloudAgeHigherThanMaximum then Some(PointCloudAgeHigherThanMaximum)
    else if w == SpellingPointCloudOlderThanLastPointCloudReceived then Some(PointCloudOlderThanLastPointCloudReceived)
    else if w == SpellingFillingCircularBufferWithMsgsFromAllTopics then Some(FillingCircularBufferWithMsgsFromAllTopics)
    else if w == SpellingReachedLimitOfNumberOfPointCloudsToProcess then Some(ReachedLimitOfNumberOfPointCloudsToProcess)
    else if w == SpellingMinimumElapsedTimeSinceLastPointCloudNotReached then Some(MinimumElapsedTimeSinceLastPointCloudNotReached)
    else if w == SpellingPoseEstimationRejectedByTransformationValidators then Some(PoseEstimationRejectedByTransformationValidators)
    else if w == SpellingPointCloudWithoutTheMinimumNumberOfRequiredPoints then Some(PointCloudWithoutTheMinimumNumberOfRequiredPoints)
    else None
  }

  /** Reading back a serialised outcome gives the same outcome. */
  lemma NameRoundTrip(s: SensorDataProcessingStatus)
    ensures StatusNamed(Name(s)) == Some(s)
  {
  }

  /** Distinct outcomes are serialised to distinct strings. */
  lemma NameInjective(s: SensorDataProcessingStatus, t: SensorDataProcessingStatus)
    ensures Name(s) == Name(t) <==> s == t
  {
    NameRoundTrip(s);
    NameRoundTrip(t);
  }

  /** The reverse lookup succeeds on exactly the strings the serialiser produces. */
  lemma StatusNamedExactlyNames(w: string)
    ensures StatusNamed(w).Some? <==> exists s :: Name(s) == w
  {
    if exists s :: Name(s) == w {
      var s :| Name(s) == w;
      NameRoundTrip(s);
    }
  }

  /** On the values the enum type can hold, the serialiser is injective except at the "" fallback. */
  lemma NameOfValueInjective(v: StatusValue, u: StatusValue)
    requires (v as int) < StatusCount
    ensures NameOfValue(v) == NameOfValue(u) <==> v == u
  {
    var s := FromOrdinal(v as int).value;
    if (u as int) < StatusCount {
      NameInjective(s, FromOrdinal(u as int).value);
    }
  }
}
