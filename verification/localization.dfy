/**
 * The observable configuration and state of the localization node
 * (dynamic_robot_localization::Localization): the strategy lists whose
 * emptiness switches registration and map integration on or off, and the
 * fields with inline getters and setters.
 */
module DynamicRobotLocalization {
  import opened SensorDataProcessing

  /** C++ `int` and `size_t` on the platforms the node targets. */
  newtype int32 = x: int | -0x8000_0000 <= x < 0x8000_0000
  newtype uint64 = x: int | 0 <= x < 0x1_0000_0000_0000_0000

  /** How an accepted ambient cloud is merged into the reference map. */
  datatype MapUpdateMode =
    | NoIntegration        // localization only; the map may still be updated externally
    | FullIntegration      // the whole registered cloud is integrated
    | InliersIntegration   // only its inliers are integrated
    | OutliersIntegration  // only its outliers are integrated

  /** Opaque handles to the pluggable strategies the node holds; only their identity matters here. */
  datatype CloudMatcher = CloudMatcher(id: nat)
  datatype CloudFilter = CloudFilter(id: nat)

  class Localization {
    // configuration
    var mapUpdateMode: MapUpdateMode
    var filteredPointcloudSaveFilename: string
    var filteredPointcloudSaveFrameId: string
    var ambientPointcloudIntegrationFiltersPreprocessedPointcloudSaveFilename: string

    // state
    var referencePointcloudLoaded: bool
    var referencePointcloudRequired: bool
    var sensorDataProcessingStatus: SensorDataProcessingStatus
    var limitOfPointcloudsToProcess: int32
    var numberOfProcessedPointclouds: uint64

    // strategy lists
    var ambientPointcloudIntegrationFilters: seq<CloudFilter>
    var ambientPointcloudIntegrationFiltersMapFrame: seq<CloudFilter>
    var initialPoseEstimatorsFeatureMatchers: seq<CloudMatcher>
    var initialPoseEstimatorsPointMatchers: seq<CloudMatcher>
    var trackingMatchers: seq<CloudMatcher>
    var trackingRecoveryMatchers: seq<CloudMatcher>

    /** A node holding the given configuration and state; the save file names are left unspecified. */
    constructor (mapUpdateMode: MapUpdateMode,
                 referencePointcloudLoaded: bool, referencePointcloudRequired: bool,
                 sensorDataProcessingStatus: SensorDataProcessingStatus,
                 limitOfPointcloudsToProcess: int32, numberOfProcessedPointclouds: uint64,
                 ambientPointcloudIntegrationFilters: seq<CloudFilter>,
                 ambientPointcloudIntegrationFiltersMapFrame: seq<CloudFilter>,
                 initialPoseEstimatorsFeatureMatchers: seq<CloudMatcher>,
                 initialPoseEstimatorsPointMatchers: seq<CloudMatcher>,
                 trackingMatchers: seq<CloudMatcher>,
                 trackingRecoveryMatchers: seq<CloudMatcher>)
      ensures GetMapUpdateMode() == mapUpdateMode
      ensures ReferencePointCloudLoaded() == referencePointcloudLoaded
      ensures ReferencePointCloudRequired() == referencePointcloudRequired
      ensures GetSensorDataProcessingStatus() == sensorDataProcessingStatus
      ensures GetLimitOfPointcloudsToProcess() == limitOfPointcloudsToProcess
      ensures GetNumberOfProcessedPointclouds() == numberOfProcessedPointclouds
      ensures this.ambientPointcloudIntegrationFilters == ambientPointcloudIntegrationFilters
      ensures this.ambientPointcloudIntegrationFiltersMapFrame == ambientPointcloudIntegrationFiltersMapFrame
      ensures this.initialPoseEstimatorsFeatureMatchers == initialPoseEstimatorsFeatureMatchers
      ensures this.initialPoseEstimatorsPointMatchers == initialPoseEstimatorsPointMatchers
      ensures this.trackingMatchers == trackingMatchers
      ensures this.trackingRecoveryMatchers == trackingRecoveryMatchers
    {
      this.mapUpdateMode := mapUpdateMode;
      this.referencePointcloudLoaded := referencePointcloudLoaded;
      this.referencePointcloudRequired := referencePointcloudRequired;
      this.sensorDataProcessingStatus := sensorDataProcessingStatus;
      this.limitOfPointcloudsToProcess := limitOfPointcloudsToProcess;
      this.numberOfProcessedPointclouds := numberOfProcessedPointclouds;
      this.ambientPointcloudIntegrationFilters := ambientPointcloudIntegrationFilters;
      this.ambientPointcloudIntegrationFiltersMapFrame := ambientPointcloudIntegrationFiltersMapFrame;
      this.initialPoseEstimatorsFeatureMatchers := initialPoseEstimatorsFeatureMatchers;
      this.initialPoseEstimatorsPointMatchers := initialPoseEstimatorsPointMatchers;
      this.trackingMatchers := trackingMatchers;
      this.trackingRecoveryMatchers := trackingRecoveryMatchers;
    }

    // ---- getters ----

    function ReferencePointCloudLoaded(): (r: bool)
      reads this`referencePointcloudLoaded
      ensures r == referencePointcloudLoaded
    {
      referencePointcloudLoaded
    }

    function ReferencePointCloudRequired(): (r: bool)
      reads this`referencePointcloudRequired
      ensures r == referencePointcloudRequired
    {
      referencePointcloudRequired
    }

    function GetSensorDataProcessingStatus(): (r: SensorDataProcessingStatus)
      reads this`sensorDataProcessingStatus
      ensures r == sensorDataProcessingStatus
    {
      sensorDataProcessingStatus
    }

    function GetMapUpdateMode(): (r: MapUpdateMode)
      reads this`mapUpdateMode
      ensures r == mapUpdateMode
    {
      mapUpdateMode
    }

    function GetFilteredPointcloudSaveFilename(): (r: string)
      reads this`filteredPointcloudSaveFilename
      ensures r == filteredPointcloudSaveFilename
    {
      filteredPointcloudSaveFilename
    }

    function GetFilteredPointcloudSaveFrameId(): (r: string)
      reads this`filteredPointcloudSaveFrameId
      ensures r == filteredPointcloudSaveFrameId
    {
      filteredPointcloudSaveFrameId
    }

    function GetLimitOfPointcloudsToProcess(): (r: int32)
      reads this`limitOfPointcloudsToProcess
      ensures r == limitOfPointcloudsToProcess
    {
      limitOfPointcloudsToProcess
    }

    function GetNumberOfProcessedPointclouds(): (r: uint64)
      reads this`numberOfProcessedPointclouds
      ensures r == numberOfProcessedPointclouds
    {
      numberOfProcessedPointclouds
    }

    /** Every integration filter the node holds: the unsuffixed list followed by the map-frame list (an order chosen here). */
    function IntegrationFilters(): (fs: seq<CloudFilter>)
      reads this`ambientPointcloudIntegrationFilters, this`ambientPointcloudIntegrationFiltersMapFrame
      ensures |fs| == |ambientPointcloudIntegrationFilters| + |ambientPointcloudIntegrationFiltersMapFrame|
      ensures forall f :: f in fs <==>
        f in ambientPointcloudIntegrationFilters || f in ambientPointcloudIntegrationFiltersMapFrame
    {
      ambientPointcloudIntegrationFilters + ambientPointcloudIntegrationFiltersMapFrame
    }

    /** Every matcher the node holds, over all tracking modes. */
    function CloudMatchers(): (ms: seq<CloudMatcher>)
      reads this`initialPoseEstimatorsFeatureMatchers, this`initialPoseEstimatorsPointMatchers,
            this`trackingMatchers, this`trackingRecoveryMatchers
      ensures |ms| == |initialPoseEstimatorsFeatureMatchers| + |initialPoseEstimatorsPointMatchers|
                      + |trackingMatchers| + |trackingRecoveryMatchers|
      ensures forall m :: m in ms <==>
        m in initialPoseEstimatorsFeatureMatchers || m in initialPoseEstimatorsPointMatchers
        || m in trackingMatchers || m in trackingRecoveryMatchers
    {
      initialPoseEstimatorsFeatureMatchers + initialPoseEstimatorsPointMatchers
      + trackingMatchers + trackingRecoveryMatchers
    }

    /** Map integration is active exactly when some integration filter is configured. */
    function AmbientPointcloudIntegrationActive(): (active: bool)
      reads this`ambientPointcloudIntegrationFilters, this`ambientPointcloudIntegrationFiltersMapFrame
      ensures active <==> IntegrationFilters() != []
    {
      ambientPointcloudIntegrationFilters != [] || ambientPointcloudIntegrationFiltersMapFrame != []
    }

    /** Registration is active exactly when some matcher is configured, in any tracking mode. */
    function CloudMatchersActive(): (active: bool)
      reads this`initialPoseEstimatorsFeatureMatchers, this`initialPoseEstimatorsPointMatchers,
            this`trackingMatchers, this`trackingRecoveryMatchers
      ensures active <==> CloudMatchers() != []
    {
      initialPoseEstimatorsFeatureMatchers != [] || initialPoseEstimatorsPointMatchers != []
      || trackingMatchers != [] || trackingRecoveryMatchers != []
    }

    // ---- setters: each changes its own field and nothing else ----

    method SetReferencePointCloudRequired(required: bool)
      modifies this`referencePointcloudRequired
      ensures ReferencePointCloudRequired() == required
    {
      referencePointcloudRequired := required;
    }

    method SetAmbientPointcloudIntegrationFiltersPreprocessedPointcloudSaveFilename(filename: string)
      modifies this`ambientPointcloudIntegrationFiltersPreprocessedPointcloudSaveFilename
      ensures ambientPointcloudIntegrationFiltersPreprocessedPointcloudSaveFilename == filename
    {
      ambientPointcloudIntegrationFiltersPreprocessedPointcloudSaveFilename := filename;
    }

    method SetFilteredPointcloudSaveFilename(filename: string)
      modifies this`filteredPointcloudSaveFilename
      ensures GetFilteredPointcloudSaveFilename() == filename
    {
      filteredPointcloudSaveFilename := filename;
    }

    method SetFilteredPointcloudSaveFrameId(frameId: string)
      modifies this`filteredPointcloudSaveFrameId
      ensures GetFilteredPointcloudSaveFrameId() == frameId
    {
      filteredPointcloudSaveFrameId := frameId;
    }

    method SetLimitOfPointcloudsToProcess(limit: int32)
      modifies this`limitOfPointcloudsToProcess
      ensures GetLimitOfPointcloudsToProcess() == limit
    {
      limitOfPointcloudsToProcess := limit;
    }
  }

  /** Map integration is active exactly when there is a filter to run in one of the two integration lists. */
  lemma IntegrationActiveHasFilter(node: Localization)
    ensures node.AmbientPointcloudIntegrationActive() <==>
      exists f :: f in node.ambientPointcloudIntegrationFilters || f in node.ambientPointcloudIntegrationFiltersMapFrame
  {
    var fs := node.IntegrationFilters();
    if fs != [] {
      assert fs[0] in fs;
    }
  }

  /** Registration is active exactly when one of the four matcher lists holds a matcher to run. */
  lemma MatchersActiveHasMatcher(node: Localization)
    ensures node.CloudMatchersActive() <==>
      exists m :: m in node.initialPoseEstimatorsFeatureMatchers || m in node.initialPoseEstimatorsPointMatchers
                  || m in node.trackingMatchers || m in node.trackingRecoveryMatchers
  {
    var ms := node.CloudMatchers();
    if ms != [] {
      assert ms[0] in ms;
    }
  }

  /**
   * Reconfiguring the processing limit and the reference-cloud requirement
   * through the setters leaves every other observable value as it was.
   */
  method ConfigureProcessing(node: Localization, required: bool, limit: int32)
    modifies node`referencePointcloudRequired, node`limitOfPointcloudsToProcess
    ensures node.ReferencePointCloudRequired() == required
    ensures node.GetLimitOfPointcloudsToProcess() == limit
    ensures node.ReferencePointCloudLoaded() == old(node.ReferencePointCloudLoaded())
    ensures node.GetSensorDataProcessingStatus() == old(node.GetSensorDataProcessingStatus())
    ensures node.GetMapUpdateMode() == old(node.GetMapUpdateMode())
    ensures node.GetNumberOfProcessedPointclouds() == old(node.GetNumberOfProcessedPointclouds())
    ensures node.GetFilteredPointcloudSaveFilename() == old(node.GetFilteredPointcloudSaveFilename())
    ensures node.GetFilteredPointcloudSaveFrameId() == old(node.GetFilteredPointcloudSaveFrameId())
    ensures node.CloudMatchers() == old(node.CloudMatchers())
    ensures node.IntegrationFilters() == old(node.IntegrationFilters())
    ensures node.ambientPointcloudIntegrationFiltersPreprocessedPointcloudSaveFilename
            == old(node.ambientPointcloudIntegrationFiltersPreprocessedPointcloudSaveFilename)
    ensures node.CloudMatchersActive() == old(node.CloudMatchersActive())
    ensures node.AmbientPointcloudIntegrationActive() == old(node.AmbientPointcloudIntegrationActive())
  {
    node.SetReferencePointCloudRequired(required);
    node.SetLimitOfPointcloudsToProcess(limit);
  }
}
