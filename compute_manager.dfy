/** `ComputeManager.start_compute`: the assembly of the `create_cluster` arguments from the
    selected configuration. The cluster name is built from the param set and size, the log
    level and the steps are fixed, and every other argument is the configuration accessor of
    the same name. Composed with the request builder this gives properties of the request
    the tool actually sends. */
module ComputeManager {
  import opened Python
  import opened Roles
  import opened EmrConfig
  import opened EmrClient
  import opened EmrClientProperties

  /** The engine every cluster name starts with. */
  const ComputeEngine := "Spark"

  /** The state `__init__` assigns: the size and param set it was asked for, the config
      file path, and the configuration read from that file. */
  datatype ComputeManager = ComputeManager(
    clusterSize: string,
    paramSetName: string,
    configPath: string,
    config: EMRConfig)

  /** What `start_compute` can raise before the request reaches the cluster API. */
  datatype StartError =
    | ConfigFailed(configError: ConfigError)
    | BuildFailed(buildError: BuildError)

  /** `ComputeManager(cluster_size, param_set_name, emr_config_path)`, with `spec` the
      `spec` section of the file at that path. */
  function NewComputeManager(spec: Option<Spec>, clusterSize: string, paramSetName: string, configPath: string)
    : Result<ComputeManager, ConfigError>
  {
    var config :- NewEmrConfig(spec, clusterSize, paramSetName);
    Success(ComputeManager(clusterSize, paramSetName, configPath, config))
  }

  function ClusterName(paramSetName: string, clusterSize: string): string {
    ComputeEngine + "-" + paramSetName + "-Size-" + clusterSize
  }

  /** The keyword arguments of the `create_cluster` call, evaluated in the order they are
      written: the cluster-wide settings are read first, so a missing param set is reported
      before a missing size profile. */
  function StartComputeArgs(cm: ComputeManager): Result<ClusterParams, ConfigError> {
    var ps :- Parameters(cm.config);
    var numConcurrentSteps :- NumConcurrentSteps(cm.config);
    var ebsRootVolumeSize :- EbsRootVolumeSize(cm.config);
    var master :- Sizing(cm.config, Master);
    var core :- Sizing(cm.config, Core);
    var task :- Sizing(cm.config, Task);
    Success(ClusterParams(
      ClusterName(cm.paramSetName, cm.clusterSize),
      ps.loggingS3Path,
      EmrReleaseLabel(cm.config),
      ps.subnetId,
      ps.emrEc2Role,
      ps.emrRole,
      numConcurrentSteps,
      ebsRootVolumeSize,
      master,
      core,
      task,
      ps.python3,
      ps.sparkGlueCatalog,
      ps.hiveGlueCatalog,
      ps.prestoGlueCatalog,
      ps.bootstrapsPaths,
      ps.debugging,
      ps.applications,
      ps.visibleToAllUsers,
      ps.keyPairName,
      ps.securityGroupMaster,
      ps.securityGroupsMasterAdditional,
      ps.securityGroupSlave,
      ps.securityGroupsSlaveAdditional,
      ps.securityGroupServiceAccess,
      "INFO",
      ps.sparkJarsPath,
      ps.sparkDefaults,
      ps.maximizeResourceAllocation,
      None,
      ps.keepClusterAliveWhenNoSteps,
      ps.terminationProtected,
      ps.tags))
  }

  /** The request body `create_cluster` builds from those arguments and hands to the
      cluster API. */
  function SentRequest(cm: ComputeManager): Result<Value, StartError> {
    var args := StartComputeArgs(cm);
    if args.Failure? then Failure(ConfigFailed(args.error))
    else
      var request := ClusterArgs(args.value);
      if request.Failure? then Failure(BuildFailed(request.error)) else Success(request.value)
  }

  /** `start_compute()`: the response of the cluster API, which is outside the model and
      given as `runJobFlow`, is returned as it is. */
  function StartCompute(cm: ComputeManager, runJobFlow: Value -> Value): (r: Result<Value, StartError>)
    ensures r.Success? <==> SentRequest(cm).Success?
    ensures r.Success? ==> r.value == runJobFlow(SentRequest(cm).value)
    ensures r.Failure? ==> r.error == SentRequest(cm).error
  {
    var request :- SentRequest(cm);
    Success(runJobFlow(request))
  }

  // ---------------------------------------------------------------------------------------
  // Properties

  /** The param set name and the size can be read back from the cluster name, which starts
      with `Spark-` and has `-Size-` right after the param set name. */
  lemma ClusterNameParts(paramSetName: string, clusterSize: string)
    ensures var name := ClusterName(paramSetName, clusterSize);
      && |name| == 12 + |paramSetName| + |clusterSize|
      && name[..6] == "Spark-"
      && name[6..6 + |paramSetName|] == paramSetName
      && name[6 + |paramSetName|..12 + |paramSetName|] == "-Size-"
      && name[12 + |paramSetName|..] == clusterSize
  {
    var name := ClusterName(paramSetName, clusterSize);
    assert name == "Spark-" + paramSetName + "-Size-" + clusterSize;
  }

  /** Every setting `start_compute` passes on unchanged from the param set. */
  predicate ForwardsParamSet(ps: ParamSet, p: ClusterParams) {
    && p.loggingS3Path == ps.loggingS3Path
    && p.subnetId == ps.subnetId
    && p.emrEc2Role == ps.emrEc2Role
    && p.emrRole == ps.emrRole
    && p.python3 == ps.python3
    && p.sparkGlueCatalog == ps.sparkGlueCatalog
    && p.hiveGlueCatalog == ps.hiveGlueCatalog
    && p.prestoGlueCatalog == ps.prestoGlueCatalog
    && p.bootstrapsPaths == ps.bootstrapsPaths
    && p.debugging == ps.debugging
    && p.applications == ps.applications
    && p.visibleToAllUsers == ps.visibleToAllUsers
    && p.keyPairName == ps.keyPairName
    && p.securityGroupMaster == ps.securityGroupMaster
    && p.securityGroupsMasterAdditional == ps.securityGroupsMasterAdditional
    && p.securityGroupSlave == ps.securityGroupSlave
    && p.securityGroupsSlaveAdditional == ps.securityGroupsSlaveAdditional
    && p.securityGroupServiceAccess == ps.securityGroupServiceAccess
    && p.sparkJarsPath == ps.sparkJarsPath
    && p.sparkDefaults == ps.sparkDefaults
    && p.maximizeResourceAllocation == ps.maximizeResourceAllocation
    && p.keepClusterAliveWhenNoSteps == ps.keepClusterAliveWhenNoSteps
    && p.terminationProtected == ps.terminationProtected
    && p.tags == ps.tags
  }

  /** The arguments can be assembled exactly when the configuration has both a param set
      and a size profile; a missing param set is the error reported when both are missing. */
  lemma StartComputeArgsFails(cm: ComputeManager)
    ensures StartComputeArgs(cm).Success? <==> cm.config.parameters.Some? && cm.config.sizeConfig.Some?
    ensures cm.config.parameters.None? ==> StartComputeArgs(cm) == Failure(NoParamSet)
    ensures cm.config.parameters.Some? && cm.config.sizeConfig.None? ==>
      StartComputeArgs(cm) == Failure(NoSizeProfile)
  {
  }

  /** The assembled arguments: the fixed name, release label, log level and steps, the
      defaulted counts, each role's sizing from the size profile, and every other setting
      from the param set as it is. */
  lemma StartComputeArgsForward(cm: ComputeManager)
    requires cm.config.parameters.Some? && cm.config.sizeConfig.Some?
    ensures StartComputeArgs(cm).Success?
    ensures var p := StartComputeArgs(cm).value;
      var ps := cm.config.parameters.value;
      var profile := cm.config.sizeConfig.value;
      && p.clusterName == "Spark-" + cm.paramSetName + "-Size-" + cm.clusterSize
      && p.emrRelease == cm.config.releaseLabel
      && p.sparkLogLevel == "INFO"
      && p.steps == None
      && p.numConcurrentSteps == (if ps.numConcurrentSteps.Some? then ps.numConcurrentSteps.value else 5)
      && p.ebsRootVolumeSize == (if ps.ebsRootVolumeSize.Some? then ps.ebsRootVolumeSize.value else 15)
      && p.master == profile.master && p.core == profile.core && p.task == profile.task
      && ForwardsParamSet(ps, p)
  {
  }

  /** A manager built from a file reports release `emr-5.28.0` to the builder, whatever
      the file says. */
  lemma StartComputeRelease(spec: Option<Spec>, size: string, name: string, path: string)
    requires NewComputeManager(spec, size, name, path).Success?
    requires StartComputeArgs(NewComputeManager(spec, size, name, path).value).Success?
    ensures StartComputeArgs(NewComputeManager(spec, size, name, path).value).value.emrRelease == "emr-5.28.0"
  {
  }

  /** The request is sent exactly when the arguments assemble and the size profile's
      counts can be compared; a builder error names a count the profile leaves out. */
  lemma SentRequestFails(cm: ComputeManager)
    requires StartComputeArgs(cm).Success?
    ensures var profile := cm.config.sizeConfig.value;
      SentRequest(cm).Success? <==>
        profile.master.numSpot.Some? && Comparable(profile.core) && Comparable(profile.task)
    ensures SentRequest(cm).Failure? ==>
      && SentRequest(cm).error.BuildFailed?
      && NamesNoneCount(StartComputeArgs(cm).value, SentRequest(cm).error.buildError.param)
  {
    BuildFailsOnlyOnNoneCount(StartComputeArgs(cm).value);
  }

  /** The request the tool sends is the builder's request for the assembled arguments. */
  lemma SentRequestIsBuilt(cm: ComputeManager)
    requires SentRequest(cm).Success?
    ensures StartComputeArgs(cm).Success?
    ensures cm.config.parameters.Some? && cm.config.sizeConfig.Some?
    ensures ClusterArgs(StartComputeArgs(cm).value) == Success(SentRequest(cm).value)
  {
    StartComputeArgsFails(cm);
  }

  /** `request` is named `name`, and its first configuration is the log4j one, with root
      category `rootCategory`. */
  predicate NamedWithLog4j(request: Value, name: string, rootCategory: string) {
    && Member(request, "Name") == Some(Str(name))
    && Member(request, "Configurations").Some?
    && Member(request, "Configurations").value.Arr?
    && |Member(request, "Configurations").value.items| > 0
    && var log4j := Member(request, "Configurations").value.items[0];
       && StrMember(log4j, "Classification") == Some("spark-log4j")
       && Member(log4j, "Properties").Some?
       && StrMember(Member(log4j, "Properties").value, "log4j.rootCategory") == Some(rootCategory)
  }

  /** A built request is named `p.clusterName` and its first configuration is the log4j
      one, with root category `p.sparkLogLevel + ", console"`. */
  lemma RequestNameAndLog4j(p: ClusterParams, request: Value)
    requires ClusterArgs(p) == Success(request)
    ensures NamedWithLog4j(request, p.clusterName, p.sparkLogLevel + ", console")
  {
    ClusterArgsIsRequest(p);
    var configurations := Configurations(p);
    assert configurations[0] == Log4jConfiguration(p.sparkLogLevel);
    RequestNamedWithLog4j(p, InstanceFleets(p).value, configurations);
  }

  lemma RequestNamedWithLog4j(p: ClusterParams, fleets: seq<Value>, configurations: seq<Value>)
    requires |configurations| > 0 && configurations[0] == Log4jConfiguration(p.sparkLogLevel)
    ensures NamedWithLog4j(Request(p, fleets, configurations), p.clusterName, p.sparkLogLevel + ", console")
  {
    RequestMembers(p, fleets, configurations);
    Log4jRootCategory(p.sparkLogLevel);
  }

  /** The request the tool sends is named after the param set and size, and its only
      log4j setting is `INFO, console`, whatever the configuration's `spark_log_level`. */
  lemma SentRequestNameAndLogLevel(cm: ComputeManager)
    requires SentRequest(cm).Success?
    ensures NamedWithLog4j(SentRequest(cm).value,
                           "Spark-" + cm.paramSetName + "-Size-" + cm.clusterSize, "INFO, console")
  {
    SentRequestIsBuilt(cm);
    StartComputeArgsForward(cm);
    var p := StartComputeArgs(cm).value;
    RequestNameAndLog4j(p, SentRequest(cm).value);
    InfoConsole(p.sparkLogLevel);
  }

  /** The log level the tool passes, followed by `", console"`. */
  lemma InfoConsole(level: string)
    requires level == "INFO"
    ensures level + ", console" == "INFO, console"
  {
  }

  /** The request has `Steps` exactly when the param set's `debugging` is `True`, and then
      they are the debugging step alone. */
  lemma SentRequestSteps(cm: ComputeManager)
    requires SentRequest(cm).Success?
    ensures var debugging := cm.config.parameters.value.debugging;
      Member(SentRequest(cm).value, "Steps") ==
        if debugging == Some(true) then Some(Arr([DebuggingStep])) else None
  {
    SentRequestIsBuilt(cm);
    StartComputeArgsForward(cm);
    RequestStepsWithoutSteps(StartComputeArgs(cm).value);
  }

  /** Without supplied steps, a built request has `Steps` exactly when `debugging` is
      `True`, and then only the debugging step. */
  lemma RequestStepsWithoutSteps(p: ClusterParams)
    requires ClusterArgs(p).Success? && p.steps == None
    ensures Member(ClusterArgs(p).value, "Steps") ==
      if p.debugging == Some(true) then Some(Arr([DebuggingStep])) else None
  {
    ClusterArgsIsRequest(p);
    RequestSteps(p, InstanceFleets(p).value, Configurations(p));
    assert StepList(p) == When(IsTrue(p.debugging), DebuggingStep);
  }
}
