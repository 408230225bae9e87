/** `EMR._build_cluster_args`: the translation of the flat cluster parameters into the nested
    request body of the EMR `RunJobFlow` call. `ClusterArgs` states the body declaratively;
    `BuildClusterArgs` builds it the way the source does, by successive writes into dicts,
    and is proved to produce the same value. */
module EmrClient {
  import opened Python
  import opened Text
  import opened Roles

  /** The keyword arguments of `EMR.create_cluster`, which it hands on unchanged. */
  datatype ClusterParams = ClusterParams(
    clusterName: string,
    loggingS3Path: Option<string>,
    emrRelease: string,
    subnetId: Option<string>,
    emrEc2Role: Option<string>,
    emrRole: Option<string>,
    numConcurrentSteps: int,
    ebsRootVolumeSize: int,
    master: RoleSizing,
    core: RoleSizing,
    task: RoleSizing,
    python3: Option<bool>,
    sparkGlueCatalog: Option<bool>,
    hiveGlueCatalog: Option<bool>,
    prestoGlueCatalog: Option<bool>,
    bootstrapsPaths: Option<seq<string>>,
    debugging: Option<bool>,
    applications: Option<seq<string>>,
    visibleToAllUsers: Option<bool>,
    keyPairName: Option<string>,
    securityGroupMaster: Option<string>,
    securityGroupsMasterAdditional: Option<seq<string>>,
    securityGroupSlave: Option<string>,
    securityGroupsSlaveAdditional: Option<seq<string>>,
    securityGroupServiceAccess: Option<string>,
    sparkLogLevel: string,
    sparkJarsPath: Option<seq<string>>,
    sparkDefaults: Option<Dict<string>>,
    maximizeResourceAllocation: Option<bool>,
    steps: Option<seq<Value>>,
    keepClusterAliveWhenNoSteps: Option<bool>,
    terminationProtected: Option<bool>,
    tags: Option<Dict<string>>)

  /** The `TypeError` Python raises when `count > 0` meets a count that is `None`;
      `param` names that count. */
  datatype BuildError = TypeError(param: string)

  /** `if b:` on an optional flag, and equally `b is True`: only `True` passes. */
  predicate IsTrue(b: Option<bool>) { b == Some(true) }

  /** `if xs:` on an optional list: neither `None` nor `[]`. */
  predicate NonEmpty<T>(xs: Option<seq<T>>) { xs.Some? && |xs.value| > 0 }

  function SpotParam(role: Role): string { "instance_num_spot_" + role.Suffix() }
  function OnDemandParam(role: Role): string { "instance_num_on_demand_" + role.Suffix() }

  /** `count > 0`, which raises on `None`. */
  function Positive(count: Option<int>, param: string): Result<bool, BuildError> {
    if count.None? then Failure(TypeError(param)) else Success(count.value > 0)
  }

  /** The role has a positive spot count. */
  predicate HasSpot(r: RoleSizing) { r.numSpot.Some? && r.numSpot.value > 0 }

  // ---------------------------------------------------------------------------------------
  // Instance fleets

  const SwitchToOnDemand := "SWITCH_TO_ON_DEMAND"
  const TerminateCluster := "TERMINATE_CLUSTER"

  /** What the provider does when spot capacity is not found in time. */
  function TimeoutAction(fallbackToOnDemand: Option<bool>): string {
    if IsTrue(fallbackToOnDemand) then SwitchToOnDemand else TerminateCluster
  }

  function EbsConfiguration(ebsSize: Option<int>): Value {
    Obj([("EbsBlockDeviceConfigs", Arr([Obj([
           ("VolumeSpecification", Obj([("SizeInGB", OptInt(ebsSize)), ("VolumeType", Str("gp2"))])),
           ("VolumesPerInstance", Int(1))])])),
         ("EbsOptimized", Bool(true))])
  }

  function InstanceTypeConfig(r: RoleSizing): Value {
    Obj([("InstanceType", OptStr(r.instanceType)),
         ("WeightedCapacity", Int(1)),
         ("BidPriceAsPercentageOfOnDemandPrice", OptInt(r.spotBidPercentage)),
         ("EbsConfiguration", EbsConfiguration(r.ebsSize))])
  }

  function LaunchSpecifications(r: RoleSizing): Value {
    Obj([("SpotSpecification", Obj([
           ("TimeoutDurationMinutes", OptInt(r.spotProvisioningTimeout)),
           ("TimeoutAction", Str(TimeoutAction(r.spotTimeoutToOnDemand)))]))])
  }

  /** The fleet dict before its optional spot launch specification. */
  function FleetBase(role: Role, r: RoleSizing): seq<(string, Value)> {
    [("Name", Str(role.FleetName())),
     ("InstanceFleetType", Str(role.FleetName())),
     ("TargetOnDemandCapacity", OptInt(r.numOnDemand)),
     ("TargetSpotCapacity", OptInt(r.numSpot)),
     ("InstanceTypeConfigs", Arr([InstanceTypeConfig(r)]))]
  }

  function Fleet(role: Role, r: RoleSizing, spot: bool): Value {
    Obj(FleetBase(role, r) + When(spot, ("LaunchSpecifications", LaunchSpecifications(r))))
  }

  /** `spot > 0 or on_demand > 0` for a CORE or TASK fleet: the on-demand count is compared
      only when the spot comparison is false. */
  function Wanted(role: Role, r: RoleSizing): Result<bool, BuildError> {
    var spot :- Positive(r.numSpot, SpotParam(role));
    if spot then Success(true) else Positive(r.numOnDemand, OnDemandParam(role))
  }

  /** The fleets of the request: MASTER always, then CORE and TASK when wanted. The master's
      on-demand count is never compared, so it may be `None`. */
  function InstanceFleets(p: ClusterParams): Result<seq<Value>, BuildError> {
    var masterSpot :- Positive(p.master.numSpot, SpotParam(Master));
    var core :- Wanted(Core, p.core);
    var task :- Wanted(Task, p.task);
    Success([Fleet(Master, p.master, masterSpot)]
            + When(core, Fleet(Core, p.core, HasSpot(p.core)))
            + When(task, Fleet(Task, p.task, HasSpot(p.task))))
  }

  // ---------------------------------------------------------------------------------------
  // Configurations

  const GlueClientFactory := "com.amazonaws.glue.catalog.metastore.AWSGlueDataCatalogHiveClientFactory"

  function Log4jConfiguration(level: string): Value {
    Obj([("Classification", Str("spark-log4j")),
         ("Properties", Obj([("log4j.rootCategory", Str(level + ", console"))]))])
  }

  const SparkEnvConfiguration: Value :=
    Obj([("Classification", Str("spark-env")),
         ("Properties", Obj([])),
         ("Configurations", Arr([Obj([
            ("Classification", Str("export")),
            ("Properties", Obj([("PYSPARK_PYTHON", Str("/usr/bin/python3"))])),
            ("Configurations", Arr([]))])]))])

  const SparkHiveSiteConfiguration: Value :=
    Obj([("Classification", Str("spark-hive-site")),
         ("Properties", Obj([("hive.metastore.client.factory.class", Str(GlueClientFactory))])),
         ("Configurations", Arr([]))])

  const HiveSiteConfiguration: Value :=
    Obj([("Classification", Str("hive-site")),
         ("Properties", Obj([("hive.metastore.client.factory.class", Str(GlueClientFactory))])),
         ("Configurations", Arr([]))])

  const PrestoConnectorHiveConfiguration: Value :=
    Obj([("Classification", Str("presto-connector-hive")),
         ("Properties", Obj([("hive.metastore.glue.datacatalog.enabled", Str("true"))])),
         ("Configurations", Arr([]))])

  const MaximizeResourceConfiguration: Value :=
    Obj([("Classification", Str("spark")),
         ("Properties", Obj([("maximizeResourceAllocation", Str("true"))]))])

  /** The `spark-defaults` properties: `spark.jars` set to the comma-joined jar paths first,
      then every `spark_defaults` entry written over it in order. */
  function SparkDefaultsProperties(jars: Option<seq<string>>, defaults: Option<Dict<string>>): seq<(string, string)> {
    PutAll(if jars.Some? then [("spark.jars", JoinWith(jars.value, ","))] else [],
           if defaults.Some? then defaults.value else [])
  }

  function SparkDefaultsConfiguration(properties: seq<(string, string)>): Value {
    Obj([("Classification", Str("spark-defaults")), ("Properties", StrObj(properties))])
  }

  function Configurations(p: ClusterParams): seq<Value> {
    [Log4jConfiguration(p.sparkLogLevel)]
    + When(IsTrue(p.python3), SparkEnvConfiguration)
    + When(IsTrue(p.sparkGlueCatalog), SparkHiveSiteConfiguration)
    + When(IsTrue(p.hiveGlueCatalog), HiveSiteConfiguration)
    + When(IsTrue(p.prestoGlueCatalog), PrestoConnectorHiveConfiguration)
    + When(IsTrue(p.maximizeResourceAllocation), MaximizeResourceConfiguration)
    + When(p.sparkJarsPath.Some? || p.sparkDefaults.Some?,
           SparkDefaultsConfiguration(SparkDefaultsProperties(p.sparkJarsPath, p.sparkDefaults)))
  }

  // ---------------------------------------------------------------------------------------
  // Applications, bootstrap actions, steps, tags

  function Application(name: string): Value {
    Obj([("Name", Str(name))])
  }

  function ApplicationList(apps: seq<string>): seq<Value> {
    seq(|apps|, i requires 0 <= i < |apps| => Application(apps[i]))
  }

  function BootstrapAction(path: string): Value {
    Obj([("Name", Str(path)), ("ScriptBootstrapAction", Obj([("Path", Str(path))]))])
  }

  function BootstrapActionList(paths: seq<string>): seq<Value> {
    seq(|paths|, i requires 0 <= i < |paths| => BootstrapAction(paths[i]))
  }

  const DebuggingStep: Value :=
    Obj([("Name", Str("Setup Hadoop Debugging")),
         ("ActionOnFailure", Str("TERMINATE_CLUSTER")),
         ("HadoopJarStep", Obj([("Jar", Str("command-runner.jar")),
                                ("Args", Arr([Str("state-pusher-script")]))]))])

  /** The debugging step when `debugging is True`, followed by the supplied steps. */
  function StepList(p: ClusterParams): seq<Value> {
    When(IsTrue(p.debugging), DebuggingStep) + OrEmpty(p.steps)
  }

  function Tag(key: string, value: string): Value {
    Obj([("Key", Str(key)), ("Value", Str(value))])
  }

  function TagList(tags: seq<(string, string)>): seq<Value> {
    seq(|tags|, i requires 0 <= i < |tags| => Tag(tags[i].0, tags[i].1))
  }

  // ---------------------------------------------------------------------------------------
  // The request

  /** A key written only when its parameter is not `None`. */
  function OptionalStr(key: string, o: Option<string>): seq<(string, Value)> {
    if o.Some? then [(key, Str(o.value))] else []
  }

  function OptionalStrList(key: string, o: Option<seq<string>>): seq<(string, Value)> {
    if o.Some? then [(key, StrList(o.value))] else []
  }

  /** The keys `Instances` gets after `InstanceFleets`, each only for a parameter that is not `None`. */
  function InstancesOptional(p: ClusterParams): seq<(string, Value)> {
    OptionalStr("Ec2KeyName", p.keyPairName)
    + OptionalStr("EmrManagedMasterSecurityGroup", p.securityGroupMaster)
    + OptionalStrList("AdditionalMasterSecurityGroups", p.securityGroupsMasterAdditional)
    + OptionalStr("EmrManagedSlaveSecurityGroup", p.securityGroupSlave)
    + OptionalStrList("AdditionalSlaveSecurityGroups", p.securityGroupsSlaveAdditional)
    + OptionalStr("ServiceAccessSecurityGroup", p.securityGroupServiceAccess)
  }

  function InstancesFields(p: ClusterParams, fleets: seq<Value>, optional: seq<(string, Value)>): seq<(string, Value)> {
    [("KeepJobFlowAliveWhenNoSteps", OptBool(p.keepClusterAliveWhenNoSteps)),
     ("TerminationProtected", OptBool(p.terminationProtected)),
     ("Ec2SubnetId", OptStr(p.subnetId)),
     ("InstanceFleets", Arr(fleets))]
    + optional
  }

  /** The keys the request dict is created with, in order. */
  function InitialFields(p: ClusterParams, instances: Value): seq<(string, Value)> {
    [("Name", Str(p.clusterName)),
     ("LogUri", OptStr(p.loggingS3Path)),
     ("ReleaseLabel", Str(p.emrRelease)),
     ("VisibleToAllUsers", OptBool(p.visibleToAllUsers)),
     ("JobFlowRole", OptStr(p.emrEc2Role)),
     ("ServiceRole", OptStr(p.emrRole)),
     ("Instances", instances),
     ("EbsRootVolumeSize", Int(p.ebsRootVolumeSize)),
     ("StepConcurrencyLevel", Int(p.numConcurrentSteps))]
  }

  /** The keys added to the request after creation, in the order the source adds them. */
  function LaterFields(p: ClusterParams, configurations: seq<Value>): seq<(string, Value)> {
    [("Configurations", Arr(configurations))]
    + When(NonEmpty(p.applications), ("Applications", Arr(ApplicationList(OrEmpty(p.applications)))))
    + When(NonEmpty(p.bootstrapsPaths), ("BootstrapActions", Arr(BootstrapActionList(OrEmpty(p.bootstrapsPaths)))))
    + When(IsTrue(p.debugging) || p.steps.Some?, ("Steps", Arr(StepList(p))))
    + When(p.tags.Some?, ("Tags", Arr(TagList(OrEmpty(p.tags)))))
  }

  /** The request dict once its fleets and configurations are known. */
  function Request(p: ClusterParams, fleets: seq<Value>, configurations: seq<Value>): Value {
    Obj(InitialFields(p, Obj(InstancesFields(p, fleets, InstancesOptional(p)))) + LaterFields(p, configurations))
  }

  /** The request body, or the `TypeError` a count comparison raises. */
  function ClusterArgs(p: ClusterParams): Result<Value, BuildError> {
    var fleets :- InstanceFleets(p);
    Success(Request(p, fleets, Configurations(p)))
  }

  /** The EC2 key pair and security-group keys, written into `args["Instances"]` one by one. */
  method AddSecurityGroups(p: ClusterParams) returns (extra: seq<(string, Value)>)
    ensures extra == InstancesOptional(p)
  {
    extra := [];
    if p.keyPairName.Some? {
      extra := extra + [("Ec2KeyName", Str(p.keyPairName.value))];
    }
    assert extra == OptionalStr("Ec2KeyName", p.keyPairName);
    ghost var done := extra;
    if p.securityGroupMaster.Some? {
      extra := extra + [("EmrManagedMasterSecurityGroup", Str(p.securityGroupMaster.value))];
    }
    assert extra == done + OptionalStr("EmrManagedMasterSecurityGroup", p.securityGroupMaster);
    done := extra;
    if p.securityGroupsMasterAdditional.Some? {
      extra := extra + [("AdditionalMasterSecurityGroups", StrList(p.securityGroupsMasterAdditional.value))];
    }
    assert extra == done + OptionalStrList("AdditionalMasterSecurityGroups", p.securityGroupsMasterAdditional);
    done := extra;
    if p.securityGroupSlave.Some? {
      extra := extra + [("EmrManagedSlaveSecurityGroup", Str(p.securityGroupSlave.value))];
    }
    assert extra == done + OptionalStr("EmrManagedSlaveSecurityGroup", p.securityGroupSlave);
    done := extra;
    if p.securityGroupsSlaveAdditional.Some? {
      extra := extra + [("AdditionalSlaveSecurityGroups", StrList(p.securityGroupsSlaveAdditional.value))];
    }
    assert extra == done + OptionalStrList("AdditionalSlaveSecurityGroups", p.securityGroupsSlaveAdditional);
    done := extra;
    if p.securityGroupServiceAccess.Some? {
      extra := extra + [("ServiceAccessSecurityGroup", Str(p.securityGroupServiceAccess.value))];
    }
    assert extra == done + OptionalStr("ServiceAccessSecurityGroup", p.securityGroupServiceAccess);
  }

  /** The `spark-defaults` properties dict: `spark.jars` first, then the loop over `spark_defaults`. */
  method BuildSparkDefaults(jars: Option<seq<string>>, defaults: Option<Dict<string>>) returns (properties: seq<(string, string)>)
    ensures properties == SparkDefaultsProperties(jars, defaults)
  {
    properties := [];
    if jars.Some? {
      properties := Put(properties, "spark.jars", JoinWith(jars.value, ","));
    }
    if defaults.Some? {
      var es := defaults.value;
      ghost var before := properties;
      var i := 0;
      while i < |es|
        invariant 0 <= i <= |es|
        invariant properties == PutAll(before, es[..i])
      {
        assert es[..i + 1][..i] == es[..i];
        properties := Put(properties, es[i].0, es[i].1);
        i := i + 1;
      }
      assert es[..i] == es;
    }
  }

  /** The `Configurations` list, appended to in the order of the source. */
  method BuildConfigurations(p: ClusterParams) returns (configurations: seq<Value>)
    ensures configurations == Configurations(p)
  {
    configurations := [Log4jConfiguration(p.sparkLogLevel)];
    ghost var done := configurations;
    if IsTrue(p.python3) {
      configurations := configurations + [SparkEnvConfiguration];
    }
    assert configurations == done + When(IsTrue(p.python3), SparkEnvConfiguration);
    done := configurations;
    if IsTrue(p.sparkGlueCatalog) {
      configurations := configurations + [SparkHiveSiteConfiguration];
    }
    assert configurations == done + When(IsTrue(p.sparkGlueCatalog), SparkHiveSiteConfiguration);
    done := configurations;
    if IsTrue(p.hiveGlueCatalog) {
      configurations := configurations + [HiveSiteConfiguration];
    }
    assert configurations == done + When(IsTrue(p.hiveGlueCatalog), HiveSiteConfiguration);
    done := configurations;
    if IsTrue(p.prestoGlueCatalog) {
      configurations := configurations + [PrestoConnectorHiveConfiguration];
    }
    assert configurations == done + When(IsTrue(p.prestoGlueCatalog), PrestoConnectorHiveConfiguration);
    done := configurations;
    if IsTrue(p.maximizeResourceAllocation) {
      configurations := configurations + [MaximizeResourceConfiguration];
    }
    assert configurations == done + When(IsTrue(p.maximizeResourceAllocation), MaximizeResourceConfiguration);
    done := configurations;
    if p.sparkJarsPath.Some? || p.sparkDefaults.Some? {
      var properties := BuildSparkDefaults(p.sparkJarsPath, p.sparkDefaults);
      configurations := configurations + [SparkDefaultsConfiguration(properties)];
    } else {
      assert configurations == done + [];
    }
  }

  /** One fleet dict: the fixed part, then `LaunchSpecifications` when the spot count is positive. */
  method BuildFleet(role: Role, r: RoleSizing, spotCount: int) returns (fleet: Value)
    requires r.numSpot == Some(spotCount)
    ensures fleet == Fleet(role, r, spotCount > 0)
  {
    var fields := FleetBase(role, r);
    if spotCount > 0 {
      fields := fields + [("LaunchSpecifications", LaunchSpecifications(r))];
    }
    fleet := Obj(fields);
  }

  /** The CORE or TASK fleet appended to `fleets` when `spot > 0 or on_demand > 0`, or the
      `TypeError` of the comparison. */
  method AddOptionalFleet(role: Role, r: RoleSizing, fleets: seq<Value>) returns (res: Result<seq<Value>, BuildError>)
    ensures Wanted(role, r).Failure? ==> res == Failure(Wanted(role, r).error)
    ensures Wanted(role, r).Success? ==>
      res == Success(fleets + When(Wanted(role, r).value, Fleet(role, r, HasSpot(r))))
  {
    if r.numSpot.None? {
      return Failure(TypeError(SpotParam(role)));
    }
    if r.numSpot.value <= 0 && r.numOnDemand.None? {
      return Failure(TypeError(OnDemandParam(role)));
    }
    if r.numSpot.value > 0 || r.numOnDemand.value > 0 {
      var fleet := BuildFleet(role, r, r.numSpot.value);
      return Success(fleets + [fleet]);
    }
    assert fleets + [] == fleets;
    return Success(fleets);
  }

  /** The `InstanceFleets` list: MASTER, then CORE and TASK when wanted. */
  method BuildInstanceFleets(p: ClusterParams) returns (res: Result<seq<Value>, BuildError>)
    ensures res == InstanceFleets(p)
  {
    if p.master.numSpot.None? {
      return Failure(TypeError(SpotParam(Master)));
    }
    var master := BuildFleet(Master, p.master, p.master.numSpot.value);
    var fleets := [master];
    res := AddOptionalFleet(Core, p.core, fleets);
    if res.Failure? {
      return;
    }
    res := AddOptionalFleet(Task, p.task, res.value);
  }

  /** The `Steps` list: the debugging step first when asked for, then the given steps. */
  method BuildSteps(p: ClusterParams) returns (steps: seq<Value>)
    ensures steps == StepList(p)
  {
    steps := [];
    if IsTrue(p.debugging) {
      steps := steps + [DebuggingStep];
    }
    if p.steps.Some? {
      steps := steps + p.steps.value;
    }
  }

  /** `EMR._build_cluster_args`, step by step. The source creates `args`, then keeps writing into
      the dicts nested in it (`args["Instances"]`, its `InstanceFleets` list, the
      `Configurations` list); those nested containers are built in locals here and placed into
      the request when they are complete. A key written to a dict that does not hold it yet
      is appended at the end. */
  method BuildClusterArgs(p: ClusterParams) returns (r: Result<Value, BuildError>)
    ensures r == ClusterArgs(p)
  {
    var instancesExtra := AddSecurityGroups(p);
    var configurations := BuildConfigurations(p);
    var later := [("Configurations", Arr(configurations))];
    ghost var done := later;
    if NonEmpty(p.applications) {
      later := later + [("Applications", Arr(ApplicationList(p.applications.value)))];
    }
    assert later == done + When(NonEmpty(p.applications), ("Applications", Arr(ApplicationList(OrEmpty(p.applications)))));
    done := later;
    if NonEmpty(p.bootstrapsPaths) {
      later := later + [("BootstrapActions", Arr(BootstrapActionList(p.bootstrapsPaths.value)))];
    }
    assert later == done + When(NonEmpty(p.bootstrapsPaths), ("BootstrapActions", Arr(BootstrapActionList(OrEmpty(p.bootstrapsPaths)))));
    done := later;
    if IsTrue(p.debugging) || p.steps.Some? {
      var steps := BuildSteps(p);
      later := later + [("Steps", Arr(steps))];
    }
    assert later == done + When(IsTrue(p.debugging) || p.steps.Some?, ("Steps", Arr(StepList(p))));
    done := later;
    var fleets := BuildInstanceFleets(p);
    if fleets.Failure? {
      return Failure(fleets.error);
    }
    if p.tags.Some? {
      later := later + [("Tags", Arr(TagList(p.tags.value)))];
    }
    assert later == done + When(p.tags.Some?, ("Tags", Arr(TagList(OrEmpty(p.tags)))));
    assert later == LaterFields(p, configurations);
    var instances := InstancesFields(p, fleets.value, instancesExtra);
    r := Success(Obj(InitialFields(p, Obj(instances)) + later));
  }
}
