/** What `EMR._build_cluster_args` promises about the request it builds: when it raises, which
    fleets the request has and what each carries, the configuration classifications, the
    `spark-defaults` properties, and the lists derived from the parameters. */
module EmrClientProperties {
  import opened Python
  import opened Text
  import opened Roles
  import opened EmrClient

  function SizingOf(p: ClusterParams, role: Role): RoleSizing {
    match role
    case Master => p.master
    case Core => p.core
    case Task => p.task
  }

  /** `count` names an instance count of `p` that is `None`. */
  predicate NamesNoneCount(p: ClusterParams, count: string) {
    exists role: Role ::
      (count == SpotParam(role) && SizingOf(p, role).numSpot.None?)
      || (count == OnDemandParam(role) && SizingOf(p, role).numOnDemand.None?)
  }

  /** `spot > 0 or on_demand > 0` can be evaluated for the role without meeting `None`. */
  predicate Comparable(r: RoleSizing) {
    r.numSpot.Some? && (r.numSpot.value <= 0 ==> r.numOnDemand.Some?)
  }

  /** The request is built exactly when the master spot count and the CORE and TASK
      comparisons never meet `None`; otherwise the `TypeError` names a count that is `None`,
      and it is never the master's on-demand count, which the builder does not compare. */
  lemma {:induction false} BuildFailsOnlyOnNoneCount(p: ClusterParams)
    ensures ClusterArgs(p).Success? <==>
      p.master.numSpot.Some? && Comparable(p.core) && Comparable(p.task)
    ensures ClusterArgs(p).Failure? ==> NamesNoneCount(p, ClusterArgs(p).error.param)
    ensures ClusterArgs(p).Failure? ==> ClusterArgs(p).error.param != OnDemandParam(Master)
  {
    BuildFailsWithFleets(p);
    FleetsFailOnlyOnNoneCount(p);
  }

  /** The build fails exactly when selecting the fleets does, with the same error. */
  lemma BuildFailsWithFleets(p: ClusterParams)
    ensures ClusterArgs(p).Success? <==> InstanceFleets(p).Success?
    ensures ClusterArgs(p).Failure? ==> ClusterArgs(p).error == InstanceFleets(p).error
  {
  }

  /** Selecting the fleets fails on the first `None` count it compares. */
  lemma {:induction false} FleetsFailOnlyOnNoneCount(p: ClusterParams)
    ensures InstanceFleets(p).Success? <==>
      p.master.numSpot.Some? && Comparable(p.core) && Comparable(p.task)
    ensures InstanceFleets(p).Failure? ==> NamesNoneCount(p, InstanceFleets(p).error.param)
    ensures InstanceFleets(p).Failure? ==> InstanceFleets(p).error.param != OnDemandParam(Master)
  {
    if InstanceFleets(p).Failure? {
      var e := InstanceFleets(p).error.param;
      if p.master.numSpot.None? {
        assert e == SpotParam(Master);
        assert NamesNoneCount(p, e) by { assert SizingOf(p, Master) == p.master; }
      } else if p.core.numSpot.None? {
        assert e == SpotParam(Core);
        assert NamesNoneCount(p, e) by { assert SizingOf(p, Core) == p.core; }
      } else if !Comparable(p.core) {
        assert e == OnDemandParam(Core);
        assert NamesNoneCount(p, e) by { assert SizingOf(p, Core) == p.core; }
      } else if p.task.numSpot.None? {
        assert e == SpotParam(Task);
        assert NamesNoneCount(p, e) by { assert SizingOf(p, Task) == p.task; }
      } else {
        assert e == OnDemandParam(Task);
        assert NamesNoneCount(p, e) by { assert SizingOf(p, Task) == p.task; }
      }
    }
  }

  // ---------------------------------------------------------------------------------------
  // Fleets

  /** `spot > 0 or on_demand > 0` once both comparisons can be made. */
  predicate IsWanted(r: RoleSizing)
    requires Comparable(r)
  {
    r.numSpot.value > 0 || r.numOnDemand.value > 0
  }

  /** The roles that get a fleet, in the order the fleets are appended. */
  function FleetRoles(p: ClusterParams): seq<Role>
    requires Comparable(p.core) && Comparable(p.task)
  {
    [Master] + (if IsWanted(p.core) then [Core] else []) + (if IsWanted(p.task) then [Task] else [])
  }

  /** The value of `key` in a dict of the tree, as a string. */
  function StrMember(v: Value, key: string): Option<string> {
    var m := Member(v, key);
    if m.Some? && m.value.Str? then Some(m.value.s) else None
  }

  function FleetTypes(fleets: seq<Value>): seq<Option<string>> {
    seq(|fleets|, i requires 0 <= i < |fleets| => StrMember(fleets[i], "InstanceFleetType"))
  }

  /** Each role's fleet is built from that role's own settings, with launch specifications
      exactly when its spot count is positive; MASTER always comes first, then CORE and TASK
      in that order when wanted. */
  lemma {:induction false} FleetsFollowRoles(p: ClusterParams)
    requires p.master.numSpot.Some? && Comparable(p.core) && Comparable(p.task)
    ensures InstanceFleets(p).Success?
    ensures var fleets := InstanceFleets(p).value; var roles := FleetRoles(p);
      |fleets| == |roles|
      && forall i :: 0 <= i < |roles| ==>
           fleets[i] == Fleet(roles[i], SizingOf(p, roles[i]), HasSpot(SizingOf(p, roles[i])))
  {
    var fleets := InstanceFleets(p).value;
    var roles := FleetRoles(p);
    assert fleets[0] == Fleet(Master, p.master, HasSpot(p.master));
    if IsWanted(p.core) {
      assert roles[1] == Core && fleets[1] == Fleet(Core, p.core, HasSpot(p.core));
    }
  }

  lemma FleetKeys(role: Role, r: RoleSizing, spot: bool)
    ensures Keys(Fleet(role, r, spot).fields) ==
      ["Name", "InstanceFleetType", "TargetOnDemandCapacity", "TargetSpotCapacity", "InstanceTypeConfigs"]
      + When(spot, "LaunchSpecifications")
    ensures DistinctKeys(Fleet(role, r, spot).fields)
  {
  }

  /** A fleet dict names its role twice and carries the role's two target capacities as given. */
  lemma FleetContents(role: Role, r: RoleSizing, spot: bool)
    ensures var f := Fleet(role, r, spot);
      StrMember(f, "Name") == Some(role.FleetName())
      && StrMember(f, "InstanceFleetType") == Some(role.FleetName())
      && Member(f, "TargetOnDemandCapacity") == Some(OptInt(r.numOnDemand))
      && Member(f, "TargetSpotCapacity") == Some(OptInt(r.numSpot))
  {
    var f := Fleet(role, r, spot);
    FleetKeys(role, r, spot);
    LookupIndex(f.fields, 0);
    LookupIndex(f.fields, 1);
    LookupIndex(f.fields, 2);
    LookupIndex(f.fields, 3);
  }

  /** A fleet carries a spot launch specification exactly when asked to. */
  lemma FleetLaunchSpecifications(role: Role, r: RoleSizing, spot: bool)
    ensures Member(Fleet(role, r, spot), "LaunchSpecifications") ==
      if spot then Some(LaunchSpecifications(r)) else None
  {
    var f := Fleet(role, r, spot);
    FleetKeys(role, r, spot);
    if spot {
      LookupIndex(f.fields, 5);
    }
  }

  /** Every fleet has exactly one instance type configuration, built from its role. */
  lemma FleetInstanceTypeConfigs(role: Role, r: RoleSizing, spot: bool)
    ensures Member(Fleet(role, r, spot), "InstanceTypeConfigs") == Some(Arr([InstanceTypeConfig(r)]))
  {
    FleetKeys(role, r, spot);
    LookupIndex(Fleet(role, r, spot).fields, 4);
  }

  /** The instance type configuration: the role's instance type and bid percentage, weight 1,
      and the EBS configuration for the role's volume size. */
  lemma InstanceTypeConfigContents(r: RoleSizing)
    ensures var c := InstanceTypeConfig(r);
      && Member(c, "InstanceType") == Some(OptStr(r.instanceType))
      && Member(c, "WeightedCapacity") == Some(Int(1))
      && Member(c, "BidPriceAsPercentageOfOnDemandPrice") == Some(OptInt(r.spotBidPercentage))
      && Member(c, "EbsConfiguration") == Some(EbsConfiguration(r.ebsSize))
  {
    var c := InstanceTypeConfig(r);
    LookupIndex(c.fields, 0);
    LookupIndex(c.fields, 1);
    LookupIndex(c.fields, 2);
    LookupIndex(c.fields, 3);
  }

  /** The EBS configuration is EBS-optimised and has one device: one `gp2` volume per
      instance of the given size. */
  lemma EbsConfigurationContents(ebsSize: Option<int>)
    ensures var ebs := EbsConfiguration(ebsSize);
      var volume := Obj([("SizeInGB", OptInt(ebsSize)), ("VolumeType", Str("gp2"))]);
      var device := Obj([("VolumeSpecification", volume), ("VolumesPerInstance", Int(1))]);
      && Member(ebs, "EbsOptimized") == Some(Bool(true))
      && Member(ebs, "EbsBlockDeviceConfigs") == Some(Arr([device]))
      && Member(device, "VolumesPerInstance") == Some(Int(1))
      && Member(volume, "VolumeType") == Some(Str("gp2"))
      && Member(volume, "SizeInGB") == Some(OptInt(ebsSize))
  {
    var volume := Obj([("SizeInGB", OptInt(ebsSize)), ("VolumeType", Str("gp2"))]);
    var device := Obj([("VolumeSpecification", volume), ("VolumesPerInstance", Int(1))]);
    var ebs := EbsConfiguration(ebsSize);
    LookupIndex(ebs.fields, 0);
    LookupIndex(ebs.fields, 1);
    LookupIndex(device.fields, 1);
    LookupIndex(volume.fields, 0);
    LookupIndex(volume.fields, 1);
  }

  /** The spot specification tells the provider to fall back to on-demand instances exactly
      when the role's `spot_timeout_to_on_demand` setting is `True`, and to give up otherwise. */
  lemma SpotTimeoutAction(r: RoleSizing)
    ensures var spec := Member(LaunchSpecifications(r), "SpotSpecification");
      spec.Some?
      && StrMember(spec.value, "TimeoutAction") == Some(if r.spotTimeoutToOnDemand == Some(true) then "SWITCH_TO_ON_DEMAND" else "TERMINATE_CLUSTER")
      && Member(spec.value, "TimeoutDurationMinutes") == Some(OptInt(r.spotProvisioningTimeout))
  {
    var spec := Obj([("TimeoutDurationMinutes", OptInt(r.spotProvisioningTimeout)),
                     ("TimeoutAction", Str(TimeoutAction(r.spotTimeoutToOnDemand)))]);
    assert Member(LaunchSpecifications(r), "SpotSpecification") == Some(spec);
    LookupIndex(spec.fields, 1);
  }

  /** The fleet types, in order, are MASTER then the wanted ones of CORE and TASK. */
  lemma {:induction false} FleetTypeOrder(p: ClusterParams)
    requires p.master.numSpot.Some? && Comparable(p.core) && Comparable(p.task)
    ensures InstanceFleets(p).Success?
    ensures FleetTypes(InstanceFleets(p).value) ==
      [Some("MASTER")] + (if IsWanted(p.core) then [Some("CORE")] else [])
      + (if IsWanted(p.task) then [Some("TASK")] else [])
  {
    var m := When(true, Fleet(Master, p.master, HasSpot(p.master)));
    var c := When(IsWanted(p.core), Fleet(Core, p.core, HasSpot(p.core)));
    var t := When(IsWanted(p.task), Fleet(Task, p.task, HasSpot(p.task)));
    assert InstanceFleets(p).value == m + c + t;
    FleetTypesAppend(m + c, t);
    FleetTypesAppend(m, c);
    WantedFleetType(Master, p.master, true);
    WantedFleetType(Core, p.core, IsWanted(p.core));
    WantedFleetType(Task, p.task, IsWanted(p.task));
  }

  /** The type list of a fleet that is appended only when wanted. */
  lemma WantedFleetType(role: Role, r: RoleSizing, wanted: bool)
    ensures FleetTypes(When(wanted, Fleet(role, r, HasSpot(r)))) == When(wanted, Some(role.FleetName()))
  {
    FleetContents(role, r, HasSpot(r));
    FleetTypesWhen(wanted, Fleet(role, r, HasSpot(r)));
  }

  lemma FleetTypesAppend(a: seq<Value>, b: seq<Value>)
    ensures FleetTypes(a + b) == FleetTypes(a) + FleetTypes(b)
  {
  }

  lemma FleetTypesWhen(b: bool, fleet: Value)
    ensures FleetTypes(When(b, fleet)) == When(b, StrMember(fleet, "InstanceFleetType"))
  {
    if b {
      assert FleetTypes([fleet])[0] == StrMember(fleet, "InstanceFleetType");
    }
  }

  // ---------------------------------------------------------------------------------------
  // Configurations

  /** The `Classification` of each configuration, in order. */
  function Classifications(configurations: seq<Value>): seq<Option<string>> {
    if configurations == [] then []
    else [StrMember(configurations[0], "Classification")] + Classifications(configurations[1..])
  }

  lemma {:induction false} ClassificationsAppend(a: seq<Value>, b: seq<Value>)
    ensures Classifications(a + b) == Classifications(a) + Classifications(b)
  {
    if a == [] {
      assert a + b == b;
    } else {
      assert (a + b)[1..] == a[1..] + b;
      ClassificationsAppend(a[1..], b);
    }
  }

  /** Appending a configuration when its flag is set appends its classification when the
      flag is set. */
  lemma AppendConfiguration(c: seq<Value>, flag: bool, x: Value, name: string)
    requires StrMember(x, "Classification") == Some(name)
    ensures Classifications(c + When(flag, x)) == Classifications(c) + When(flag, Some(name))
  {
    ClassificationsAppend(c, When(flag, x));
  }

  lemma KnownClassifications(p: ClusterParams)
    ensures StrMember(SparkEnvConfiguration, "Classification") == Some("spark-env")
    ensures StrMember(SparkHiveSiteConfiguration, "Classification") == Some("spark-hive-site")
    ensures StrMember(HiveSiteConfiguration, "Classification") == Some("hive-site")
    ensures StrMember(PrestoConnectorHiveConfiguration, "Classification") == Some("presto-connector-hive")
    ensures StrMember(MaximizeResourceConfiguration, "Classification") == Some("spark")
    ensures StrMember(SparkDefaultsConfiguration(SparkDefaultsProperties(p.sparkJarsPath, p.sparkDefaults)), "Classification")
      == Some("spark-defaults")
    ensures Classifications([Log4jConfiguration(p.sparkLogLevel)]) == [Some("spark-log4j")]
  {
  }

  /** The configurations come in a fixed order: the log level always, then each optional
      classification exactly when its flag is set, `spark-defaults` last when jars or
      defaults are given. */
  lemma ConfigurationOrder(p: ClusterParams)
    ensures Classifications(Configurations(p)) ==
      [Some("spark-log4j")]
      + When(IsTrue(p.python3), Some("spark-env"))
      + When(IsTrue(p.sparkGlueCatalog), Some("spark-hive-site"))
      + When(IsTrue(p.hiveGlueCatalog), Some("hive-site"))
      + When(IsTrue(p.prestoGlueCatalog), Some("presto-connector-hive"))
      + When(IsTrue(p.maximizeResourceAllocation), Some("spark"))
      + When(p.sparkJarsPath.Some? || p.sparkDefaults.Some?, Some("spark-defaults"))
  {
    KnownClassifications(p);
    var c0 := [Log4jConfiguration(p.sparkLogLevel)];
    var k0 := [Some("spark-log4j")];
    var c1 := c0 + When(IsTrue(p.python3), SparkEnvConfiguration);
    var k1 := k0 + When(IsTrue(p.python3), Some("spark-env"));
    AppendConfiguration(c0, IsTrue(p.python3), SparkEnvConfiguration, "spark-env");
    var c2 := c1 + When(IsTrue(p.sparkGlueCatalog), SparkHiveSiteConfiguration);
    var k2 := k1 + When(IsTrue(p.sparkGlueCatalog), Some("spark-hive-site"));
    AppendConfiguration(c1, IsTrue(p.sparkGlueCatalog), SparkHiveSiteConfiguration, "spark-hive-site");
    var c3 := c2 + When(IsTrue(p.hiveGlueCatalog), HiveSiteConfiguration);
    var k3 := k2 + When(IsTrue(p.hiveGlueCatalog), Some("hive-site"));
    AppendConfiguration(c2, IsTrue(p.hiveGlueCatalog), HiveSiteConfiguration, "hive-site");
    var c4 := c3 + When(IsTrue(p.prestoGlueCatalog), PrestoConnectorHiveConfiguration);
    var k4 := k3 + When(IsTrue(p.prestoGlueCatalog), Some("presto-connector-hive"));
    AppendConfiguration(c3, IsTrue(p.prestoGlueCatalog), PrestoConnectorHiveConfiguration, "presto-connector-hive");
    var c5 := c4 + When(IsTrue(p.maximizeResourceAllocation), MaximizeResourceConfiguration);
    var k5 := k4 + When(IsTrue(p.maximizeResourceAllocation), Some("spark"));
    AppendConfiguration(c4, IsTrue(p.maximizeResourceAllocation), MaximizeResourceConfiguration, "spark");
    var sd := SparkDefaultsConfiguration(SparkDefaultsProperties(p.sparkJarsPath, p.sparkDefaults));
    var flag := p.sparkJarsPath.Some? || p.sparkDefaults.Some?;
    AppendConfiguration(c5, flag, sd, "spark-defaults");
    assert Configurations(p) == c5 + When(flag, sd);
    assert Classifications(Configurations(p)) == k5 + When(flag, Some("spark-defaults"));
  }

  /** The root log category is the requested level followed by the console appender. */
  lemma Log4jRootCategory(level: string)
    ensures StrMember(Log4jConfiguration(level), "Classification") == Some("spark-log4j")
    ensures var props := Member(Log4jConfiguration(level), "Properties");
      props.Some? && StrMember(props.value, "log4j.rootCategory") == Some(level + ", console")
  {
    var c := Log4jConfiguration(level);
    LookupIndex(c.fields, 0);
    LookupIndex(c.fields, 1);
  }

  /** After the `spark-defaults` loop a key holds the value `spark_defaults` gives it, which
      overrides the joined jar list; `spark.jars` otherwise holds that list; nothing else is set. */
  lemma SparkDefaultsLookup(jars: Option<seq<string>>, defaults: Option<Dict<string>>, k: string)
    ensures var given := if defaults.Some? then Lookup(defaults.value, k) else None;
      Lookup(SparkDefaultsProperties(jars, defaults), k) ==
        if given.Some? then given
        else if k == "spark.jars" && jars.Some? then Some(JoinWith(jars.value, ","))
        else None
  {
    var start := if jars.Some? then [("spark.jars", JoinWith(jars.value, ","))] else [];
    var es: Dict<string> := if defaults.Some? then defaults.value else [];
    PutAllLookup(start, es, k);
  }

  /** The properties dict: `spark.jars` first when jars are given, then the `spark_defaults`
      keys it does not already hold, in their order; no key twice. */
  lemma SparkDefaultsKeys(jars: Option<seq<string>>, defaults: Option<Dict<string>>)
    ensures var start := if jars.Some? then ["spark.jars"] else [];
      var given := if defaults.Some? then Keys(defaults.value) else [];
      Keys(SparkDefaultsProperties(jars, defaults)) == start + FreshKeys(given, start)
    ensures DistinctKeys(SparkDefaultsProperties(jars, defaults))
  {
    var start: Dict<string> := if jars.Some? then [("spark.jars", JoinWith(jars.value, ","))] else [];
    var es: Dict<string> := if defaults.Some? then defaults.value else [];
    assert Keys(start) == if jars.Some? then ["spark.jars"] else [];
    assert Keys(es) == if defaults.Some? then Keys(defaults.value) else [];
    PutAllKeys(start, es);
  }

  /** When `spark_defaults` leaves `spark.jars` alone and no jar path contains a comma, the
      jar paths can be read back from the property by splitting at the commas. */
  lemma SparkJarsRoundTrip(jars: seq<string>, defaults: Option<Dict<string>>)
    requires |jars| > 0
    requires forall j :: 0 <= j < |jars| ==> ',' !in jars[j]
    requires defaults.Some? ==> "spark.jars" !in Keys(defaults.value)
    ensures var v := Lookup(SparkDefaultsProperties(Some(jars), defaults), "spark.jars");
      v.Some? && Split(v.value, ",") == jars
  {
    SparkDefaultsLookup(Some(jars), defaults, "spark.jars");
    SplitJoinChar(jars, ',');
  }

  // ---------------------------------------------------------------------------------------
  // The request dict

  const RequiredKeys: seq<string> :=
    ["Name", "LogUri", "ReleaseLabel", "VisibleToAllUsers", "JobFlowRole", "ServiceRole",
     "Instances", "EbsRootVolumeSize", "StepConcurrencyLevel", "Configurations"]

  lemma InitialFieldKeys(p: ClusterParams, instances: Value, configurations: Value)
    ensures var d0 := InitialFields(p, instances) + [("Configurations", configurations)];
      Keys(d0) == RequiredKeys && DistinctKeys(d0)
  {
  }

  lemma InitialKeys()
    ensures "Applications" !in RequiredKeys
    ensures "BootstrapActions" !in RequiredKeys
    ensures "Steps" !in RequiredKeys
    ensures "Tags" !in RequiredKeys
  {
  }

  /** Four conditional writes of keys the dict does not hold keep it a dict and append
      their keys. */
  lemma {:induction false} OptionalKeys(d0: seq<(string, Value)>, a: bool, b: bool, s: bool, t: bool,
                                        va: Value, vb: Value, vs: Value, vt: Value)
    requires Keys(d0) == RequiredKeys && DistinctKeys(d0)
    ensures var d := d0 + When(a, ("Applications", va)) + When(b, ("BootstrapActions", vb))
                        + When(s, ("Steps", vs)) + When(t, ("Tags", vt));
      Keys(d) == RequiredKeys + When(a, "Applications") + When(b, "BootstrapActions")
                 + When(s, "Steps") + When(t, "Tags")
      && DistinctKeys(d)
  {
    InitialKeys();
    var k1 := RequiredKeys + When(a, "Applications");
    var k2 := k1 + When(b, "BootstrapActions");
    var k3 := k2 + When(s, "Steps");
    var d1 := d0 + When(a, ("Applications", va));
    var d2 := d1 + When(b, ("BootstrapActions", vb));
    var d3 := d2 + When(s, ("Steps", vs));
    AppendFreshKey(d0, RequiredKeys, a, "Applications", va);
    NotInWhen(RequiredKeys, a, "Applications", "BootstrapActions");
    AppendFreshKey(d1, k1, b, "BootstrapActions", vb);
    NotInWhen(RequiredKeys, a, "Applications", "Steps");
    NotInWhen(k1, b, "BootstrapActions", "Steps");
    AppendFreshKey(d2, k2, s, "Steps", vs);
    NotInWhen(RequiredKeys, a, "Applications", "Tags");
    NotInWhen(k1, b, "BootstrapActions", "Tags");
    NotInWhen(k2, s, "Steps", "Tags");
    AppendFreshKey(d3, k3, t, "Tags", vt);
  }

  const InstancesRequiredKeys: seq<string> :=
    ["KeepJobFlowAliveWhenNoSteps", "TerminationProtected", "Ec2SubnetId", "InstanceFleets"]

  lemma OptionalStrKeys(key: string, o: Option<string>, known: seq<string>)
    requires key !in known
    ensures Keys(OptionalStr(key, o)) == When(o.Some?, key)
    ensures |OptionalStr(key, o)| <= 1 && (|OptionalStr(key, o)| == 1 ==> OptionalStr(key, o)[0].0 !in known)
  {
  }

  lemma OptionalStrListKeys(key: string, o: Option<seq<string>>, known: seq<string>)
    requires key !in known
    ensures Keys(OptionalStrList(key, o)) == When(o.Some?, key)
    ensures |OptionalStrList(key, o)| <= 1 && (|OptionalStrList(key, o)| == 1 ==> OptionalStrList(key, o)[0].0 !in known)
  {
  }

  lemma InstancesKeyFacts(p: ClusterParams)
    ensures "Ec2KeyName" !in InstancesRequiredKeys
    ensures "EmrManagedMasterSecurityGroup" !in InstancesRequiredKeys + When(p.keyPairName.Some?, "Ec2KeyName")
    ensures "AdditionalMasterSecurityGroups" !in InstancesRequiredKeys + When(p.keyPairName.Some?, "Ec2KeyName")
      + When(p.securityGroupMaster.Some?, "EmrManagedMasterSecurityGroup")
    ensures "EmrManagedSlaveSecurityGroup" !in InstancesRequiredKeys + When(p.keyPairName.Some?, "Ec2KeyName")
      + When(p.securityGroupMaster.Some?, "EmrManagedMasterSecurityGroup")
      + When(p.securityGroupsMasterAdditional.Some?, "AdditionalMasterSecurityGroups")
    ensures "AdditionalSlaveSecurityGroups" !in InstancesRequiredKeys + When(p.keyPairName.Some?, "Ec2KeyName")
      + When(p.securityGroupMaster.Some?, "EmrManagedMasterSecurityGroup")
      + When(p.securityGroupsMasterAdditional.Some?, "AdditionalMasterSecurityGroups")
      + When(p.securityGroupSlave.Some?, "EmrManagedSlaveSecurityGroup")
    ensures "ServiceAccessSecurityGroup" !in InstancesRequiredKeys + When(p.keyPairName.Some?, "Ec2KeyName")
      + When(p.securityGroupMaster.Some?, "EmrManagedMasterSecurityGroup")
      + When(p.securityGroupsMasterAdditional.Some?, "AdditionalMasterSecurityGroups")
      + When(p.securityGroupSlave.Some?, "EmrManagedSlaveSecurityGroup")
      + When(p.securityGroupsSlaveAdditional.Some?, "AdditionalSlaveSecurityGroups")
  {
  }

  /** The instances dict has its four fixed keys, then the key pair and each security-group
      key exactly when that parameter is not `None`, in the order the builder writes them. */
  lemma {:induction false} InstancesKeys(p: ClusterParams, fleets: seq<Value>)
    ensures Keys(InstancesFields(p, fleets, InstancesOptional(p))) ==
      InstancesRequiredKeys
      + When(p.keyPairName.Some?, "Ec2KeyName")
      + When(p.securityGroupMaster.Some?, "EmrManagedMasterSecurityGroup")
      + When(p.securityGroupsMasterAdditional.Some?, "AdditionalMasterSecurityGroups")
      + When(p.securityGroupSlave.Some?, "EmrManagedSlaveSecurityGroup")
      + When(p.securityGroupsSlaveAdditional.Some?, "AdditionalSlaveSecurityGroups")
      + When(p.securityGroupServiceAccess.Some?, "ServiceAccessSecurityGroup")
    ensures DistinctKeys(InstancesFields(p, fleets, InstancesOptional(p)))
  {
    InstancesKeyFacts(p);
    var e1 := OptionalStr("Ec2KeyName", p.keyPairName);
    var e2 := OptionalStr("EmrManagedMasterSecurityGroup", p.securityGroupMaster);
    var e3 := OptionalStrList("AdditionalMasterSecurityGroups", p.securityGroupsMasterAdditional);
    var e4 := OptionalStr("EmrManagedSlaveSecurityGroup", p.securityGroupSlave);
    var e5 := OptionalStrList("AdditionalSlaveSecurityGroups", p.securityGroupsSlaveAdditional);
    var e6 := OptionalStr("ServiceAccessSecurityGroup", p.securityGroupServiceAccess);
    var d0 := InstancesFields(p, fleets, []);
    assert Keys(d0) == InstancesRequiredKeys && DistinctKeys(d0);
    OptionalStrKeys("Ec2KeyName", p.keyPairName, Keys(d0));
    AppendAtMostOne(d0, e1);
    var d1 := d0 + e1;
    OptionalStrKeys("EmrManagedMasterSecurityGroup", p.securityGroupMaster, Keys(d1));
    AppendAtMostOne(d1, e2);
    var d2 := d1 + e2;
    OptionalStrListKeys("AdditionalMasterSecurityGroups", p.securityGroupsMasterAdditional, Keys(d2));
    AppendAtMostOne(d2, e3);
    var d3 := d2 + e3;
    OptionalStrKeys("EmrManagedSlaveSecurityGroup", p.securityGroupSlave, Keys(d3));
    AppendAtMostOne(d3, e4);
    var d4 := d3 + e4;
    OptionalStrListKeys("AdditionalSlaveSecurityGroups", p.securityGroupsSlaveAdditional, Keys(d4));
    AppendAtMostOne(d4, e5);
    var d5 := d4 + e5;
    OptionalStrKeys("ServiceAccessSecurityGroup", p.securityGroupServiceAccess, Keys(d5));
    AppendAtMostOne(d5, e6);
    ConcatAssociates6(d0, e1, e2, e3, e4, e5, e6);
    assert InstancesFields(p, fleets, InstancesOptional(p)) == d0 + InstancesOptional(p);
  }

  lemma ConcatAssociates6<T>(x: seq<T>, a: seq<T>, b: seq<T>, c: seq<T>, d: seq<T>, e: seq<T>, f: seq<T>)
    ensures x + (a + b + c + d + e + f) == x + a + b + c + d + e + f
  {
  }

  /** A successful build is the request over the fleets and configurations it selects. */
  lemma ClusterArgsIsRequest(p: ClusterParams)
    requires ClusterArgs(p).Success?
    ensures InstanceFleets(p).Success?
    ensures ClusterArgs(p).value == Request(p, InstanceFleets(p).value, Configurations(p))
  {
  }

  /** The request dict as the initial fields followed by the conditional writes. */
  lemma RequestFields(p: ClusterParams, fleets: seq<Value>, configurations: seq<Value>)
    ensures Request(p, fleets, configurations).fields ==
      InitialFields(p, Obj(InstancesFields(p, fleets, InstancesOptional(p))))
      + [("Configurations", Arr(configurations))]
      + When(NonEmpty(p.applications), ("Applications", Arr(ApplicationList(OrEmpty(p.applications)))))
      + When(NonEmpty(p.bootstrapsPaths), ("BootstrapActions", Arr(BootstrapActionList(OrEmpty(p.bootstrapsPaths)))))
      + When(IsTrue(p.debugging) || p.steps.Some?, ("Steps", Arr(StepList(p))))
      + When(p.tags.Some?, ("Tags", Arr(TagList(OrEmpty(p.tags)))))
  {
    ConcatAssociates(InitialFields(p, Obj(InstancesFields(p, fleets, InstancesOptional(p)))),
      [("Configurations", Arr(configurations))],
      When(NonEmpty(p.applications), ("Applications", Arr(ApplicationList(OrEmpty(p.applications))))),
      When(NonEmpty(p.bootstrapsPaths), ("BootstrapActions", Arr(BootstrapActionList(OrEmpty(p.bootstrapsPaths))))),
      When(IsTrue(p.debugging) || p.steps.Some?, ("Steps", Arr(StepList(p)))),
      When(p.tags.Some?, ("Tags", Arr(TagList(OrEmpty(p.tags))))));
  }

  lemma ConcatAssociates<T>(x: seq<T>, a: seq<T>, b: seq<T>, c: seq<T>, d: seq<T>, e: seq<T>)
    ensures x + (a + b + c + d + e) == x + a + b + c + d + e
  {
  }

  /** The request has the nine keys it is created with, then `Configurations`, and then the
      optional ones, each exactly when its parameter calls for it, in the order the builder
      writes them. */
  lemma RequestKeys(p: ClusterParams, fleets: seq<Value>, configurations: seq<Value>)
    ensures Keys(Request(p, fleets, configurations).fields) ==
      RequiredKeys
      + When(NonEmpty(p.applications), "Applications")
      + When(NonEmpty(p.bootstrapsPaths), "BootstrapActions")
      + When(IsTrue(p.debugging) || p.steps.Some?, "Steps")
      + When(p.tags.Some?, "Tags")
    ensures DistinctKeys(Request(p, fleets, configurations).fields)
  {
    var instances := Obj(InstancesFields(p, fleets, InstancesOptional(p)));
    RequestFields(p, fleets, configurations);
    InitialFieldKeys(p, instances, Arr(configurations));
    OptionalKeys(InitialFields(p, instances) + [("Configurations", Arr(configurations))],
      NonEmpty(p.applications), NonEmpty(p.bootstrapsPaths), IsTrue(p.debugging) || p.steps.Some?, p.tags.Some?,
      Arr(ApplicationList(OrEmpty(p.applications))), Arr(BootstrapActionList(OrEmpty(p.bootstrapsPaths))),
      Arr(StepList(p)), Arr(TagList(OrEmpty(p.tags))));
  }

  /** A string setting as the value written for it, `None` when it is not given. */
  function Given(o: Option<string>): Option<Value> {
    if o.Some? then Some(Str(o.value)) else None
  }

  /** A string-list setting as the value written for it, `None` when it is not given. */
  function GivenList(o: Option<seq<string>>): Option<Value> {
    if o.Some? then Some(StrList(o.value)) else None
  }

  /** The instances dict holds the keep-alive and termination-protection flags, the subnet
      and the fleets as given, and the key pair and each security group exactly when given,
      with the value given. */
  lemma InstancesMembers(p: ClusterParams, fleets: seq<Value>)
    ensures var d := InstancesFields(p, fleets, InstancesOptional(p));
      && Lookup(d, "KeepJobFlowAliveWhenNoSteps") == Some(OptBool(p.keepClusterAliveWhenNoSteps))
      && Lookup(d, "TerminationProtected") == Some(OptBool(p.terminationProtected))
      && Lookup(d, "Ec2SubnetId") == Some(OptStr(p.subnetId))
      && Lookup(d, "InstanceFleets") == Some(Arr(fleets))
      && Lookup(d, "Ec2KeyName") == Given(p.keyPairName)
      && Lookup(d, "EmrManagedMasterSecurityGroup") == Given(p.securityGroupMaster)
      && Lookup(d, "AdditionalMasterSecurityGroups") == GivenList(p.securityGroupsMasterAdditional)
      && Lookup(d, "EmrManagedSlaveSecurityGroup") == Given(p.securityGroupSlave)
      && Lookup(d, "AdditionalSlaveSecurityGroups") == GivenList(p.securityGroupsSlaveAdditional)
      && Lookup(d, "ServiceAccessSecurityGroup") == Given(p.securityGroupServiceAccess)
  {
    InstancesFixedMembers(p, fleets);
    InstancesMasterMembers(p, fleets);
    InstancesSlaveMembers(p, fleets);
  }

  lemma InstancesFixedMembers(p: ClusterParams, fleets: seq<Value>)
    ensures var d := InstancesFields(p, fleets, InstancesOptional(p));
      && Lookup(d, "KeepJobFlowAliveWhenNoSteps") == Some(OptBool(p.keepClusterAliveWhenNoSteps))
      && Lookup(d, "TerminationProtected") == Some(OptBool(p.terminationProtected))
      && Lookup(d, "Ec2SubnetId") == Some(OptStr(p.subnetId))
      && Lookup(d, "InstanceFleets") == Some(Arr(fleets))
  {
    var d := InstancesFields(p, fleets, InstancesOptional(p));
    InstancesKeys(p, fleets);
    LookupIndex(d, 0);
    LookupIndex(d, 1);
    LookupIndex(d, 2);
    LookupIndex(d, 3);
  }

  lemma InstancesMasterMembers(p: ClusterParams, fleets: seq<Value>)
    ensures var d := InstancesFields(p, fleets, InstancesOptional(p));
      && Lookup(d, "Ec2KeyName") == Given(p.keyPairName)
      && Lookup(d, "EmrManagedMasterSecurityGroup") == Given(p.securityGroupMaster)
      && Lookup(d, "AdditionalMasterSecurityGroups") == GivenList(p.securityGroupsMasterAdditional)
  {
    var fixed := InstancesFields(p, fleets, []);
    assert InstancesFields(p, fleets, InstancesOptional(p)) == fixed + InstancesOptional(p);
    assert Keys(fixed) == InstancesRequiredKeys;
    OptionalLookups(p, fixed, "Ec2KeyName");
    OptionalLookups(p, fixed, "EmrManagedMasterSecurityGroup");
    OptionalLookups(p, fixed, "AdditionalMasterSecurityGroups");
  }

  lemma InstancesSlaveMembers(p: ClusterParams, fleets: seq<Value>)
    ensures var d := InstancesFields(p, fleets, InstancesOptional(p));
      && Lookup(d, "EmrManagedSlaveSecurityGroup") == Given(p.securityGroupSlave)
      && Lookup(d, "AdditionalSlaveSecurityGroups") == GivenList(p.securityGroupsSlaveAdditional)
      && Lookup(d, "ServiceAccessSecurityGroup") == Given(p.securityGroupServiceAccess)
  {
    var fixed := InstancesFields(p, fleets, []);
    assert InstancesFields(p, fleets, InstancesOptional(p)) == fixed + InstancesOptional(p);
    assert Keys(fixed) == InstancesRequiredKeys;
    OptionalLookups(p, fixed, "EmrManagedSlaveSecurityGroup");
    OptionalLookups(p, fixed, "AdditionalSlaveSecurityGroups");
    OptionalLookups(p, fixed, "ServiceAccessSecurityGroup");
  }

  /** A lookup of `k` in the instances dict, past the fixed keys, is the lookup in the first
      optional write that has that key. */
  lemma OptionalLookups(p: ClusterParams, fixed: seq<(string, Value)>, k: string)
    requires Lookup(fixed, k).None?
    ensures Lookup(fixed + InstancesOptional(p), k) ==
      if k == "Ec2KeyName" then Given(p.keyPairName)
      else if k == "EmrManagedMasterSecurityGroup" then Given(p.securityGroupMaster)
      else if k == "AdditionalMasterSecurityGroups" then GivenList(p.securityGroupsMasterAdditional)
      else if k == "EmrManagedSlaveSecurityGroup" then Given(p.securityGroupSlave)
      else if k == "AdditionalSlaveSecurityGroups" then GivenList(p.securityGroupsSlaveAdditional)
      else if k == "ServiceAccessSecurityGroup" then Given(p.securityGroupServiceAccess)
      else None
  {
    var e1 := OptionalStr("Ec2KeyName", p.keyPairName);
    var e2 := OptionalStr("EmrManagedMasterSecurityGroup", p.securityGroupMaster);
    var e3 := OptionalStrList("AdditionalMasterSecurityGroups", p.securityGroupsMasterAdditional);
    var e4 := OptionalStr("EmrManagedSlaveSecurityGroup", p.securityGroupSlave);
    var e5 := OptionalStrList("AdditionalSlaveSecurityGroups", p.securityGroupsSlaveAdditional);
    var e6 := OptionalStr("ServiceAccessSecurityGroup", p.securityGroupServiceAccess);
    ConcatAssociates6(fixed, e1, e2, e3, e4, e5, e6);
    LookupAppend(fixed + e1 + e2 + e3 + e4 + e5, e6, k);
    LookupAppend(fixed + e1 + e2 + e3 + e4, e5, k);
    LookupAppend(fixed + e1 + e2 + e3, e4, k);
    LookupAppend(fixed + e1 + e2, e3, k);
    LookupAppend(fixed + e1, e2, k);
    LookupAppend(fixed, e1, k);
    LookupOptionalStr("Ec2KeyName", p.keyPairName, k);
    LookupOptionalStr("EmrManagedMasterSecurityGroup", p.securityGroupMaster, k);
    LookupOptionalStrList("AdditionalMasterSecurityGroups", p.securityGroupsMasterAdditional, k);
    LookupOptionalStr("EmrManagedSlaveSecurityGroup", p.securityGroupSlave, k);
    LookupOptionalStrList("AdditionalSlaveSecurityGroups", p.securityGroupsSlaveAdditional, k);
    LookupOptionalStr("ServiceAccessSecurityGroup", p.securityGroupServiceAccess, k);
  }

  lemma LookupOptionalStr(key: string, o: Option<string>, k: string)
    ensures Lookup(OptionalStr(key, o), k) == if key == k then Given(o) else None
  {
    if o.Some? && key != k {
      assert [(key, Str(o.value))][1..] == [];
    }
  }

  lemma LookupOptionalStrList(key: string, o: Option<seq<string>>, k: string)
    ensures Lookup(OptionalStrList(key, o), k) == if key == k then GivenList(o) else None
  {
    if o.Some? && key != k {
      assert [(key, StrList(o.value))][1..] == [];
    }
  }

  /** The request carries the name, log location and release as given, the instances dict
      and the configurations. */
  lemma RequestMembers(p: ClusterParams, fleets: seq<Value>, configurations: seq<Value>)
    ensures var req := Request(p, fleets, configurations);
      Member(req, "Name") == Some(Str(p.clusterName))
      && Member(req, "LogUri") == Some(OptStr(p.loggingS3Path))
      && Member(req, "ReleaseLabel") == Some(Str(p.emrRelease))
      && Member(req, "Instances") == Some(Obj(InstancesFields(p, fleets, InstancesOptional(p))))
      && Member(req, "Configurations") == Some(Arr(configurations))
  {
    var req := Request(p, fleets, configurations);
    var instances := Obj(InstancesFields(p, fleets, InstancesOptional(p)));
    var initial := InitialFields(p, instances);
    var later := LaterFields(p, configurations);
    assert req.fields == initial + later;
    InitialOnlyKeys(p, instances);
    LookupAppend(initial, later, "Name");
    LookupIndex(initial, 0);
    LookupAppend(initial, later, "LogUri");
    LookupIndex(initial, 1);
    LookupAppend(initial, later, "ReleaseLabel");
    LookupIndex(initial, 2);
    LookupAppend(initial, later, "Instances");
    LookupIndex(initial, 6);
    LookupAppend(initial, later, "Configurations");
  }

  /** The request carries the visibility, the two roles, the root volume size and the step
      concurrency as given. */
  lemma RequestSettings(p: ClusterParams, fleets: seq<Value>, configurations: seq<Value>)
    ensures var req := Request(p, fleets, configurations);
      Member(req, "VisibleToAllUsers") == Some(OptBool(p.visibleToAllUsers))
      && Member(req, "JobFlowRole") == Some(OptStr(p.emrEc2Role))
      && Member(req, "ServiceRole") == Some(OptStr(p.emrRole))
      && Member(req, "EbsRootVolumeSize") == Some(Int(p.ebsRootVolumeSize))
      && Member(req, "StepConcurrencyLevel") == Some(Int(p.numConcurrentSteps))
  {
    var req := Request(p, fleets, configurations);
    var instances := Obj(InstancesFields(p, fleets, InstancesOptional(p)));
    var initial := InitialFields(p, instances);
    var later := LaterFields(p, configurations);
    assert req.fields == initial + later;
    InitialOnlyKeys(p, instances);
    LookupAppend(initial, later, "VisibleToAllUsers");
    LookupIndex(initial, 3);
    LookupAppend(initial, later, "JobFlowRole");
    LookupIndex(initial, 4);
    LookupAppend(initial, later, "ServiceRole");
    LookupIndex(initial, 5);
    LookupAppend(initial, later, "EbsRootVolumeSize");
    LookupIndex(initial, 7);
    LookupAppend(initial, later, "StepConcurrencyLevel");
    LookupIndex(initial, 8);
  }

  lemma InitialOnlyKeys(p: ClusterParams, instances: Value)
    ensures Keys(InitialFields(p, instances)) == RequiredKeys[..9]
    ensures DistinctKeys(InitialFields(p, instances))
    ensures "Configurations" !in RequiredKeys[..9] && "Steps" !in RequiredKeys[..9]
  {
  }

  /** The request has steps exactly when debugging is `True` or steps are given. */
  lemma RequestSteps(p: ClusterParams, fleets: seq<Value>, configurations: seq<Value>)
    ensures Member(Request(p, fleets, configurations), "Steps") ==
      if IsTrue(p.debugging) || p.steps.Some? then Some(Arr(StepList(p))) else None
  {
    var initial := InitialFields(p, Obj(InstancesFields(p, fleets, InstancesOptional(p))));
    var later := LaterFields(p, configurations);
    InitialOnlyKeys(p, Obj(InstancesFields(p, fleets, InstancesOptional(p))));
    LookupAppend(initial, later, "Steps");
    LaterFieldsSteps(p, configurations);
  }

  /** `Applications`, `BootstrapActions` and `Tags` are present exactly when their inputs
      call for them, and then hold one entry per application, path or tag, in order. */
  lemma RequestLists(p: ClusterParams, fleets: seq<Value>, configurations: seq<Value>)
    ensures var req := Request(p, fleets, configurations);
      && Member(req, "Applications") ==
           (if NonEmpty(p.applications) then Some(Arr(ApplicationList(p.applications.value))) else None)
      && Member(req, "BootstrapActions") ==
           (if NonEmpty(p.bootstrapsPaths) then Some(Arr(BootstrapActionList(p.bootstrapsPaths.value))) else None)
      && Member(req, "Tags") == (if p.tags.Some? then Some(Arr(TagList(p.tags.value))) else None)
  {
    var req := Request(p, fleets, configurations);
    var initial := InitialFields(p, Obj(InstancesFields(p, fleets, InstancesOptional(p))));
    var later := LaterFields(p, configurations);
    assert req.fields == initial + later;
    InitialOnlyKeys(p, Obj(InstancesFields(p, fleets, InstancesOptional(p))));
    LaterFieldsKeys(p, configurations);
    LaterFieldsLists(p, configurations);
    LookupAppend(initial, later, "Applications");
    LookupAppend(initial, later, "BootstrapActions");
    LookupAppend(initial, later, "Tags");
  }

  lemma LaterFieldsLists(p: ClusterParams, configurations: seq<Value>)
    ensures "Applications" !in RequiredKeys[..9] && "BootstrapActions" !in RequiredKeys[..9] && "Tags" !in RequiredKeys[..9]
    ensures var later := LaterFields(p, configurations);
      && Lookup(later, "Applications") ==
           (if NonEmpty(p.applications) then Some(Arr(ApplicationList(p.applications.value))) else None)
      && Lookup(later, "BootstrapActions") ==
           (if NonEmpty(p.bootstrapsPaths) then Some(Arr(BootstrapActionList(p.bootstrapsPaths.value))) else None)
      && Lookup(later, "Tags") == (if p.tags.Some? then Some(Arr(TagList(p.tags.value))) else None)
  {
    var c := [("Configurations", Arr(configurations))];
    var w1 := When(NonEmpty(p.applications), ("Applications", Arr(ApplicationList(OrEmpty(p.applications)))));
    var w2 := When(NonEmpty(p.bootstrapsPaths), ("BootstrapActions", Arr(BootstrapActionList(OrEmpty(p.bootstrapsPaths)))));
    var w3 := When(IsTrue(p.debugging) || p.steps.Some?, ("Steps", Arr(StepList(p))));
    var w4 := When(p.tags.Some?, ("Tags", Arr(TagList(OrEmpty(p.tags)))));
    assert LaterFields(p, configurations) == c + w1 + w2 + w3 + w4;
    LookupChain(c, w1, w2, w3, w4, "Applications");
    LookupChain(c, w1, w2, w3, w4, "BootstrapActions");
    LookupChain(c, w1, w2, w3, w4, "Tags");
    LookupWhen(true, "Configurations", Arr(configurations), "Applications");
    LookupWhen(true, "Configurations", Arr(configurations), "BootstrapActions");
    LookupWhen(true, "Configurations", Arr(configurations), "Tags");
    LookupWhen(NonEmpty(p.applications), "Applications", Arr(ApplicationList(OrEmpty(p.applications))), "Applications");
    LookupWhen(NonEmpty(p.bootstrapsPaths), "BootstrapActions", Arr(BootstrapActionList(OrEmpty(p.bootstrapsPaths))), "BootstrapActions");
    LookupWhen(NonEmpty(p.bootstrapsPaths), "BootstrapActions", Arr(BootstrapActionList(OrEmpty(p.bootstrapsPaths))), "Tags");
    LookupWhen(IsTrue(p.debugging) || p.steps.Some?, "Steps", Arr(StepList(p)), "Tags");
    LookupWhen(NonEmpty(p.applications), "Applications", Arr(ApplicationList(OrEmpty(p.applications))), "BootstrapActions");
    LookupWhen(NonEmpty(p.applications), "Applications", Arr(ApplicationList(OrEmpty(p.applications))), "Tags");
    LookupWhen(p.tags.Some?, "Tags", Arr(TagList(OrEmpty(p.tags))), "Tags");
  }

  /** A lookup in five concatenated dicts finds the first of them that holds the key. */
  lemma LookupChain<V>(c: seq<(string, V)>, w1: seq<(string, V)>, w2: seq<(string, V)>, w3: seq<(string, V)>,
                       w4: seq<(string, V)>, k: string)
    ensures Lookup(c + w1 + w2 + w3 + w4, k) ==
      if Lookup(c, k).Some? then Lookup(c, k)
      else if Lookup(w1, k).Some? then Lookup(w1, k)
      else if Lookup(w2, k).Some? then Lookup(w2, k)
      else if Lookup(w3, k).Some? then Lookup(w3, k)
      else Lookup(w4, k)
  {
    LookupAppend(c, w1, k);
    LookupAppend(c + w1, w2, k);
    LookupAppend(c + w1 + w2, w3, k);
    LookupAppend(c + w1 + w2 + w3, w4, k);
  }

  lemma LaterFieldsSteps(p: ClusterParams, configurations: seq<Value>)
    ensures Lookup(LaterFields(p, configurations), "Steps") ==
      if IsTrue(p.debugging) || p.steps.Some? then Some(Arr(StepList(p))) else None
  {
    var w1 := When(NonEmpty(p.applications), ("Applications", Arr(ApplicationList(OrEmpty(p.applications)))));
    var w2 := When(NonEmpty(p.bootstrapsPaths), ("BootstrapActions", Arr(BootstrapActionList(OrEmpty(p.bootstrapsPaths)))));
    var w3 := When(IsTrue(p.debugging) || p.steps.Some?, ("Steps", Arr(StepList(p))));
    var w4 := When(p.tags.Some?, ("Tags", Arr(TagList(OrEmpty(p.tags)))));
    var pre := [("Configurations", Arr(configurations))] + w1 + w2;
    assert LaterFields(p, configurations) == pre + w3 + w4;
    KeysAppend([("Configurations", Arr(configurations))], w1);
    KeysAppend([("Configurations", Arr(configurations))] + w1, w2);
    assert "Steps" !in Keys(pre);
    LookupAppend(pre, w3, "Steps");
    LookupAppend(pre + w3, w4, "Steps");
  }

  /** The keys written after creation are distinct, each present exactly when called for. */
  lemma LaterFieldsKeys(p: ClusterParams, configurations: seq<Value>)
    ensures Keys(LaterFields(p, configurations)) ==
      ["Configurations"]
      + When(NonEmpty(p.applications), "Applications")
      + When(NonEmpty(p.bootstrapsPaths), "BootstrapActions")
      + When(IsTrue(p.debugging) || p.steps.Some?, "Steps")
      + When(p.tags.Some?, "Tags")
    ensures DistinctKeys(LaterFields(p, configurations))
  {
    var c := [("Configurations", Arr(configurations))];
    var w1 := When(NonEmpty(p.applications), ("Applications", Arr(ApplicationList(OrEmpty(p.applications)))));
    var w2 := When(NonEmpty(p.bootstrapsPaths), ("BootstrapActions", Arr(BootstrapActionList(OrEmpty(p.bootstrapsPaths)))));
    var w3 := When(IsTrue(p.debugging) || p.steps.Some?, ("Steps", Arr(StepList(p))));
    var w4 := When(p.tags.Some?, ("Tags", Arr(TagList(OrEmpty(p.tags)))));
    assert LaterFields(p, configurations) == c + w1 + w2 + w3 + w4;
    assert Keys(c) == ["Configurations"];
    assert Keys(w1) == When(NonEmpty(p.applications), "Applications");
    assert Keys(w2) == When(NonEmpty(p.bootstrapsPaths), "BootstrapActions");
    assert Keys(w3) == When(IsTrue(p.debugging) || p.steps.Some?, "Steps");
    assert Keys(w4) == When(p.tags.Some?, "Tags");
    AppendAtMostOne(c, w1);
    AppendAtMostOne(c + w1, w2);
    AppendAtMostOne(c + w1 + w2, w3);
    AppendAtMostOne(c + w1 + w2 + w3, w4);
  }

  // ---------------------------------------------------------------------------------------
  // Lists read back

  /** Reads a list of the tree back element by element; `None` when one element does not decode. */
  function DecodeEach<T>(vs: seq<Value>, decode: Value -> Option<T>): Option<seq<T>> {
    if vs == [] then Some([])
    else
      var first := decode(vs[0]);
      var rest := DecodeEach(vs[1..], decode);
      if first.Some? && rest.Some? then Some([first.value] + rest.value) else None
  }

  lemma {:induction false} DecodeEachInverts<T>(xs: seq<T>, vs: seq<Value>, encode: T -> Value, decode: Value -> Option<T>)
    requires |vs| == |xs| && forall i :: 0 <= i < |xs| ==> vs[i] == encode(xs[i])
    requires forall x :: decode(encode(x)) == Some(x)
    ensures DecodeEach(vs, decode) == Some(xs)
  {
    if xs != [] {
      DecodeEachInverts(xs[1..], vs[1..], encode, decode);
      assert [xs[0]] + xs[1..] == xs;
    }
  }

  function ApplicationName(v: Value): Option<string> { StrMember(v, "Name") }

  /** A bootstrap action whose name and script path agree gives that path. */
  function BootstrapPath(v: Value): Option<string> {
    var name := StrMember(v, "Name");
    var script := Member(v, "ScriptBootstrapAction");
    if name.Some? && script.Some? && StrMember(script.value, "Path") == name then name else None
  }

  function TagEntry(v: Value): Option<(string, string)> {
    var k := StrMember(v, "Key");
    var x := StrMember(v, "Value");
    if k.Some? && x.Some? then Some((k.value, x.value)) else None
  }

  /** The application names can be read back from the request, in order. */
  lemma ApplicationsRoundTrip(apps: seq<string>)
    ensures DecodeEach(ApplicationList(apps), ApplicationName) == Some(apps)
  {
    forall x ensures ApplicationName(Application(x)) == Some(x) { }
    DecodeEachInverts(apps, ApplicationList(apps), Application, ApplicationName);
  }

  /** Each bootstrap action is named after its script, and the scripts can be read back in order. */
  lemma BootstrapActionsRoundTrip(paths: seq<string>)
    ensures DecodeEach(BootstrapActionList(paths), BootstrapPath) == Some(paths)
  {
    forall x ensures BootstrapPath(BootstrapAction(x)) == Some(x) {
      var v := BootstrapAction(x);
      assert DistinctKeys(v.fields);
      LookupIndex(v.fields, 1);
    }
    DecodeEachInverts(paths, BootstrapActionList(paths), BootstrapAction, BootstrapPath);
  }

  /** The tags can be read back from the request as the same key/value pairs, in order. */
  lemma TagsRoundTrip(tags: seq<(string, string)>)
    ensures DecodeEach(TagList(tags), TagEntry) == Some(tags)
  {
    var encode := (t: (string, string)) => Tag(t.0, t.1);
    forall t: (string, string) ensures TagEntry(encode(t)) == Some(t) {
      var v := Tag(t.0, t.1);
      assert DistinctKeys(v.fields);
      LookupIndex(v.fields, 1);
    }
    DecodeEachInverts(tags, TagList(tags), encode, TagEntry);
  }
}
