/** `EMRConfig`: the selection of one size profile and one parameter set from the `spec`
    section of the YAML configuration file, and the property accessors over them. The parsed
    file is an in-memory value; the two selections are the two levels of dict lookups
    `spec["clusterSize"][param set][size]` and `spec["clusterParamSet"][param set]`. */
module EmrConfig {
  import opened Python
  import opened Roles

  /** The release label every configuration reports, whatever its file says. */
  const ReleaseLabel := "emr-5.28.0"
  const AppName := "spark"
  const AppVersion := "2.4.4"

  /** What `ebs_root_volume_size` and `num_concurrent_steps` report when the parameter
      set leaves them out. */
  const DefaultEbsRootVolumeSize := 15
  const DefaultNumConcurrentSteps := 5

  /** One entry of `clusterSize.<param set>`: the sizing settings of the three roles. A key
      the file leaves out, or gives as `null`, is `None`, which is what `dict.get` returns
      for both. */
  datatype SizeProfile = SizeProfile(master: RoleSizing, core: RoleSizing, task: RoleSizing)

  /** One entry of `clusterParamSet`: the cluster-wide settings, `None` when left out. */
  datatype ParamSet = ParamSet(
    loggingS3Path: Option<string>,
    subnetId: Option<string>,
    emrEc2Role: Option<string>,
    emrRole: Option<string>,
    sparkGlueCatalog: Option<bool>,
    hiveGlueCatalog: Option<bool>,
    prestoGlueCatalog: Option<bool>,
    debugging: Option<bool>,
    applications: Option<seq<string>>,
    visibleToAllUsers: Option<bool>,
    keyPairName: Option<string>,
    securityGroupMaster: Option<string>,
    securityGroupsMasterAdditional: Option<seq<string>>,
    securityGroupSlave: Option<string>,
    securityGroupsSlaveAdditional: Option<seq<string>>,
    securityGroupServiceAccess: Option<string>,
    sparkLogLevel: Option<string>,
    sparkJarsPath: Option<seq<string>>,
    sparkDefaults: Option<Dict<string>>,
    maximizeResourceAllocation: Option<bool>,
    keepClusterAliveWhenNoSteps: Option<bool>,
    terminationProtected: Option<bool>,
    tags: Option<Dict<string>>,
    python3: Option<bool>,
    bootstrapsPaths: Option<seq<string>>,
    ebsRootVolumeSize: Option<int>,
    numConcurrentSteps: Option<int>)

  /** The `spec` section. `None` for a top-level key means the key is missing, so indexing
      it with `[...]` raises `KeyError`; a param set or size missing from its map is what
      `.get` answers with `None`. */
  datatype Spec = Spec(
    clusterSize: Option<map<string, map<string, SizeProfile>>>,
    clusterParamSet: Option<map<string, ParamSet>>)

  /** The exceptions construction and the accessors raise. */
  datatype ConfigError =
    | NoSpec                      // the file has no `spec`: `None["clusterSize"]`
    | MissingKey(key: string)     // `KeyError` on `"clusterSize"` or `"clusterParamSet"`
    | UnknownParamSet(name: string) // `None.get(size)`: the param set has no sizes
    | NoSizeProfile               // a sizing accessor on a size the param set lacks
    | NoParamSet                  // a cluster-wide accessor on a param set that is missing

  /** The state `__init__` assigns; nothing assigns it afterwards. */
  datatype EMRConfig = EMRConfig(
    clusterSize: string,
    paramSetName: string,
    appName: string,
    appVersion: string,
    sizeConfig: Option<SizeProfile>,
    releaseLabel: string,
    parameters: Option<ParamSet>)

  /** The `.get(key)` of a map as an `Option`. */
  function Get<V>(m: map<string, V>, key: string): Option<V> {
    if key in m then Some(m[key]) else None
  }

  /** `EMRConfig(cluster_size, param_set_name)` over the `spec` of the loaded file. The
      size lookup comes first and fails at once when the param set has no sizes; a missing
      size, or a missing param set under `clusterParamSet`, is only recorded as `None`. */
  function NewEmrConfig(spec: Option<Spec>, clusterSize: string, paramSetName: string)
    : Result<EMRConfig, ConfigError>
  {
    if spec.None? then Failure(NoSpec)
    else if spec.value.clusterSize.None? then Failure(MissingKey("clusterSize"))
    else if paramSetName !in spec.value.clusterSize.value then Failure(UnknownParamSet(paramSetName))
    else
      var sizeConfig := Get(spec.value.clusterSize.value[paramSetName], clusterSize);
      if spec.value.clusterParamSet.None? then Failure(MissingKey("clusterParamSet"))
      else
        Success(EMRConfig(clusterSize, paramSetName, AppName, AppVersion, sizeConfig,
                          ReleaseLabel, Get(spec.value.clusterParamSet.value, paramSetName)))
  }

  /** The seven sizing accessors of one role (`instance_type_<role>`, ...,
      `spot_timeout_to_on_demand_<role>`); each raises when no size profile was found. */
  function Sizing(c: EMRConfig, role: Role): Result<RoleSizing, ConfigError> {
    if c.sizeConfig.None? then Failure(NoSizeProfile)
    else
      match role
      case Master => Success(c.sizeConfig.value.master)
      case Core => Success(c.sizeConfig.value.core)
      case Task => Success(c.sizeConfig.value.task)
  }

  /** The cluster-wide accessors, each a `.get` on the selected param set, which raises
      when there is none. */
  function Parameters(c: EMRConfig): Result<ParamSet, ConfigError> {
    if c.parameters.None? then Failure(NoParamSet) else Success(c.parameters.value)
  }

  /** `emr_release_label`. */
  function EmrReleaseLabel(c: EMRConfig): string { c.releaseLabel }

  /** `ebs_root_volume_size`: the stored value, or the default when it is `None`. */
  function EbsRootVolumeSize(c: EMRConfig): Result<int, ConfigError> {
    var ps :- Parameters(c);
    Success(if ps.ebsRootVolumeSize.None? then DefaultEbsRootVolumeSize else ps.ebsRootVolumeSize.value)
  }

  /** `num_concurrent_steps`: the stored value, or the default when it is `None`. */
  function NumConcurrentSteps(c: EMRConfig): Result<int, ConfigError> {
    var ps :- Parameters(c);
    Success(if ps.numConcurrentSteps.None? then DefaultNumConcurrentSteps else ps.numConcurrentSteps.value)
  }

  // ---------------------------------------------------------------------------------------
  // Properties, stated over the loaded file

  /** The param set `name` of the file, when there is one. */
  function ParamSetOf(spec: Spec, name: string): Option<ParamSet> {
    if spec.clusterParamSet.Some? then Get(spec.clusterParamSet.value, name) else None
  }

  /** The size profile `size` of param set `name`, when there is one. */
  function SizeProfileOf(spec: Spec, name: string, size: string): Option<SizeProfile> {
    if spec.clusterSize.Some? && name in spec.clusterSize.value
    then Get(spec.clusterSize.value[name], size) else None
  }

  /** Construction fails exactly when there is no `spec`, when either top-level key is
      missing, or when the param set has no entry under `clusterSize`; in that order. A
      missing size or a missing parameter set does not make it fail. */
  lemma ConstructionFails(spec: Option<Spec>, size: string, name: string)
    ensures var c := NewEmrConfig(spec, size, name);
      && (c.Failure? <==>
           spec.None? || spec.value.clusterSize.None? || spec.value.clusterParamSet.None?
           || name !in spec.value.clusterSize.value)
      && (spec.None? ==> c == Failure(NoSpec))
      && (spec.Some? && spec.value.clusterSize.None? ==> c == Failure(MissingKey("clusterSize")))
      && (spec.Some? && spec.value.clusterSize.Some? && name !in spec.value.clusterSize.value
          ==> c == Failure(UnknownParamSet(name)))
      && ((spec.Some? && spec.value.clusterSize.Some? && name in spec.value.clusterSize.value
           && spec.value.clusterParamSet.None?) ==> c == Failure(MissingKey("clusterParamSet")))
  {
  }

  /** The sizing accessors read `clusterSize[name][size]`, and every one of them raises when
      that size is missing; the param set itself still reads fine. */
  lemma SizingReadsSelectedProfile(spec: Spec, size: string, name: string, role: Role)
    requires NewEmrConfig(Some(spec), size, name).Success?
    ensures var c := NewEmrConfig(Some(spec), size, name).value;
      var profile := SizeProfileOf(spec, name, size);
      && (profile.None? <==> Sizing(c, role) == Failure(NoSizeProfile))
      && (profile.Some? ==> Sizing(c, role) == Success(
            match role
            case Master => profile.value.master
            case Core => profile.value.core
            case Task => profile.value.task))
  {
  }

  /** The cluster-wide accessors read `clusterParamSet[name]`, independently of the size;
      they raise exactly when that param set is missing. */
  lemma ParametersReadSelectedSet(spec: Spec, size: string, name: string)
    requires NewEmrConfig(Some(spec), size, name).Success?
    ensures var c := NewEmrConfig(Some(spec), size, name).value;
      && (Parameters(c).Success? <==> ParamSetOf(spec, name).Some?)
      && (Parameters(c).Success? ==> Parameters(c).value == ParamSetOf(spec, name).value)
  {
  }

  /** `ebs_root_volume_size` is 15 when the param set leaves it out, and the stored value
      otherwise. */
  lemma EbsRootVolumeSizeDefault(spec: Spec, size: string, name: string)
    requires NewEmrConfig(Some(spec), size, name).Success?
    requires ParamSetOf(spec, name).Some?
    ensures var stored := ParamSetOf(spec, name).value.ebsRootVolumeSize;
      EbsRootVolumeSize(NewEmrConfig(Some(spec), size, name).value)
        == Success(if stored.Some? then stored.value else 15)
  {
  }

  /** `num_concurrent_steps` is 5 when the param set leaves it out, and the stored value
      otherwise. */
  lemma NumConcurrentStepsDefault(spec: Spec, size: string, name: string)
    requires NewEmrConfig(Some(spec), size, name).Success?
    requires ParamSetOf(spec, name).Some?
    ensures var stored := ParamSetOf(spec, name).value.numConcurrentSteps;
      NumConcurrentSteps(NewEmrConfig(Some(spec), size, name).value)
        == Success(if stored.Some? then stored.value else 5)
  {
  }

  /** The release label does not depend on the file, the size or the param set. */
  lemma ReleaseLabelIsFixed(spec: Spec, size: string, name: string)
    requires NewEmrConfig(Some(spec), size, name).Success?
    ensures EmrReleaseLabel(NewEmrConfig(Some(spec), size, name).value) == "emr-5.28.0"
  {
  }
}
