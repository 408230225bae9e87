# aws-beamline-devtools, modelled in Dafny

The tool connects a SageMaker notebook to an Amazon EMR cluster. It works in three steps:

- It reads a YAML configuration and selects a size profile and a parameter set (`EMRConfig`).
- It assembles the arguments of a cluster request (`ComputeManager.start_compute`).
- It translates those flat arguments into the nested body of the EMR `RunJobFlow` call (`EMR._build_cluster_args`).

The `attach_emr` command line either attaches to a running cluster, or creates one and polls its state until it is `WAITING`. Either way, it then writes a sparkmagic configuration. That file is a downloaded template with every `localhost` replaced by the master node's private IP (`CreateSparkMagicConfig.generate_config`).

The model has one module per file:

| file | module | models |
|---|---|---|
| `python.dfy` | `Python` | `None`, exceptions as `Result`, the insertion-ordered `dict` as an association list, and the JSON-like request tree |
| `text.dfy` | `Text` | `str.join`, and `re.sub` with a literal pattern as a left-to-right replace-all, characterised by a split into pieces |
| `roles.dfy` | `Roles` | the MASTER/CORE/TASK roles, and the seven sizing settings of each |
| `emr_client.dfy` | `EmrClient` | the request builder, in two forms: `ClusterArgs` is the specification as a function of the parameters, and `BuildClusterArgs` builds the request by successive dict writes and is proved equal to it |
| `emr_client_properties.dfy` | `EmrClientProperties` | what the built request contains |
| `emr_config.dfy` | `EmrConfig` | the two-level selection in the configuration file, the accessors, and their defaults |
| `compute_manager.dfy` | `ComputeManager` | argument assembly, composed with the builder into properties of the request the tool sends |
| `create_sparkmagic_config.dfy` | `SparkMagicConfig` | the substitution, and a class holding the fetched template |
| `attach_emr.dfy` | `AttachEmr` | option defaults, the three-way dispatch, the poll loop (a `while` loop), master-IP extraction, and the whole `main` (`Attach` as a function, `Run` as a method) |

Some Python behaviours are modelled as follows:

- **Exceptions** become `Failure` values:
  - `TypeError` from `None > 0`;
  - `KeyError`, `AttributeError` or `TypeError` on a missing configuration section (a file without `spec` indexes `None`, which raises `TypeError`);
  - `IndexError` on an empty instance list;
  - `TypeError` from `re.sub` with a `None` replacement.
- **Dicts** keep insertion order. A write to a new key appends it, and a write to an existing key replaces its value in place.
- **Truthiness** of an optional flag and `flag is True` are the same test: only `True` passes.
- **The world outside the program** is passed in as values:
  - the parsed YAML files;
  - the template text;
  - the cluster API's answer to a request;
  - the successive cluster states;
  - the instance listing.

`EMRConfig` and `ComputeManager` are assigned once in `__init__` and never changed afterwards, so they are modelled as datatype values, and their accessors are functions that cannot change them.

## Model

| member | source | states |
|---|---|---|
| EmrClient.BuildClusterArgs | aws_beamline_devtools/emr_client.py:20-275 | Builds the request by writing keys into dicts, in the order of the source, and raises exactly where the specification `ClusterArgs` raises. Otherwise the result equals `ClusterArgs`. |
| EmrClient.AddSecurityGroups | aws_beamline_devtools/emr_client.py:39-53 | Writes the EC2 key pair and the five security-group keys in that order. Each key is written only when its parameter is not `None`, and carries the value unchanged. |
| EmrClient.BuildSparkDefaults | aws_beamline_devtools/emr_client.py:108-118 | The `spark-defaults` properties are `spark.jars` (if given) followed by the loop over `spark_defaults`. The result equals a left fold of dict writes. |
| EmrClient.BuildConfigurations | aws_beamline_devtools/emr_client.py:55-118 | The configuration list starts with log4j, then appends each optional block under its flag, in source order. |
| EmrClient.BuildFleet | aws_beamline_devtools/emr_client.py:151-185 | A fleet dict gets `LaunchSpecifications` exactly when the spot count is positive. |
| EmrClient.AddOptionalFleet | aws_beamline_devtools/emr_client.py:188-227 | Appends a CORE or TASK fleet exactly when `spot > 0 or on_demand > 0`. When a compared count is `None`, it yields the comparison's `TypeError`. |
| EmrClient.BuildInstanceFleets | aws_beamline_devtools/emr_client.py:148-268 | The fleet list is MASTER, then CORE and TASK when wanted. It fails first on the master spot count. |
| EmrClient.BuildSteps | aws_beamline_devtools/emr_client.py:133-146 | The step list is the debugging step (only when `debugging is True`), followed by the given steps in order. |
| EmrClientProperties.BuildFailsOnlyOnNoneCount | aws_beamline_devtools/emr_client.py:179-230 | The request is built if and only if the master spot count is present and the CORE and TASK comparisons never meet `None`. A failure names a count that is `None`, and never the master on-demand count. |
| EmrClientProperties.FleetsFailOnlyOnNoneCount | aws_beamline_devtools/emr_client.py:179-230 | Selecting the fleets succeeds if and only if the master spot count is present and the CORE and TASK comparisons can be evaluated. Otherwise the `TypeError` names a `None` count, and never the master on-demand count. |
| EmrClientProperties.FleetsFollowRoles | aws_beamline_devtools/emr_client.py:149-268 | Fleet i is built from role i's own settings, with a spot part exactly when that role's spot count is positive. The roles are MASTER, then CORE and TASK if wanted. |
| EmrClientProperties.FleetTypeOrder | aws_beamline_devtools/emr_client.py:149-268 | The fleet types are, in order, `MASTER`, then `CORE` if and only if `spot > 0 or on_demand > 0` for core, then `TASK` under the same rule. |
| EmrClientProperties.FleetKeys | aws_beamline_devtools/emr_client.py:151-185 | A fleet has exactly its five fixed keys, plus `LaunchSpecifications` exactly for spot, and no key twice. |
| EmrClientProperties.FleetContents | aws_beamline_devtools/emr_client.py:151-159 | Name and type are the role's name, and the target capacities are the role's on-demand and spot counts. |
| EmrClientProperties.FleetInstanceTypeConfigs | aws_beamline_devtools/emr_client.py:160-177 | Every fleet has exactly one instance type configuration, built from its role's settings. |
| EmrClientProperties.InstanceTypeConfigContents | aws_beamline_devtools/emr_client.py:161-165 | The configuration holds the role's instance type and bid percentage, weighted capacity 1, and the role's EBS configuration. |
| EmrClientProperties.EbsConfigurationContents | aws_beamline_devtools/emr_client.py:165-175 | The configuration is EBS-optimised, with one device of one `gp2` volume per instance, sized as the role says. |
| EmrClientProperties.FleetLaunchSpecifications | aws_beamline_devtools/emr_client.py:179-185 | `LaunchSpecifications` is present if and only if the spot condition holds. |
| EmrClientProperties.SpotTimeoutAction | aws_beamline_devtools/emr_client.py:149-185 | The timeout action is `SWITCH_TO_ON_DEMAND` if and only if the fallback flag is `True`, and `TERMINATE_CLUSTER` otherwise. The timeout is the role's provisioning timeout. |
| EmrClientProperties.ConfigurationOrder | aws_beamline_devtools/emr_client.py:56-118 | The classifications are `spark-log4j`, then `spark-env`, `spark-hive-site`, `hive-site`, `presto-connector-hive`, `spark` and `spark-defaults`, each present if and only if its trigger holds, in this order. |
| EmrClientProperties.Log4jRootCategory | aws_beamline_devtools/emr_client.py:56-61 | `log4j.rootCategory` is the level followed by `", console"`. |
| EmrClientProperties.SparkDefaultsLookup | aws_beamline_devtools/emr_client.py:108-118 | A key given in `spark_defaults` has its given value, which overrides the joined jar list. Otherwise `spark.jars` is the comma-join of the jars. No other key is set. |
| EmrClientProperties.SparkDefaultsKeys | aws_beamline_devtools/emr_client.py:108-118 | The keys are `spark.jars` first, then the new keys of `spark_defaults` in their order, with no key twice. |
| EmrClientProperties.SparkJarsRoundTrip | aws_beamline_devtools/emr_client.py:113-114 | When no path contains a comma and `spark.jars` is not overridden, splitting `spark.jars` at the commas gives the jar paths back. |
| EmrClientProperties.InstancesKeys | aws_beamline_devtools/emr_client.py:29-53 | `Instances` has its four fixed keys, then each of `Ec2KeyName` and the five security-group keys if and only if its parameter is not `None`. There are no other keys and no duplicates. |
| EmrClientProperties.InstancesMembers | aws_beamline_devtools/emr_client.py:29-53 | `Instances` holds the keep-alive and termination-protection flags, the subnet and the fleets as given. It holds the key pair and each security group exactly when that parameter is not `None`, with the given value, and otherwise has no such key. |
| EmrClientProperties.RequestKeys | aws_beamline_devtools/emr_client.py:22-272 | The request has the nine keys it is created with, then `Configurations`. `Applications` and `BootstrapActions` follow if and only if their lists are non-empty, `Steps` if and only if `debugging is True` or steps are given, and `Tags` if and only if tags are given. No key appears twice. |
| EmrClientProperties.RequestMembers | aws_beamline_devtools/emr_client.py:22-37 | Name, log URI, release, `Instances` and `Configurations` hold the parameters' values. |
| EmrClientProperties.RequestSettings | aws_beamline_devtools/emr_client.py:22-37 | Visibility, the EC2 and service roles, the root volume size and the step concurrency hold the parameters' values. |
| EmrClientProperties.RequestSteps | aws_beamline_devtools/emr_client.py:134-146 | `Steps` is present if and only if `debugging is True` or steps are given. It holds the debugging step first, then the given steps, so `steps=[]` yields `[]`. |
| EmrClientProperties.RequestLists | aws_beamline_devtools/emr_client.py:121-272 | Applications, bootstrap actions and tags are present exactly when called for, with one entry per element, in order. |
| EmrClientProperties.ApplicationsRoundTrip | aws_beamline_devtools/emr_client.py:121-122 | The application names are read back from the entries, in order. |
| EmrClientProperties.BootstrapActionsRoundTrip | aws_beamline_devtools/emr_client.py:125-131 | Every bootstrap entry's `Name` equals its `Path`, and the paths are read back in order. |
| EmrClientProperties.TagsRoundTrip | aws_beamline_devtools/emr_client.py:271-272 | The key/value pairs are read back from the tag entries, in mapping order. |
| Python.PutAllLookup | aws_beamline_devtools/emr_client.py:116-117 | After writing entries into a dict one by one, a written key holds its written value. Any other key keeps its earlier value. |
| Text.SplitJoinChar | aws_beamline_devtools/emr_client.py:114 | Splitting a comma-join of comma-free parts gives the parts back. |
| EmrConfig.ConstructionFails | aws_beamline_devtools/emr_config.py:20-28 | Construction fails if and only if `spec` is missing, a top-level key is missing, or the param set has no sizes, with that error. A missing size or parameter set does not make it fail. |
| EmrConfig.SizingReadsSelectedProfile | aws_beamline_devtools/emr_config.py:26-112 | The sizing accessors return `clusterSize[param set][size]`, and they raise exactly when that size is missing. |
| EmrConfig.ParametersReadSelectedSet | aws_beamline_devtools/emr_config.py:118-216 | The cluster-wide accessors return `clusterParamSet[param set]` whatever the size, and they raise exactly when that set is missing. |
| EmrConfig.EbsRootVolumeSizeDefault | aws_beamline_devtools/emr_config.py:218-223 | The result is 15 when the setting is absent, and the stored value otherwise. |
| EmrConfig.NumConcurrentStepsDefault | aws_beamline_devtools/emr_config.py:225-230 | The result is 5 when the setting is absent, and the stored value otherwise. |
| EmrConfig.ReleaseLabelIsFixed | aws_beamline_devtools/emr_config.py:114-116 | The release label is `emr-5.28.0` whatever the file, size or param set. |
| ComputeManager.StartCompute | aws_beamline_devtools/compute_manager.py:43-99 | Succeeds exactly when the request can be built, and then returns the cluster API's answer to that request unchanged. |
| ComputeManager.ClusterNameParts | aws_beamline_devtools/compute_manager.py:46 | The cluster name is `Spark-`, the param set, `-Size-`, then the size. Both parts can be read back from the name. |
| ComputeManager.StartComputeArgsFails | aws_beamline_devtools/compute_manager.py:47-54 | The arguments assemble if and only if there are both a param set and a size profile. A missing param set is reported first. |
| ComputeManager.StartComputeArgsForward | aws_beamline_devtools/compute_manager.py:45-97 | The name, release, log level `INFO` and `steps=None` are fixed. The two counts take their defaults. Each role's sizing comes from the profile, and every other setting is forwarded unchanged. |
| ComputeManager.StartComputeRelease | aws_beamline_devtools/compute_manager.py:48 | The builder receives release `emr-5.28.0`. |
| ComputeManager.SentRequestFails | aws_beamline_devtools/compute_manager.py:45-97 | A request is sent if and only if the profile's counts can be compared. A build error names a missing count. |
| ComputeManager.RequestNameAndLog4j | aws_beamline_devtools/emr_client.py:22-61 | A built request is named `cluster_name`, and its first configuration is `spark-log4j` with root category `spark_log_level` followed by `", console"`. |
| ComputeManager.SentRequestNameAndLogLevel | aws_beamline_devtools/compute_manager.py:89 | The sent request is named after the param set and size, and its log4j root category is `INFO, console`. |
| ComputeManager.SentRequestSteps | aws_beamline_devtools/compute_manager.py:93 | The sent request has `Steps` if and only if the configuration's `debugging` is `True`, and then holds only the debugging step. |
| ComputeManager.RequestStepsWithoutSteps | aws_beamline_devtools/emr_client.py:134-146 | With `steps=None`, `Steps` is present if and only if `debugging is True`. |
| SparkMagicConfig.Substitute | aws_beamline_devtools/create_sparkmagic_config.py:26 | The result is the pieces of the template between `localhost` matches, joined with the IP. |
| SparkMagicConfig.CreateSparkMagicConfig.constructor | aws_beamline_devtools/create_sparkmagic_config.py:20-21 | The template is the fetched text. |
| SparkMagicConfig.CreateSparkMagicConfig.GenerateConfig | aws_beamline_devtools/create_sparkmagic_config.py:23-28 | With an IP, it writes the substituted template and returns `True`. With `None`, the file is left empty and a `TypeError` is raised. The object is not changed. |
| SparkMagicConfig.SubstitutionPieces | aws_beamline_devtools/create_sparkmagic_config.py:26 | Every occurrence is replaced: no piece contains `localhost`, and joining the pieces with `localhost` gives the template back. |
| SparkMagicConfig.SubstituteWithoutPlaceholder | aws_beamline_devtools/create_sparkmagic_config.py:26 | A template without `localhost` is written unchanged. |
| SparkMagicConfig.SubstituteIdentity | aws_beamline_devtools/create_sparkmagic_config.py:26 | Replacing `localhost` with itself changes nothing. |
| Text.ReplaceAllIsJoin | aws_beamline_devtools/create_sparkmagic_config.py:26 | A literal replace-all equals joining the split pieces with the replacement. |
| Text.SplitPiecesAreClean | aws_beamline_devtools/create_sparkmagic_config.py:26 | No piece contains the pattern, so no occurrence is left unreplaced. |
| Text.SplitIsLeftmost | aws_beamline_devtools/create_sparkmagic_config.py:26 | The first piece ends at the leftmost occurrence of the pattern. The remaining pieces are the split of the text after that occurrence, and a single piece means the pattern does not occur. So matches are leftmost and non-overlapping, even for a pattern that overlaps itself. |
| Text.JoinSplit | aws_beamline_devtools/create_sparkmagic_config.py:26 | Joining the pieces with the pattern gives the text back, so the text between matches is kept in order. |
| Text.ReplaceAllNoMatch | aws_beamline_devtools/create_sparkmagic_config.py:26 | Text without the pattern is unchanged. |
| AttachEmr.ParseOptionsDefaults | attach_emr.py:26-45 | The defaults are `UNKNOWN`, `UNKNOWN`, `emr.yaml` and `default`. Given options are kept. |
| AttachEmr.DispatchCases | attach_emr.py:51-79 | Attach if and only if the id is known; create if and only if the id is unknown and the size known; usage error if and only if both are unknown. |
| AttachEmr.AttachIgnoresCreateOptions | attach_emr.py:51-60 | The attach path ignores size, config file and param set, and reads no state. |
| AttachEmr.UsageErrorTouchesNothing | attach_emr.py:78-79 | The usage error does not depend on the world and writes nothing. |
| AttachEmr.WaitUntilReady | attach_emr.py:69-73 | Reads are the position of the first `WAITING` plus one, with one sleep per further read. With no `WAITING`, every observed state is read and the tool keeps polling. |
| AttachEmr.PollReadsUntilFirstReady | attach_emr.py:69-73 | The poll reaches `WAITING` if and only if it is among the observed states, after exactly first-position-plus-one reads. |
| AttachEmr.PollIgnoresLaterStates | attach_emr.py:70-73 | After `WAITING`, later answers do not matter. Before it, polling goes on into the later answers. |
| AttachEmr.PollStartingCluster | attach_emr.py:70 | STARTING, BOOTSTRAPPING, WAITING takes three reads. TERMINATED does not end the loop. |
| AttachEmr.MasterPrivateIpOfFirstInstance | attach_emr.py:56 | For any listing, the address is the first instance's `PrivateIpAddress`, wherever that key sits in the instance. Later instances are not looked at. |
| AttachEmr.MasterPrivateIpErrors | attach_emr.py:56 | For any listing, a missing or empty `Instances` list raises, and so does a first instance that is not a dict. A first instance without `PrivateIpAddress` gives `None`. |
| AttachEmr.ConfigureWritesSubstitution | attach_emr.py:74-75 | Sparkmagic is configured if and only if the first instance has an address, and the file then holds the substituted template. Without an address the file is left empty. |
| AttachEmr.AwaitClusterPolls | attach_emr.py:67-75 | The create path reads up to the first `WAITING`, then configures the new cluster. Without `WAITING` it is still polling and has written nothing. |
| AttachEmr.CreatePathAwaitsCluster | attach_emr.py:61-75 | After the cluster API answers, the create path continues with that cluster's id. |
| AttachEmr.Run | attach_emr.py:16-79 | `main`, with the sparkmagic object and the poll loop, ends exactly as the specification `Attach` says. |

## Left out

- The boto3 calls are replaced by parameters of the model:
  - `EMR.__init__`, `run_job_flow`, `get_cluster_state`, `get_cluster_instances`, `get_cluster_description` and `terminate_cluster` are foreign network calls.
  - The cluster API's answer is the `runJobFlow` function.
  - Cluster states are a given sequence per cluster, and the instance listing is a given value.
  - Errors raised inside these calls are not modelled, apart from a response without a cluster id.
- `EMR.create_cluster`'s keyword defaults are not modelled. Its only caller passes every argument. `ClusterParams` therefore has no defaults, and the name, release and log level are plain strings.
- `logging` and `json.dumps` output is left out; it is a side effect only.
- YAML loading and `open` of the configuration file are left out. The `spec` section of each existing file is given as a value.
  - Settings are assumed to be either absent or null, or of the type the builder uses. A setting of another type (for example a string where a count is expected) is not modelled.
  - An absent key and a key given as `null` are the same `None`, as `dict.get` makes them.
- The template download (`requests.get`) is given as text. A failed download is not modelled.
- The write of the sparkmagic configuration file is modelled by its resulting content. Failures to open the file are not modelled.
- `time.sleep(15)` is modelled only as a count of sleeps.
- `OptionParser` parsing is left out; the given flags are taken as they are. Parse errors, `--help`, `--version` and positional arguments are not modelled.
- Escape processing of the `re.sub` replacement string is left out. The IP is taken as literal text, assuming it contains no backslash.
- Polling never ends in the source when no `WAITING` arrives. The model observes a finite sequence of states. When that sequence runs out, the outcome is `StillPolling`, meaning the loop has not ended.
- `setup.py` is packaging only.
