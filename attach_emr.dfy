/** `attach_emr.main`: the command-line tool that connects a notebook to a cluster. With a
    cluster id it configures sparkmagic for that cluster; otherwise, with a cluster size, it
    creates a cluster, polls its state until it is `WAITING` and then configures sparkmagic
    for it; with neither it reports a usage error. The cluster API, the files and the
    template download are given as a `World`. */
module AttachEmr {
  import opened Python
  import opened EmrConfig
  import opened ComputeManager
  import opened SparkMagicConfig

  /** The default of both `--emrClusterId` and `--clusterSize`: the option was not given. */
  const Unknown := "UNKNOWN"
  const DefaultConfigFile := "emr.yaml"
  const DefaultParamSetName := "default"

  /** The only cluster state that ends the polling. */
  const Ready := "WAITING"

  datatype Options = Options(clusterId: string, clusterSize: string, configFile: string, paramSetName: string)

  /** The parsed options: each one given on the command line, or its default. */
  function ParseOptions(clusterId: Option<string>, clusterSize: Option<string>,
                        configFile: Option<string>, paramSetName: Option<string>): Options
  {
    Options(if clusterId.Some? then clusterId.value else Unknown,
            if clusterSize.Some? then clusterSize.value else Unknown,
            if configFile.Some? then configFile.value else DefaultConfigFile,
            if paramSetName.Some? then paramSetName.value else DefaultParamSetName)
  }

  /** The three branches of `main`. */
  datatype Branch =
    | AttachExisting(clusterId: string)
    | CreateNew(clusterSize: string, configFile: string, paramSetName: string)
    | UsageError

  function Dispatch(o: Options): Branch {
    if o.clusterId != Unknown then AttachExisting(o.clusterId)
    else if o.clusterSize != Unknown then CreateNew(o.clusterSize, o.configFile, o.paramSetName)
    else UsageError
  }

  /** Everything outside the program that `main` talks to. */
  datatype World = World(
    configFiles: map<string, Option<Spec>>,   // the `spec` section of each YAML file that exists
    template: string,                          // the text served at the template URL
    runJobFlow: Value -> Value,                // the cluster API's answer to a request
    clusterStates: string -> seq<string>,      // successive answers of `get_cluster_state`
    clusterInstances: string -> Value)         // the answer of `get_cluster_instances`

  /** What makes `main` stop with an exception. */
  datatype AttachError =
    | Usage                                  // `parser.error`
    | MissingConfigFile(path: string)        // `open` of a file that does not exist
    | ConfigRejected(configError: ConfigError) // `EMRConfig(...)` raised
    | StartRejected(startError: StartError)    // `start_compute()` raised
    | NoJobFlowId                            // the response carries no cluster id
    | NoInstances                            // `.get("Instances")` is not a list
    | EmptyInstances                         // `[0]` of an empty list
    | MalformedInstance                      // the first instance is not a dict
    | NoPrivateIp                            // `re.sub` with a `None` replacement

  datatype Status = Configured(masterIp: string) | StillPolling | Failed(error: AttachError)

  /** How a run ends: its status, the content of the sparkmagic configuration file if the
      run opened it, and how many times it asked for the cluster's state. */
  datatype Outcome = Outcome(status: Status, written: Option<string>, stateReads: nat)

  /** `get_cluster_instances(id).get("Instances")[0].get("PrivateIpAddress")`; the IP is
      `None` when the first instance has none. */
  function MasterPrivateIp(instances: Value): Result<Option<string>, AttachError> {
    var list := Member(instances, "Instances");
    if list.None? || !list.value.Arr? then Failure(NoInstances)
    else if |list.value.items| == 0 then Failure(EmptyInstances)
    else if !list.value.items[0].Obj? then Failure(MalformedInstance)
    else
      var ip := Member(list.value.items[0], "PrivateIpAddress");
      Success(if ip.Some? && ip.value.Str? then Some(ip.value.s) else None)
  }

  /** Finding the master's address and writing the sparkmagic configuration for it, after
      `stateReads` state reads. */
  function Configure(template: string, instances: Value, stateReads: nat): Outcome {
    var ip := MasterPrivateIp(instances);
    if ip.Failure? then Outcome(Failed(ip.error), None, stateReads)
    else if ip.value.None? then Outcome(Failed(NoPrivateIp), Some([]), stateReads)
    else Outcome(Configured(ip.value.value), Some(Substitute(template, ip.value.value)), stateReads)
  }

  /** The polling over the states the cluster reports: `Reached(n)` when the `n`-th read is
      the first `WAITING`, `Exhausted(n)` when none of the `n` observed states is. */
  datatype Poll = Reached(stateReads: nat) | Exhausted(stateReads: nat)

  function PollStates(states: seq<string>): Poll
  {
    if |states| == 0 then Exhausted(0)
    else if states[0] == Ready then Reached(1)
    else
      match PollStates(states[1..])
      case Reached(n) => Reached(n + 1)
      case Exhausted(n) => Exhausted(n + 1)
  }

  /** `main()` with the parsed options `o`. */
  function Attach(o: Options, w: World): Outcome {
    match Dispatch(o)
    case UsageError => Outcome(Failed(Usage), None, 0)
    case AttachExisting(id) => Configure(w.template, w.clusterInstances(id), 0)
    case CreateNew(size, file, name) =>
      if file !in w.configFiles then Outcome(Failed(MissingConfigFile(file)), None, 0)
      else
        var cm := NewComputeManager(w.configFiles[file], size, name, file);
        if cm.Failure? then Outcome(Failed(ConfigRejected(cm.error)), None, 0)
        else
          var response := StartCompute(cm.value, w.runJobFlow);
          if response.Failure? then Outcome(Failed(StartRejected(response.error)), None, 0)
          else AwaitCluster(w, response.value)
  }

  /** The create path once the cluster API has answered: the cluster id is taken from the
      answer, its state is polled until `WAITING`, and sparkmagic is configured for it. */
  function AwaitCluster(w: World, response: Value): Outcome {
    var id := Member(response, "JobFlowId");
    if id.None? || !id.value.Str? then Outcome(Failed(NoJobFlowId), None, 0)
    else
      match PollStates(w.clusterStates(id.value.s))
      case Exhausted(n) => Outcome(StillPolling, None, n)
      case Reached(n) => Configure(w.template, w.clusterInstances(id.value.s), n)
  }

  /** The readiness loop: the state is read once, and then once more after each sleep, for
      as long as it is not `WAITING`. `states` are the answers the cluster gives; when they
      run out the cluster is still being polled. */
  method WaitUntilReady(states: seq<string>) returns (ready: bool, stateReads: nat, sleeps: nat)
    ensures ready <==> Ready in states
    ensures stateReads <= |states|
    ensures ready ==> 0 < stateReads && states[stateReads - 1] == Ready
    ensures forall i :: 0 <= i < stateReads - 1 ==> states[i] != Ready
    ensures !ready ==> stateReads == |states|
    ensures sleeps == if stateReads == 0 then 0 else stateReads - 1
    ensures PollStates(states) == if ready then Reached(stateReads) else Exhausted(stateReads)
  {
    if |states| == 0 {
      return false, 0, 0;
    }
    var state := states[0];
    stateReads, sleeps := 1, 0;
    while state != Ready
      invariant 1 <= stateReads <= |states|
      invariant state == states[stateReads - 1]
      invariant sleeps == stateReads - 1
      invariant forall i :: 0 <= i < stateReads - 1 ==> states[i] != Ready
      decreases |states| - stateReads
    {
      if stateReads == |states| {
        PollNotReady(states);
        return false, stateReads, sleeps;
      }
      sleeps := sleeps + 1;
      state := states[stateReads];
      stateReads := stateReads + 1;
    }
    ready := true;
    PollFirstReady(states, stateReads - 1);
  }

  /** `main()`: the same steps as `Attach`, in the order the source takes them, with the
      sparkmagic object created before the cluster is asked for anything. */
  method Run(o: Options, w: World) returns (outcome: Outcome)
    ensures outcome == Attach(o, w)
  {
    var branch := Dispatch(o);
    if branch.UsageError? {
      return Outcome(Failed(Usage), None, 0);
    }
    var clusterId: string;
    var stateReads := 0;
    var sparkmagic: CreateSparkMagicConfig;
    if branch.AttachExisting? {
      sparkmagic := new CreateSparkMagicConfig(w.template);
      clusterId := branch.clusterId;
    } else {
      if o.configFile !in w.configFiles {
        return Outcome(Failed(MissingConfigFile(o.configFile)), None, 0);
      }
      var cm := NewComputeManager(w.configFiles[o.configFile], o.clusterSize, o.paramSetName, o.configFile);
      if cm.Failure? {
        return Outcome(Failed(ConfigRejected(cm.error)), None, 0);
      }
      sparkmagic := new CreateSparkMagicConfig(w.template);
      var response := StartCompute(cm.value, w.runJobFlow);
      if response.Failure? {
        return Outcome(Failed(StartRejected(response.error)), None, 0);
      }
      var id := Member(response.value, "JobFlowId");
      if id.None? || !id.value.Str? {
        return Outcome(Failed(NoJobFlowId), None, 0);
      }
      clusterId := id.value.s;
      var ready, sleeps;
      ready, stateReads, sleeps := WaitUntilReady(w.clusterStates(clusterId));
      if !ready {
        return Outcome(StillPolling, None, stateReads);
      }
    }
    var ip := MasterPrivateIp(w.clusterInstances(clusterId));
    if ip.Failure? {
      return Outcome(Failed(ip.error), None, stateReads);
    }
    var written, r := sparkmagic.GenerateConfig(ip.value);
    if r.Failure? {
      return Outcome(Failed(NoPrivateIp), Some(written), stateReads);
    }
    outcome := Outcome(Configured(ip.value.value), Some(written), stateReads);
  }

  // ---------------------------------------------------------------------------------------
  // Properties

  lemma {:induction false} PollNotReady(states: seq<string>)
    requires forall i :: 0 <= i < |states| ==> states[i] != Ready
    ensures PollStates(states) == Exhausted(|states|)
  {
    if |states| > 0 {
      PollNotReady(states[1..]);
    }
  }

  lemma {:induction false} PollFirstReady(states: seq<string>, k: nat)
    requires k < |states| && states[k] == Ready
    requires forall i :: 0 <= i < k ==> states[i] != Ready
    ensures PollStates(states) == Reached(k + 1)
  {
    if k > 0 {
      PollFirstReady(states[1..], k - 1);
    }
  }

  /** With no options the cluster id and size are unknown, the file is `emr.yaml` and the
      param set is `default`; a given option is kept as it is. */
  lemma ParseOptionsDefaults(clusterId: Option<string>, clusterSize: Option<string>,
                             configFile: Option<string>, paramSetName: Option<string>)
    ensures ParseOptions(None, None, None, None) == Options("UNKNOWN", "UNKNOWN", "emr.yaml", "default")
    ensures var o := ParseOptions(clusterId, clusterSize, configFile, paramSetName);
      && (clusterId.Some? ==> o.clusterId == clusterId.value)
      && (clusterSize.Some? ==> o.clusterSize == clusterSize.value)
      && (configFile.Some? ==> o.configFile == configFile.value)
      && (paramSetName.Some? ==> o.paramSetName == paramSetName.value)
  {
  }

  /** A known cluster id selects attaching; otherwise a known size selects creating; with
      neither the run is a usage error. */
  lemma DispatchCases(o: Options)
    ensures Dispatch(o).AttachExisting? <==> o.clusterId != "UNKNOWN"
    ensures Dispatch(o).CreateNew? <==> o.clusterId == "UNKNOWN" && o.clusterSize != "UNKNOWN"
    ensures Dispatch(o).UsageError? <==> o.clusterId == "UNKNOWN" && o.clusterSize == "UNKNOWN"
  {
  }

  /** Attaching to a known cluster ignores the size, the config file and the param set,
      reads no state, and configures sparkmagic for that cluster's first instance. */
  lemma AttachIgnoresCreateOptions(o: Options, w: World, size: string, file: string, name: string)
    requires o.clusterId != "UNKNOWN"
    ensures Attach(o, w) == Attach(o.(clusterSize := size, configFile := file, paramSetName := name), w)
    ensures Attach(o, w) == Configure(w.template, w.clusterInstances(o.clusterId), 0)
    ensures Attach(o, w).stateReads == 0
  {
  }

  /** A usage error asks nothing of the world and writes nothing. */
  lemma UsageErrorTouchesNothing(o: Options, w: World, w': World)
    requires o.clusterId == "UNKNOWN" && o.clusterSize == "UNKNOWN"
    ensures Attach(o, w) == Attach(o, w') == Outcome(Failed(Usage), None, 0)
  {
  }

  /** The number of state reads is the position of the first `WAITING` plus one; no other
      state ends the polling, so without `WAITING` every observed state is read and the
      cluster is still being polled. */
  lemma {:induction false} PollReadsUntilFirstReady(states: seq<string>)
    ensures PollStates(states).Reached? <==> Ready in states
    ensures var n := PollStates(states).stateReads;
      && n <= |states|
      && (PollStates(states).Reached? ==> 0 < n && states[n - 1] == Ready)
      && (forall i :: 0 <= i < n - 1 ==> states[i] != Ready)
      && (PollStates(states).Exhausted? ==> n == |states|)
  {
    if |states| > 0 && states[0] != Ready {
      PollReadsUntilFirstReady(states[1..]);
      assert forall i :: 1 <= i < |states| ==> states[i] == states[1..][i - 1];
      assert Ready in states <==> Ready in states[1..];
    }
  }

  /** Once `WAITING` has been seen, later answers do not matter; and a prefix without it
      polls on into whatever comes next. */
  lemma {:induction false} PollIgnoresLaterStates(states: seq<string>, later: seq<string>)
    ensures PollStates(states).Reached? ==> PollStates(states + later) == PollStates(states)
    ensures PollStates(states).Exhausted? ==>
      PollStates(states + later) == match PollStates(later)
        case Reached(n) => Reached(|states| + n)
        case Exhausted(n) => Exhausted(|states| + n)
  {
    if |states| > 0 {
      assert (states + later)[1..] == states[1..] + later;
      PollIgnoresLaterStates(states[1..], later);
    } else {
      assert states + later == later;
    }
  }

  /** A cluster that starts, bootstraps and then waits is read three times. */
  lemma PollStartingCluster()
    ensures PollStates(["STARTING", "BOOTSTRAPPING", "WAITING"]) == Reached(3)
    ensures PollStates(["STARTING", "TERMINATED", "TERMINATED"]) == Exhausted(3)
  {
    assert ["STARTING", "BOOTSTRAPPING", "WAITING"][1..] == ["BOOTSTRAPPING", "WAITING"];
    assert ["BOOTSTRAPPING", "WAITING"][1..] == ["WAITING"];
    assert ["STARTING", "TERMINATED", "TERMINATED"][1..] == ["TERMINATED", "TERMINATED"];
    assert ["TERMINATED", "TERMINATED"][1..] == ["TERMINATED"];
    assert ["TERMINATED"][1..] == [];
  }

  /** The master's address is the `PrivateIpAddress` of the first listed instance, wherever
      that key sits among the instance's keys; the instances after it are not looked at. */
  lemma MasterPrivateIpOfFirstInstance(resp: Value, items: seq<Value>, fields: seq<(string, Value)>, ip: string)
    requires Member(resp, "Instances") == Some(Arr(items)) && |items| > 0
    requires items[0] == Obj(fields) && DistinctKeys(fields) && ("PrivateIpAddress", Str(ip)) in fields
    ensures MasterPrivateIp(resp) == Success(Some(ip))
  {
    LookupEntry(fields, "PrivateIpAddress", Str(ip));
  }

  /** Indexing a missing or empty instance list raises, and so does a first instance that is
      not a dict; a first instance without an address gives `None`, which is not an error
      here but makes the substitution raise. */
  lemma MasterPrivateIpErrors(resp: Value)
    ensures var list := Member(resp, "Instances");
      && (list.None? ==> MasterPrivateIp(resp) == Failure(NoInstances))
      && (list == Some(Arr([])) ==> MasterPrivateIp(resp) == Failure(EmptyInstances))
      && (list.Some? && list.value.Arr? && |list.value.items| > 0 && !list.value.items[0].Obj?
          ==> MasterPrivateIp(resp) == Failure(MalformedInstance))
      && (list.Some? && list.value.Arr? && |list.value.items| > 0 && list.value.items[0].Obj?
          && "PrivateIpAddress" !in Keys(list.value.items[0].fields)
          ==> MasterPrivateIp(resp) == Success(None))
  {
  }

  /** Sparkmagic is configured exactly when the first instance has an address; the file
      then holds the template with that address for `localhost`. Without an address the
      file has been emptied and the run fails; when the instance list cannot be read the
      file is not touched. */
  lemma ConfigureWritesSubstitution(template: string, instances: Value, n: nat)
    ensures var out := Configure(template, instances, n);
      var ip := MasterPrivateIp(instances);
      && out.stateReads == n
      && (out.status.Configured? <==> ip.Success? && ip.value.Some?)
      && (out.status.Configured? ==>
            out.status.masterIp == ip.value.value && out.written == Some(Substitute(template, ip.value.value)))
      && (ip.Success? && ip.value.None? ==> out == Outcome(Failed(NoPrivateIp), Some([]), n))
      && (ip.Failure? ==> out.written == None)
  {
  }

  /** On the create path the cluster's states are polled: the run reads up to and including
      the first `WAITING` and then configures sparkmagic for the new cluster; without
      `WAITING` among the observed states it is still polling and has written nothing. */
  lemma AwaitClusterPolls(w: World, response: Value, id: string)
    requires Member(response, "JobFlowId") == Some(Str(id))
    ensures var states := w.clusterStates(id);
      var out := AwaitCluster(w, response);
      && (out.status == StillPolling <==> Ready !in states)
      && (Ready !in states ==> out.stateReads == |states| && out.written == None)
      && (Ready in states ==>
            && 0 < out.stateReads <= |states|
            && states[out.stateReads - 1] == Ready
            && (forall i :: 0 <= i < out.stateReads - 1 ==> states[i] != Ready)
            && out == Configure(w.template, w.clusterInstances(id), out.stateReads))
  {
    PollReadsUntilFirstReady(w.clusterStates(id));
  }

  /** A run that creates a cluster ends as the polling of the new cluster does. */
  lemma CreatePathAwaitsCluster(o: Options, w: World)
    requires Dispatch(o).CreateNew? && o.configFile in w.configFiles
    requires NewComputeManager(w.configFiles[o.configFile], o.clusterSize, o.paramSetName, o.configFile).Success?
    requires StartCompute(NewComputeManager(w.configFiles[o.configFile], o.clusterSize, o.paramSetName, o.configFile).value,
                          w.runJobFlow).Success?
    ensures Attach(o, w) == AwaitCluster(w, StartCompute(NewComputeManager(w.configFiles[o.configFile], o.clusterSize,
                                                             o.paramSetName, o.configFile).value, w.runJobFlow).value)
  {
  }
}
