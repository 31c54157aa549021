/** The command-line side of deploying and updating a cluster
    (src/cli/k8s.rs): the `-D key=value` parser, and the cascades that
    resolve every setting from the command line, the `[client.kubernetes]`
    section of the configuration file, and the built-in defaults. */
module Cli {
  import opened Wrappers
  import opened Strings
  import opened CurvineConf
  import opened KubeConfig
  import opened DynamicConfig

  /** Why a deploy or update command stops before reaching the cluster. */
  datatype CliError =
    | InvalidConfigFormat(config: string)
    | EmptyKey(config: string)
    | MissingClusterId
    | InvalidServiceType(cause: KubeError)
    | MasterReplicasNotUpdatable

  // ----------------------------------------------------- -D key=value

  /** One `-D` entry: split at its first '=', both sides trimmed; an entry
      without '=' or with a blank key is an error. */
  function ConfigEntry(config: string): Result<(string, string), CliError> {
    match SplitOnce(config, '=')
    case None => Err(InvalidConfigFormat(config))
    case Some((k, v)) => if Trim(k) == "" then Err(EmptyKey(config)) else Ok((Trim(k), Trim(v)))
  }

  /** The entries' outcomes, in order. */
  function EntriesOf(configs: seq<string>): (r: seq<Result<(string, string), CliError>>)
    ensures |r| == |configs| && forall i :: 0 <= i < |r| ==> r[i] == ConfigEntry(configs[i])
  {
    seq(|configs|, i requires 0 <= i < |configs| => ConfigEntry(configs[i]))
  }

  /** Inserting accepted entries from first to last, stopping at the first
      rejected one. */
  function InsertAll<K, V, E>(entries: seq<Result<(K, V), E>>): Result<map<K, V>, E>
    decreases |entries|
  {
    if |entries| == 0 then Ok(map[])
    else
      match InsertAll(entries[..|entries| - 1])
      case Err(e) => Err(e)
      case Ok(m) =>
        match entries[|entries| - 1]
        case Err(e) => Err(e)
        case Ok((k, v)) => Ok(m[k := v])
  }

  /** What `parse_dynamic_configs` returns. */
  function DynamicConfigs(configs: seq<string>): Result<map<string, string>, CliError> {
    InsertAll(EntriesOf(configs))
  }

  /** Once a prefix has failed, the whole sequence fails with the same
      error. */
  lemma {:induction false} InsertAllErrPersists<K, V, E>(entries: seq<Result<(K, V), E>>, i: nat)
    requires i <= |entries| && InsertAll(entries[..i]).Err?
    ensures InsertAll(entries) == InsertAll(entries[..i])
    decreases |entries| - i
  {
    if i < |entries| {
      assert entries[..i + 1][..i] == entries[..i];
      InsertAllErrPersists(entries, i + 1);
    } else {
      assert entries[..i] == entries;
    }
  }

  /** One more entry: inserted, or the first error. */
  lemma InsertAllStep<K, V, E>(entries: seq<Result<(K, V), E>>, i: nat, m: map<K, V>)
    requires i < |entries| && InsertAll(entries[..i]) == Ok(m)
    ensures entries[i].Err? ==> InsertAll(entries[..i + 1]) == Err(entries[i].error)
    ensures entries[i].Ok? ==> InsertAll(entries[..i + 1]) == Ok(m[entries[i].value.0 := entries[i].value.1])
  {
    assert entries[..i + 1][..i] == entries[..i];
  }

  /** `parse_dynamic_configs`: one pass with an early return. */
  method ParseDynamicConfigs(configs: seq<string>) returns (r: Result<map<string, string>, CliError>)
    ensures r == DynamicConfigs(configs)
  {
    ghost var entries := EntriesOf(configs);
    var m := map[];
    var i := 0;
    while i < |configs|
      invariant i <= |configs|
      invariant InsertAll(entries[..i]) == Ok(m)
    {
      var config := configs[i];
      InsertAllStep(entries, i, m);
      match SplitOnce(config, '=') {
        case None =>
          InsertAllErrPersists(entries, i + 1);
          return Err(InvalidConfigFormat(config));
        case Some((k, v)) =>
          var key := Trim(k);
          var value := Trim(v);
          if key == "" {
            InsertAllErrPersists(entries, i + 1);
            return Err(EmptyKey(config));
          }
          m := m[key := value];
      }
      i := i + 1;
    }
    assert entries[..i] == entries;
    r := Ok(m);
  }

  /** k and v are the parts of an entry before and after its first '='. */
  predicate SplitAtFirst(config: string, k: string, v: string) {
    config == k + "=" + v && '=' !in k
  }

  /** An entry is accepted exactly when it holds '=' and the part before
      the first '=' is not blank; the key and value are that part and the
      rest, trimmed. */
  lemma ConfigEntrySplit(config: string)
    ensures '=' !in config ==> ConfigEntry(config) == Err(InvalidConfigFormat(config))
    ensures '=' in config ==>
      (exists k, v :: SplitAtFirst(config, k, v)
        && ConfigEntry(config) == if Trim(k) == "" then Err(EmptyKey(config)) else Ok((Trim(k), Trim(v))))
  {
    if '=' in config {
      var k := SplitOnce(config, '=').value.0;
      var v := SplitOnce(config, '=').value.1;
      assert SplitAtFirst(config, k, v);
    }
  }

  /** The accepted entries, as the insertion sequence of the key-value
      parser. */
  function Accepted<K, V, E>(entries: seq<Result<(K, V), E>>): (r: seq<Option<(K, V)>>)
    ensures |r| == |entries|
    ensures forall i :: 0 <= i < |r| ==> r[i] == if entries[i].Ok? then Some(entries[i].value) else None
  {
    seq(|entries|, i requires 0 <= i < |entries| => if entries[i].Ok? then Some(entries[i].value) else None)
  }

  /** Insertion succeeds exactly when every entry is accepted, and then
      the map is the accepted entries inserted in order. */
  lemma {:induction false} InsertAllOk<K, V, E>(entries: seq<Result<(K, V), E>>)
    ensures InsertAll(entries).Ok? <==> forall i :: 0 <= i < |entries| ==> entries[i].Ok?
    ensures InsertAll(entries).Ok? ==> InsertAll(entries).value == Insertions(Accepted(entries))
    decreases |entries|
  {
    if |entries| > 0 {
      var n := |entries| - 1;
      var init := entries[..n];
      InsertAllOk(init);
      assert Accepted(entries)[..n] == Accepted(init);
      assert forall i :: 0 <= i < n ==> init[i] == entries[i];
    }
  }

  /** A failed insertion reports the first rejected entry. */
  lemma {:induction false} InsertAllFirstError<K, V, E>(entries: seq<Result<(K, V), E>>)
    requires InsertAll(entries).Err?
    ensures exists i :: (0 <= i < |entries| && entries[i] == Err(InsertAll(entries).error)
      && forall j :: 0 <= j < i ==> entries[j].Ok?)
    decreases |entries|
  {
    var n := |entries| - 1;
    var init := entries[..n];
    assert forall j :: 0 <= j < n ==> init[j] == entries[j];
    if InsertAll(init).Err? {
      InsertAllFirstError(init);
    } else {
      InsertAllOk(init);
    }
  }

  /** A failed parse reports the first bad entry. */
  lemma DynamicConfigsFirstError(configs: seq<string>)
    requires DynamicConfigs(configs).Err?
    ensures exists i :: (0 <= i < |configs| && ConfigEntry(configs[i]) == Err(DynamicConfigs(configs).error)
      && forall j :: 0 <= j < i ==> ConfigEntry(configs[j]).Ok?)
  {
    InsertAllFirstError(EntriesOf(configs));
  }

  /** The parse succeeds exactly when every entry is accepted. */
  lemma DynamicConfigsOk(configs: seq<string>)
    ensures DynamicConfigs(configs).Ok? <==> forall i :: 0 <= i < |configs| ==> ConfigEntry(configs[i]).Ok?
  {
    InsertAllOk(EntriesOf(configs));
  }

  /** A key is set exactly when some entry names it, and it holds the
      value of the last entry naming it: later duplicates win. */
  lemma DynamicConfigsKeys(configs: seq<string>, k: string)
    requires DynamicConfigs(configs).Ok?
    ensures k in DynamicConfigs(configs).value <==>
      exists i :: 0 <= i < |configs| && ConfigEntry(configs[i]).Ok? && ConfigEntry(configs[i]).value.0 == k
    ensures k in DynamicConfigs(configs).value ==>
      exists i :: (0 <= i < |configs| && ConfigEntry(configs[i]) == Ok((k, DynamicConfigs(configs).value[k]))
        && forall j :: i < j < |configs| ==> !(ConfigEntry(configs[j]).Ok? && ConfigEntry(configs[j]).value.0 == k))
  {
    var entries := EntriesOf(configs);
    InsertAllOk(entries);
    var accepted := Accepted(entries);
    InsertionsDomain(accepted, k);
    if k in DynamicConfigs(configs).value {
      InsertionsLastWins(accepted, k);
    }
  }

  /** The `-D` overrides of a command: none when it gave no `-D`. */
  function Overrides(properties: seq<string>): Result<Option<map<string, string>>, CliError> {
    if |properties| == 0 then Ok(None)
    else match DynamicConfigs(properties)
      case Err(e) => Err(e)
      case Ok(m) => Ok(Some(m))
  }

  /** A configuration with the overrides, if any, applied to it. */
  predicate Finished(overrides: Option<map<string, string>>, kc: KubernetesConfig, r: KubernetesConfig) {
    if overrides.None? then r == kc else KubeConfigOverridden(overrides.value, kc, r)
  }

  // ------------------------------------------------------------- deploy

  /** The deploy command's arguments; the kubeconfig path, context and
      configuration file path only reach I/O. */
  datatype DeployArgs = DeployArgs(
    clusterId: Option<string>, namespace: string, image: string,
    masterReplicas: nat, workerReplicas: nat,
    masterPodTemplate: Option<string>, workerPodTemplate: Option<string>,
    storageClass: Option<string>, masterStorageClass: Option<string>, workerStorageClass: Option<string>,
    masterStorageSize: Option<string>, workerStorageSize: Option<string>,
    serviceType: string, imagePullPolicy: string, properties: seq<string>)

  const DEFAULT_NAMESPACE := "default"
  const DEFAULT_REPLICAS: nat := 3
  const DEFAULT_SERVICE_TYPE := "ClusterIP"
  const DEFAULT_PULL_POLICY := "IfNotPresent"
  const DEFAULT_CLUSTER_DOMAIN := "cluster.local"

  /** Cluster id: the command line, else the file, else none (an error). */
  function ClusterIdOf(cli: Option<string>, file: Option<KubernetesConf>): Option<string> {
    OrElse(cli, if file.Some? then file.value.clusterId else None)
  }

  /** Namespace: a command-line value other than "" and "default" wins;
      otherwise the file's namespace when there is a file section. */
  function NamespaceOf(cli: string, file: Option<KubernetesConf>): string {
    if cli != "" && cli != DEFAULT_NAMESPACE then cli
    else if file.Some? then file.value.namespace
    else cli
  }

  /** A deploy flag with a default: the command-line value counts only
      when it differs from the default, which cannot be told apart from
      an explicit flag equal to it. */
  function Cascade<T(==)>(cli: T, placeholder: T, file: Option<T>): T {
    if cli != placeholder then cli else file.GetOr(cli)
  }

  function FileStorage(file: Option<KubernetesConf>): Option<KubernetesStorageConf> {
    if file.Some? then file.value.storage else None
  }

  /** The deploy storage section: present when any storage setting is. */
  function DeployStorage(cmd: DeployArgs, file: Option<KubernetesConf>): Option<StorageConfig> {
    var storage := FileStorage(file);
    var storageClass := OrElse(OrElse(cmd.storageClass, if file.Some? then file.value.worker.storageClass else None),
                               if storage.Some? then Some(storage.value.storageClass) else None);
    var masterSize := OrElse(cmd.masterStorageSize, if storage.Some? then storage.value.masterSize else None);
    var workerSize := OrElse(cmd.workerStorageSize, if storage.Some? then storage.value.workerSize else None);
    if storageClass.None? && cmd.masterStorageClass.None? && cmd.workerStorageClass.None?
       && masterSize.None? && workerSize.None?
    then None
    else
      var fallback := OrElse(cmd.masterStorageClass, cmd.workerStorageClass).GetOr("");
      Some(StorageConfig(storageClass.GetOr(fallback), cmd.masterStorageClass, cmd.workerStorageClass,
                         masterSize, workerSize))
  }

  /** The configuration `DeployCommand::execute` assembles before the `-D`
      overrides. */
  function DeploySpec(cmd: DeployArgs, file: Option<KubernetesConf>): Result<KubernetesConfig, CliError> {
    var clusterId := ClusterIdOf(cmd.clusterId, file);
    if clusterId.None? then Err(MissingClusterId)
    else
      var serviceTypeName := Cascade(cmd.serviceType, DEFAULT_SERVICE_TYPE,
                                     if file.Some? then Some(file.value.service.serviceType) else None);
      match ParseServiceType(serviceTypeName)
      case Err(e) => Err(InvalidServiceType(e))
      case Ok(serviceType) =>
        var storage := DeployStorage(cmd, file);
        var master := MasterConfig(
          Cascade(cmd.masterReplicas, DEFAULT_REPLICAS, if file.Some? then Some(file.value.master.replicas) else None),
          Cascade(cmd.image, DEFAULT_IMAGE, if file.Some? then Some(file.value.master.image) else None),
          None, if file.Some? then file.value.master.nodeSelector else None, None,
          OrElse(cmd.masterPodTemplate, if file.Some? then file.value.master.podTemplate else None),
          if file.Some? then file.value.master.gracefulShutdown else true,
          map[], map[], [], None, map[], None, None);
        var worker := WorkerConfig(
          Cascade(cmd.workerReplicas, DEFAULT_REPLICAS, if file.Some? then Some(file.value.worker.replicas) else None),
          Cascade(cmd.image, DEFAULT_IMAGE, if file.Some? then Some(file.value.worker.image) else None),
          None, if file.Some? then file.value.worker.nodeSelector else None, false,
          OrElse(cmd.workerPodTemplate, if file.Some? then file.value.worker.podTemplate else None),
          OrElse(OrElse(cmd.storageClass, if file.Some? then file.value.worker.storageClass else None),
                 if FileStorage(file).Some? then Some(FileStorage(file).value.storageClass) else None),
          if file.Some? then file.value.worker.gracefulShutdown else true,
          if file.Some? then file.value.worker.hostNetwork else false,
          if file.Some? then file.value.worker.initContainer else false,
          None, map[], map[], [], None, map[], None, None);
        var service := ServiceConfig(
          serviceType, if file.Some? then file.value.service.annotations else map[],
          if file.Some? then file.value.service.sessionAffinity else None,
          if file.Some? then file.value.service.externalIps else [], []);
        Ok(KubernetesConfig(
          clusterId.value, NamespaceOf(cmd.namespace, file), master, worker, service, storage,
          Cascade(cmd.imagePullPolicy, DEFAULT_PULL_POLICY, if file.Some? then Some(file.value.imagePullPolicy) else None),
          if file.Some? then file.value.imagePullSecrets else [], DEFAULT_CLUSTER_DOMAIN))
  }

  /** Deploy resolution fails exactly when no cluster id is given anywhere,
      or the resolved service type is not a service type name; a missing
      id is reported first. */
  lemma DeploySpecErrors(cmd: DeployArgs, file: Option<KubernetesConf>)
    ensures ClusterIdOf(cmd.clusterId, file).None? ==> DeploySpec(cmd, file) == Err(MissingClusterId)
    ensures ClusterIdOf(cmd.clusterId, file).Some? ==>
      var name := Cascade(cmd.serviceType, DEFAULT_SERVICE_TYPE,
                          if file.Some? then Some(file.value.service.serviceType) else None);
      (DeploySpec(cmd, file).Err? <==> forall t :: ServiceTypeName(t) != name)
      && (DeploySpec(cmd, file).Err? ==> DeploySpec(cmd, file).error.InvalidServiceType?)
  {
    if ClusterIdOf(cmd.clusterId, file).Some? {
      var name := Cascade(cmd.serviceType, DEFAULT_SERVICE_TYPE,
                          if file.Some? then Some(file.value.service.serviceType) else None);
      if DeploySpec(cmd, file).Ok? {
        assert ServiceTypeName(ParseServiceType(name).value) == name;
      } else {
        forall t ensures ServiceTypeName(t) != name {
          ServiceTypeRoundTrip(t, name);
        }
      }
    }
  }

  /** The identity of a deployed cluster: the id from the command line,
      else from the file; the namespace from the command line unless it
      is blank or "default", in which case the file's wins when there is
      a file section. */
  lemma DeployIdentity(cmd: DeployArgs, file: Option<KubernetesConf>)
    requires DeploySpec(cmd, file).Ok?
    ensures var r := DeploySpec(cmd, file).value;
      && (cmd.clusterId.Some? ==> r.clusterId == cmd.clusterId.value)
      && (cmd.clusterId.None? ==> file.Some? && file.value.clusterId == Some(r.clusterId))
      && (cmd.namespace != "" && cmd.namespace != "default" ==> r.namespace == cmd.namespace)
      && (!(cmd.namespace != "" && cmd.namespace != "default") && file.Some? ==> r.namespace == file.value.namespace)
      && (file.None? ==> r.namespace == cmd.namespace)
  {
  }

  /** A flag with a default: an explicit value other than the default
      wins; otherwise the file's value, otherwise the default. */
  lemma DeployPlaceholders(cmd: DeployArgs, file: Option<KubernetesConf>)
    requires DeploySpec(cmd, file).Ok?
    ensures var r := DeploySpec(cmd, file).value;
      && (cmd.masterReplicas != 3 ==> r.master.replicas == cmd.masterReplicas)
      && (cmd.masterReplicas == 3 && file.Some? ==> r.master.replicas == file.value.master.replicas)
      && (cmd.masterReplicas == 3 && file.None? ==> r.master.replicas == 3)
      && (cmd.workerReplicas != 3 ==> r.worker.replicas == cmd.workerReplicas)
      && (cmd.workerReplicas == 3 && file.Some? ==> r.worker.replicas == file.value.worker.replicas)
      && (cmd.workerReplicas == 3 && file.None? ==> r.worker.replicas == 3)
      && (cmd.image != "docker.io/curvine:latest" ==> r.master.image == r.worker.image == cmd.image)
      && (cmd.image == "docker.io/curvine:latest" && file.Some? ==>
            r.master.image == file.value.master.image && r.worker.image == file.value.worker.image)
      && (cmd.image == "docker.io/curvine:latest" && file.None? ==>
            r.master.image == r.worker.image == "docker.io/curvine:latest")
      && (cmd.serviceType != "ClusterIP" ==> ServiceTypeName(r.service.serviceType) == cmd.serviceType)
      && (cmd.serviceType == "ClusterIP" && file.Some? ==>
            ServiceTypeName(r.service.serviceType) == file.value.service.serviceType)
      && (cmd.serviceType == "ClusterIP" && file.None? ==> r.service.serviceType == ClusterIP)
      && (cmd.imagePullPolicy != "IfNotPresent" ==> r.imagePullPolicy == cmd.imagePullPolicy)
      && (cmd.imagePullPolicy == "IfNotPresent" && file.Some? ==> r.imagePullPolicy == file.value.imagePullPolicy)
      && (cmd.imagePullPolicy == "IfNotPresent" && file.None? ==> r.imagePullPolicy == "IfNotPresent")
  {
  }

  /** The deploy storage section is present exactly when a storage class
      (command line, the file's worker class or the file's storage
      section), a role storage class or a role size is given; its class
      falls back to the role classes of the command line, then "". */
  lemma DeployStoragePresence(cmd: DeployArgs, file: Option<KubernetesConf>)
    ensures var storage := DeployStorage(cmd, file);
      var fileStorage := FileStorage(file);
      var storageClass := OrElse(OrElse(cmd.storageClass, if file.Some? then file.value.worker.storageClass else None),
                                 if fileStorage.Some? then Some(fileStorage.value.storageClass) else None);
      && (storage.Some? <==>
            storageClass.Some? || cmd.masterStorageClass.Some? || cmd.workerStorageClass.Some?
            || cmd.masterStorageSize.Some? || cmd.workerStorageSize.Some?
            || (fileStorage.Some? && (fileStorage.value.masterSize.Some? || fileStorage.value.workerSize.Some?)))
      && (storage.Some? ==>
            && storage.value.storageClass ==
                 OrElse(OrElse(storageClass, cmd.masterStorageClass), cmd.workerStorageClass).GetOr("")
            && storage.value.masterStorageClass == cmd.masterStorageClass
            && storage.value.workerStorageClass == cmd.workerStorageClass)
  {
  }

  /** `DeployCommand::execute` up to the deployment itself: the `-D`
      entries are parsed first, then the settings resolved, then the
      overrides applied. */
  method Deploy(cmd: DeployArgs, conf: ClusterConf) returns (r: Result<KubernetesConfig, CliError>)
    ensures Overrides(cmd.properties).Err? ==> r == Err(Overrides(cmd.properties).error)
    ensures Overrides(cmd.properties).Ok? && DeploySpec(cmd, conf.client.kubernetes).Err? ==>
      r == Err(DeploySpec(cmd, conf.client.kubernetes).error)
    ensures Overrides(cmd.properties).Ok? && DeploySpec(cmd, conf.client.kubernetes).Ok? ==>
      r.Ok? && Finished(Overrides(cmd.properties).value, DeploySpec(cmd, conf.client.kubernetes).value, r.value)
  {
    var overrides: Option<map<string, string>> := None;
    if |cmd.properties| > 0 {
      var parsed := ParseDynamicConfigs(cmd.properties);
      if parsed.Err? {
        return Err(parsed.error);
      }
      overrides := Some(parsed.value);
    }
    var spec := DeploySpec(cmd, conf.client.kubernetes);
    if spec.Err? {
      return Err(spec.error);
    }
    var kc := spec.value;
    if overrides.Some? {
      kc := ApplyToKubeConfig(overrides.value, kc);
    }
    r := Ok(kc);
  }

  // ------------------------------------------------------------- update

  /** The update command's arguments: every setting is optional. */
  datatype UpdateArgs = UpdateArgs(
    clusterId: Option<string>, namespace: string, image: Option<string>,
    masterReplicas: Option<nat>, workerReplicas: Option<nat>,
    masterPodTemplate: Option<string>, workerPodTemplate: Option<string>,
    serviceType: Option<string>, imagePullPolicy: Option<string>, properties: seq<string>)

  /** The storage section an update keeps: the file's, copied. */
  function UpdateStorage(file: Option<KubernetesConf>): Option<StorageConfig> {
    var storage := FileStorage(file);
    if storage.None? then None
    else Some(StorageConfig(storage.value.storageClass, storage.value.masterStorageClass,
                            storage.value.workerStorageClass, storage.value.masterSize, storage.value.workerSize))
  }

  /** The configuration `UpdateCommand::execute` assembles before the `-D`
      overrides. */
  function UpdateSpec(cmd: UpdateArgs, file: Option<KubernetesConf>): Result<KubernetesConfig, CliError> {
    var clusterId := ClusterIdOf(cmd.clusterId, file);
    if clusterId.None? then Err(MissingClusterId)
    else
      var serviceTypeName := OrElse(cmd.serviceType, if file.Some? then Some(file.value.service.serviceType) else None);
      var serviceType :=
        if serviceTypeName.Some? then ParseServiceType(serviceTypeName.value) else Ok(ClusterIP);
      if serviceType.Err? then Err(InvalidServiceType(serviceType.error))
      else
        var storage := UpdateStorage(file);
        var master := MasterConfig(
          if file.Some? then file.value.master.replicas else 1,
          OrElse(cmd.image, if file.Some? then Some(file.value.master.image) else None).GetOr(DEFAULT_IMAGE),
          None, if file.Some? then file.value.master.nodeSelector else None, None,
          OrElse(cmd.masterPodTemplate, if file.Some? then file.value.master.podTemplate else None),
          if file.Some? then file.value.master.gracefulShutdown else true,
          map[], map[], [], None, map[], None, None);
        var worker := WorkerConfig(
          OrElse(cmd.workerReplicas, if file.Some? then Some(file.value.worker.replicas) else None).GetOr(3),
          OrElse(cmd.image, if file.Some? then Some(file.value.worker.image) else None).GetOr(DEFAULT_IMAGE),
          None, if file.Some? then file.value.worker.nodeSelector else None, false,
          OrElse(cmd.workerPodTemplate, if file.Some? then file.value.worker.podTemplate else None),
          if storage.Some? then Some(storage.value.storageClass) else None,
          if file.Some? then file.value.worker.gracefulShutdown else true,
          if file.Some? then file.value.worker.hostNetwork else false,
          if file.Some? then file.value.worker.initContainer else false,
          None, map[], map[], [], None, map[], None, None);
        var service := ServiceConfig(
          serviceType.value, if file.Some? then file.value.service.annotations else map[],
          if file.Some? then file.value.service.sessionAffinity else None,
          if file.Some? then file.value.service.externalIps else [], []);
        Ok(KubernetesConfig(
          clusterId.value, NamespaceOf(cmd.namespace, file), master, worker, service, storage,
          OrElse(cmd.imagePullPolicy, if file.Some? then Some(file.value.imagePullPolicy) else None)
            .GetOr(DEFAULT_PULL_POLICY),
          if file.Some? then file.value.imagePullSecrets else [], DEFAULT_CLUSTER_DOMAIN))
  }

  /** Update resolution fails exactly when no cluster id is given anywhere,
      or a service type is given (or read from the file) that is not a
      service type name. */
  lemma UpdateSpecErrors(cmd: UpdateArgs, file: Option<KubernetesConf>)
    ensures ClusterIdOf(cmd.clusterId, file).None? ==> UpdateSpec(cmd, file) == Err(MissingClusterId)
    ensures ClusterIdOf(cmd.clusterId, file).Some? ==>
      var name := OrElse(cmd.serviceType, if file.Some? then Some(file.value.service.serviceType) else None);
      (UpdateSpec(cmd, file).Err? <==> name.Some? && forall t :: ServiceTypeName(t) != name.value)
      && (UpdateSpec(cmd, file).Err? ==> UpdateSpec(cmd, file).error.InvalidServiceType?)
  {
    if ClusterIdOf(cmd.clusterId, file).Some? {
      var name := OrElse(cmd.serviceType, if file.Some? then Some(file.value.service.serviceType) else None);
      if name.Some? {
        if UpdateSpec(cmd, file).Ok? {
          assert ServiceTypeName(ParseServiceType(name.value).value) == name.value;
        } else {
          forall t ensures ServiceTypeName(t) != name.value {
            ServiceTypeRoundTrip(t, name.value);
          }
        }
      }
    }
  }

  /** On update the master count is never taken from the command line: it
      is the file's, else 1; the worker count is the command line's, else
      the file's, else 3; the storage section is the file's, unchanged. */
  lemma UpdateCounts(cmd: UpdateArgs, file: Option<KubernetesConf>)
    requires UpdateSpec(cmd, file).Ok?
    ensures var r := UpdateSpec(cmd, file).value;
      && r.master.replicas == (if file.Some? then file.value.master.replicas else 1)
      && (cmd.workerReplicas.Some? ==> r.worker.replicas == cmd.workerReplicas.value)
      && (cmd.workerReplicas.None? && file.Some? ==> r.worker.replicas == file.value.worker.replicas)
      && (cmd.workerReplicas.None? && file.None? ==> r.worker.replicas == 3)
      && (r.storage.Some? <==> FileStorage(file).Some?)
      && (r.storage.Some? ==> r.storage.value.storageClass == FileStorage(file).value.storageClass
                              && r.worker.storageClass == Some(r.storage.value.storageClass))
  {
  }

  /** `UpdateCommand::execute` up to the update itself: a master count on
      the command line is refused before anything else, then as deploy. */
  method Update(cmd: UpdateArgs, conf: ClusterConf) returns (r: Result<KubernetesConfig, CliError>)
    ensures cmd.masterReplicas.Some? ==> r == Err(MasterReplicasNotUpdatable)
    ensures cmd.masterReplicas.None? && Overrides(cmd.properties).Err? ==> r == Err(Overrides(cmd.properties).error)
    ensures cmd.masterReplicas.None? && Overrides(cmd.properties).Ok? && UpdateSpec(cmd, conf.client.kubernetes).Err? ==>
      r == Err(UpdateSpec(cmd, conf.client.kubernetes).error)
    ensures cmd.masterReplicas.None? && Overrides(cmd.properties).Ok? && UpdateSpec(cmd, conf.client.kubernetes).Ok? ==>
      r.Ok? && Finished(Overrides(cmd.properties).value, UpdateSpec(cmd, conf.client.kubernetes).value, r.value)
  {
    if cmd.masterReplicas.Some? {
      return Err(MasterReplicasNotUpdatable);
    }
    var overrides: Option<map<string, string>> := None;
    if |cmd.properties| > 0 {
      var parsed := ParseDynamicConfigs(cmd.properties);
      if parsed.Err? {
        return Err(parsed.error);
      }
      overrides := Some(parsed.value);
    }
    var spec := UpdateSpec(cmd, conf.client.kubernetes);
    if spec.Err? {
      return Err(spec.error);
    }
    var kc := spec.value;
    if overrides.Some? {
      kc := ApplyToKubeConfig(overrides.value, kc);
    }
    r := Ok(kc);
  }
}
