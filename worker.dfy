/** The worker StatefulSet
    (src/infrastructure/kubernetes/resources/statefulset/worker.rs): one
    privileged container running the worker, and one volume per configured
    data directory, backed by memory, a host path or a claimed volume. */
module WorkerStatefulSet {
  import opened Wrappers
  import opened Strings
  import opened K8s
  import opened Constants
  import opened CurvineConf
  import opened KubeConfig
  import opened Labels
  import opened PodLifecycle
  import EnvBuilder
  import opened PodTemplate
  import opened PodMerger
  import opened TemplateUtils
  import opened ManifestCommon
  import HeadlessService

  /** `WorkerBuilder` */
  datatype WorkerBuilder = WorkerBuilder(
    clusterId: string, namespace: string, config: KubernetesConfig, clusterConf: ClusterConf)

  /** The claim size when none is configured. */
  const WORKER_DEFAULT_SIZE: string := "20Gi"

  // ---------------------------------------------------------- data dirs

  const DATA_DIR_FORMAT_HEAD := "Invalid data_dir format '"
  const DATA_DIR_FORMAT_SEP := "': "

  /** The error for a data directory that does not parse. */
  function DataDirFormatError(s: string, e: string): KubeError {
    ConfigError(DATA_DIR_FORMAT_HEAD + s + DATA_DIR_FORMAT_SEP + e)
  }

  /** What `parse_data_dirs` returns: the first directory that does not
      parse, or every directory parsed, in order (the index the source
      pairs with each is its position here). */
  function ParsedDirs(dirs: seq<string>): (r: Result<seq<WorkerDataDir>, KubeError>)
    ensures r.Ok? ==> |r.value| == |dirs|
  {
    if |dirs| == 0 then Ok([])
    else
      var last := dirs[|dirs| - 1];
      match ParsedDirs(dirs[..|dirs| - 1])
      case Err(e) => Err(e)
      case Ok(ds) =>
        match ParseDataDir(last)
        case Err(e) => Err(DataDirFormatError(last, e))
        case Ok(d) => Ok(ds + [d])
  }

  /** Once a prefix fails, the whole list fails with the same error. */
  lemma {:induction false} ParsedDirsErrorStays(dirs: seq<string>, i: nat)
    requires i <= |dirs| && ParsedDirs(dirs[..i]).Err?
    ensures ParsedDirs(dirs) == ParsedDirs(dirs[..i])
    decreases |dirs|
  {
    if i < |dirs| {
      var init := dirs[..|dirs| - 1];
      assert init[..i] == dirs[..i];
      ParsedDirsErrorStays(init, i);
    } else {
      assert dirs[..i] == dirs;
    }
  }

  /** `parse_data_dirs` */
  method ParseDataDirs(dirs: seq<string>) returns (r: Result<seq<WorkerDataDir>, KubeError>)
    ensures r == ParsedDirs(dirs)
  {
    var ds: seq<WorkerDataDir> := [];
    var i := 0;
    while i < |dirs|
      invariant i <= |dirs|
      invariant ParsedDirs(dirs[..i]) == Ok(ds)
    {
      assert dirs[..i + 1][..i] == dirs[..i];
      var parsed := ParseDataDir(dirs[i]);
      if parsed.Err? {
        ParsedDirsErrorStays(dirs, i + 1);
        return Err(DataDirFormatError(dirs[i], parsed.error));
      }
      ds := ds + [parsed.value];
      i := i + 1;
    }
    assert dirs[..i] == dirs;
    r := Ok(ds);
  }

  /** All directories parse exactly when no error is reported, and then
      there is one parsed directory per string, in order. */
  lemma {:induction false} ParsedDirsOk(dirs: seq<string>)
    ensures ParsedDirs(dirs).Ok? <==> forall i :: 0 <= i < |dirs| ==> ParseDataDir(dirs[i]).Ok?
    ensures ParsedDirs(dirs).Ok? ==>
      forall i :: 0 <= i < |dirs| ==> ParsedDirs(dirs).value[i] == ParseDataDir(dirs[i]).value
  {
    if |dirs| > 0 {
      var init, last := dirs[..|dirs| - 1], dirs[|dirs| - 1];
      ParsedDirsOk(init);
      assert forall i :: 0 <= i < |init| ==> init[i] == dirs[i];
      var pi, pl := ParsedDirs(init), ParseDataDir(last);
      if pi.Ok? && pl.Ok? {
        var all := pi.value + [pl.value];
        assert ParsedDirs(dirs) == Ok(all);
        assert forall i :: 0 <= i < |init| ==> all[i] == ParseDataDir(dirs[i]).value;
      } else if pi.Ok? {
        assert ParsedDirs(dirs).Err? && !ParseDataDir(dirs[|dirs| - 1]).Ok?;
      } else {
        assert ParsedDirs(dirs).Err?;
      }
    }
  }

  /** A reported error is that of the first directory that does not parse. */
  lemma {:induction false} ParsedDirsFirstError(dirs: seq<string>)
    requires ParsedDirs(dirs).Err?
    ensures exists j :: (0 <= j < |dirs| && ParseDataDir(dirs[j]).Err?
      && ParsedDirs(dirs).error == DataDirFormatError(dirs[j], ParseDataDir(dirs[j]).error)
      && forall k :: 0 <= k < j ==> ParseDataDir(dirs[k]).Ok?)
  {
    var init := dirs[..|dirs| - 1];
    assert forall i :: 0 <= i < |init| ==> init[i] == dirs[i];
    if ParsedDirs(init).Err? {
      ParsedDirsFirstError(init);
      var j :| 0 <= j < |init| && ParseDataDir(init[j]).Err?
        && ParsedDirs(init).error == DataDirFormatError(init[j], ParseDataDir(init[j]).error)
        && forall k :: 0 <= k < j ==> ParseDataDir(init[k]).Ok?;
      assert ParseDataDir(dirs[j]).Err?;
    } else {
      ParsedDirsOk(init);
    }
  }

  /** The name of data directory i's volume, `data-dir-{i}`. */
  function DataDirName(i: nat): string {
    VOLUME_NAME_DATA_DIR_PREFIX + NatToString(i)
  }

  // ---------------------------------------------------- claim templates

  /** The claim size: the worker size when storage is configured and sets
      one, else 20Gi. */
  function WorkerStorageSize(storage: Option<StorageConfig>): string {
    if storage.Some? && storage.value.workerSize.Some? then storage.value.workerSize.value
    else WORKER_DEFAULT_SIZE
  }

  /** The claim class: the worker class, else a shared class that is set,
      and none without a storage section. */
  function WorkerStorageClass(storage: Option<StorageConfig>): Option<string> {
    if storage.None? then None
    else FallbackClass(storage.value.workerStorageClass, storage.value.storageClass)
  }

  /** One claim per directory that is not in memory, named after its
      position. */
  function WorkerClaims(ds: seq<WorkerDataDir>, size: string, sc: Option<string>): (r: seq<PersistentVolumeClaim>)
    ensures |r| <= |ds|
  {
    if |ds| == 0 then []
    else
      var last := ds[|ds| - 1];
      WorkerClaims(ds[..|ds| - 1], size, sc)
      + (if last.storageType == Mem then [] else [ClaimTemplate(DataDirName(|ds| - 1), None, size, sc)])
  }

  /** What `build_volume_claim_templates` returns. */
  function WorkerClaimTemplates(b: WorkerBuilder): Result<Option<seq<PersistentVolumeClaim>>, KubeError> {
    match ParsedDirs(b.clusterConf.worker.dataDir)
    case Err(e) => Err(e)
    case Ok(ds) =>
      var cs := WorkerClaims(ds, WorkerStorageSize(b.config.storage), WorkerStorageClass(b.config.storage));
      Ok(if |cs| == 0 then None else Some(cs))
  }

  /** `build_volume_claim_templates` */
  method BuildClaimTemplates(b: WorkerBuilder) returns (r: Result<Option<seq<PersistentVolumeClaim>>, KubeError>)
    ensures r == WorkerClaimTemplates(b)
  {
    var parsed := ParseDataDirs(b.clusterConf.worker.dataDir);
    if parsed.Err? {
      return Err(parsed.error);
    }
    var ds := parsed.value;
    var size := WorkerStorageSize(b.config.storage);
    var sc := WorkerStorageClass(b.config.storage);
    var templates: seq<PersistentVolumeClaim> := [];
    var i := 0;
    while i < |ds|
      invariant i <= |ds|
      invariant templates == WorkerClaims(ds[..i], size, sc)
    {
      assert ds[..i + 1][..i] == ds[..i];
      if ds[i].storageType != Mem {
        templates := templates + [ClaimTemplate(DataDirName(i), None, size, sc)];
      }
      i := i + 1;
    }
    assert ds[..i] == ds;
    r := Ok(if |templates| == 0 then None else Some(templates));
  }

  /** The claims are exactly one per directory not in memory, named after
      that directory's position, all of one size and class; there are none
      exactly when every directory is in memory. */
  lemma {:induction false} WorkerClaimsContents(ds: seq<WorkerDataDir>, size: string, sc: Option<string>)
    ensures forall c :: c in WorkerClaims(ds, size, sc) ==>
      exists i :: 0 <= i < |ds| && ds[i].storageType != Mem && c == ClaimTemplate(DataDirName(i), None, size, sc)
    ensures forall i :: 0 <= i < |ds| && ds[i].storageType != Mem ==>
      ClaimTemplate(DataDirName(i), None, size, sc) in WorkerClaims(ds, size, sc)
    ensures |WorkerClaims(ds, size, sc)| == 0 <==> forall i :: 0 <= i < |ds| ==> ds[i].storageType == Mem
  {
    if |ds| > 0 {
      var init := ds[..|ds| - 1];
      WorkerClaimsContents(init, size, sc);
      forall c | c in WorkerClaims(ds, size, sc)
        ensures exists i :: 0 <= i < |ds| && ds[i].storageType != Mem && c == ClaimTemplate(DataDirName(i), None, size, sc)
      {
        if c in WorkerClaims(init, size, sc) {
          var i :| 0 <= i < |init| && init[i].storageType != Mem && c == ClaimTemplate(DataDirName(i), None, size, sc);
          assert ds[i] == init[i];
        }
      }
      forall i | 0 <= i < |ds| && ds[i].storageType != Mem
        ensures ClaimTemplate(DataDirName(i), None, size, sc) in WorkerClaims(ds, size, sc)
      {
        if i < |ds| - 1 {
          assert init[i] == ds[i];
        }
      }
      if exists i :: 0 <= i < |ds| && ds[i].storageType != Mem {
        var i :| 0 <= i < |ds| && ds[i].storageType != Mem;
        assert ClaimTemplate(DataDirName(i), None, size, sc) in WorkerClaims(ds, size, sc);
      } else {
        assert forall i :: 0 <= i < |init| ==> init[i].storageType == Mem by {
          forall i | 0 <= i < |init| ensures init[i].storageType == Mem { assert init[i] == ds[i]; }
        }
      }
    }
  }

  // ------------------------------------------------------------ volumes

  /** The volume data directory i gets, if any: a host path when one is
      configured for its path, else a memory-backed empty dir for a memory
      tier, else none (its storage comes from a claim). */
  function DataVolume(i: nat, d: WorkerDataDir, hostPaths: Option<StringMap>): (r: Option<Volume>)
    ensures r.Some? ==> r.value.name == DataDirName(i)
    ensures hostPaths.Some? && d.path in hostPaths.value ==>
      r == Some(Volume(DataDirName(i), HostPathSource(hostPaths.value[d.path], Some(VOLUME_TYPE_DIRECTORY_OR_CREATE))))
    ensures !(hostPaths.Some? && d.path in hostPaths.value) ==> (r.Some? <==> d.storageType == Mem)
    ensures !(hostPaths.Some? && d.path in hostPaths.value) && r.Some? ==>
      r.value.source.EmptyDirSource? && r.value.source.medium == Some(VOLUME_MEDIUM_MEMORY)
      && (r.value.source.sizeLimit.Some? <==> d.capacity > 0)
      && (d.capacity > 0 ==> r.value.source.sizeLimit == Some(FormatBytes(d.capacity)))
  {
    if hostPaths.Some? && d.path in hostPaths.value then
      Some(Volume(DataDirName(i), HostPathSource(hostPaths.value[d.path], Some(VOLUME_TYPE_DIRECTORY_OR_CREATE))))
    else if d.storageType == Mem then
      Some(Volume(DataDirName(i), EmptyDirSource(Some(VOLUME_MEDIUM_MEMORY),
        if d.capacity > 0 then Some(FormatBytes(d.capacity)) else None)))
    else None
  }

  /** The data volumes, in directory order. */
  function DataVolumes(ds: seq<WorkerDataDir>, hostPaths: Option<StringMap>): seq<Volume> {
    if |ds| == 0 then []
    else
      var v := DataVolume(|ds| - 1, ds[|ds| - 1], hostPaths);
      DataVolumes(ds[..|ds| - 1], hostPaths) + (if v.Some? then [v.value] else [])
  }

  /** What `build_volumes_impl` returns: the configuration volume first. */
  function WorkerVolumes(b: WorkerBuilder): Result<seq<Volume>, KubeError> {
    match ParsedDirs(b.clusterConf.worker.dataDir)
    case Err(e) => Err(e)
    case Ok(ds) => Ok([ConfigVolume(b.clusterId)] + DataVolumes(ds, b.config.worker.hostPathStorage))
  }

  /** `build_volumes_impl` */
  method BuildVolumes(b: WorkerBuilder) returns (r: Result<seq<Volume>, KubeError>)
    ensures r == WorkerVolumes(b)
  {
    var volumes := [ConfigVolume(b.clusterId)];
    var parsed := ParseDataDirs(b.clusterConf.worker.dataDir);
    if parsed.Err? {
      return Err(parsed.error);
    }
    var ds := parsed.value;
    var hostPaths := b.config.worker.hostPathStorage;
    var i := 0;
    while i < |ds|
      invariant i <= |ds|
      invariant volumes == [ConfigVolume(b.clusterId)] + DataVolumes(ds[..i], hostPaths)
    {
      assert ds[..i + 1][..i] == ds[..i];
      var name := DataDirName(i);
      var d := ds[i];
      if hostPaths.Some? && d.path in hostPaths.value {
        volumes := volumes + [Volume(name, HostPathSource(hostPaths.value[d.path], Some(VOLUME_TYPE_DIRECTORY_OR_CREATE)))];
      } else if d.storageType == Mem {
        var sizeLimit := if d.capacity > 0 then Some(FormatBytes(d.capacity)) else None;
        volumes := volumes + [Volume(name, EmptyDirSource(Some(VOLUME_MEDIUM_MEMORY), sizeLimit))];
      }
      i := i + 1;
    }
    assert ds[..i] == ds;
    r := Ok(volumes);
  }

  /** The data volumes are exactly those of the directories that get one,
      each once. */
  lemma {:induction false} DataVolumesContents(ds: seq<WorkerDataDir>, hostPaths: Option<StringMap>)
    ensures forall i :: 0 <= i < |ds| && DataVolume(i, ds[i], hostPaths).Some? ==>
      DataVolume(i, ds[i], hostPaths).value in DataVolumes(ds, hostPaths)
    ensures forall v :: v in DataVolumes(ds, hostPaths) ==>
      exists i :: 0 <= i < |ds| && DataVolume(i, ds[i], hostPaths) == Some(v)
  {
    if |ds| > 0 {
      var init := ds[..|ds| - 1];
      DataVolumesContents(init, hostPaths);
      forall i | 0 <= i < |ds| && DataVolume(i, ds[i], hostPaths).Some?
        ensures DataVolume(i, ds[i], hostPaths).value in DataVolumes(ds, hostPaths)
      {
        if i < |ds| - 1 {
          assert init[i] == ds[i];
        }
      }
      forall v | v in DataVolumes(ds, hostPaths)
        ensures exists i :: 0 <= i < |ds| && DataVolume(i, ds[i], hostPaths) == Some(v)
      {
        if v in DataVolumes(init, hostPaths) {
          var i :| 0 <= i < |init| && DataVolume(i, init[i], hostPaths) == Some(v);
          assert init[i] == ds[i];
        }
      }
    }
  }

  // ------------------------------------------------------------- mounts

  /** Data directory i mounted writable at its own path. */
  function DataMount(i: nat, d: WorkerDataDir): VolumeMount {
    VolumeMount(DataDirName(i), d.path, None, Some(false))
  }

  function DataMounts(ds: seq<WorkerDataDir>): (r: seq<VolumeMount>)
    ensures |r| == |ds|
  {
    if |ds| == 0 then [] else DataMounts(ds[..|ds| - 1]) + [DataMount(|ds| - 1, ds[|ds| - 1])]
  }

  /** What `build_volume_mounts_impl` returns: the configuration mount,
      then one mount per directory. */
  function WorkerMounts(b: WorkerBuilder): Result<seq<VolumeMount>, KubeError> {
    match ParsedDirs(b.clusterConf.worker.dataDir)
    case Err(e) => Err(e)
    case Ok(ds) => Ok([ConfigMount] + DataMounts(ds))
  }

  /** `build_volume_mounts_impl` */
  method BuildMounts(b: WorkerBuilder) returns (r: Result<seq<VolumeMount>, KubeError>)
    ensures r == WorkerMounts(b)
  {
    var mounts := [ConfigMount];
    var parsed := ParseDataDirs(b.clusterConf.worker.dataDir);
    if parsed.Err? {
      return Err(parsed.error);
    }
    var ds := parsed.value;
    var i := 0;
    while i < |ds|
      invariant i <= |ds|
      invariant mounts == [ConfigMount] + DataMounts(ds[..i])
    {
      assert ds[..i + 1][..i] == ds[..i];
      mounts := mounts + [VolumeMount(DataDirName(i), ds[i].path, None, Some(false))];
      i := i + 1;
    }
    assert ds[..i] == ds;
    r := Ok(mounts);
  }

  /** One mount per directory, in order, at the directory's path. */
  lemma {:induction false} DataMountsAt(ds: seq<WorkerDataDir>)
    ensures |DataMounts(ds)| == |ds|
    ensures forall i :: 0 <= i < |ds| ==> DataMounts(ds)[i] == DataMount(i, ds[i])
  {
    if |ds| > 0 {
      DataMountsAt(ds[..|ds| - 1]);
    }
  }

  /** Each data mount carries its directory's volume name, and that name
      is backed by a pod volume or by a claim; a directory not in memory
      that has a host path gets both. */
  lemma DataMountsBacked(ds: seq<WorkerDataDir>, hp: Option<StringMap>, size: string, sc: Option<string>)
    ensures forall i :: 0 <= i < |ds| ==>
      DataMounts(ds)[i].name == DataDirName(i)
      && ((DataVolume(i, ds[i], hp).Some? && DataVolume(i, ds[i], hp).value in DataVolumes(ds, hp))
          || ClaimTemplate(DataDirName(i), None, size, sc) in WorkerClaims(ds, size, sc))
    ensures forall i :: 0 <= i < |ds| && ds[i].storageType != Mem && hp.Some? && ds[i].path in hp.value ==>
      DataVolume(i, ds[i], hp).Some? && ClaimTemplate(DataDirName(i), None, size, sc) in WorkerClaims(ds, size, sc)
  {
    DataMountsAt(ds);
    DataVolumesContents(ds, hp);
    WorkerClaimsContents(ds, size, sc);
  }

  /** Every mount names one of the volumes or one of the claims. */
  lemma MountsNameVolumesOrClaims(clusterId: string, ds: seq<WorkerDataDir>, hp: Option<StringMap>,
                                  size: string, sc: Option<string>)
    ensures var vs := [ConfigVolume(clusterId)] + DataVolumes(ds, hp);
      var cs := WorkerClaims(ds, size, sc);
      forall m :: m in [ConfigMount] + DataMounts(ds) ==>
        (exists v :: v in vs && v.name == m.name) || (exists c :: c in cs && c.metadata.name == Some(m.name))
  {
    DataMountsBacked(ds, hp, size, sc);
    var ms := [ConfigMount] + DataMounts(ds);
    var vs := [ConfigVolume(clusterId)] + DataVolumes(ds, hp);
    var cs := WorkerClaims(ds, size, sc);
    forall m | m in ms
      ensures (exists v :: v in vs && v.name == m.name) || (exists c :: c in cs && c.metadata.name == Some(m.name))
    {
      var k :| 0 <= k < |ms| && ms[k] == m;
      if k == 0 {
        assert vs[0] in vs;
      } else {
        var i := k - 1;
        assert m == DataMounts(ds)[i];
        var v := DataVolume(i, ds[i], hp);
        if v.Some? && v.value in DataVolumes(ds, hp) {
          assert v.value in vs;
        } else {
          assert ClaimTemplate(DataDirName(i), None, size, sc) in cs;
        }
      }
    }
  }

  /** Every mount of a built worker pod names a volume of the pod or one of
      the StatefulSet's claim templates. */
  lemma WorkerMountsBacked(b: WorkerBuilder)
    requires ParsedDirs(b.clusterConf.worker.dataDir).Ok?
    ensures WorkerMounts(b).Ok? && WorkerVolumes(b).Ok? && WorkerClaimTemplates(b).Ok?
    ensures |WorkerMounts(b).value| == 1 + |b.clusterConf.worker.dataDir|
    ensures forall m :: m in WorkerMounts(b).value ==>
      (exists v :: v in WorkerVolumes(b).value && v.name == m.name)
      || (WorkerClaimTemplates(b).value.Some?
          && exists c :: c in WorkerClaimTemplates(b).value.value && c.metadata.name == Some(m.name))
  {
    var ds := ParsedDirs(b.clusterConf.worker.dataDir).value;
    MountsNameVolumesOrClaims(b.clusterId, ds, b.config.worker.hostPathStorage,
      WorkerStorageSize(b.config.storage), WorkerStorageClass(b.config.storage));
  }

  // ----------------------------------------------------------- the pod

  /** `build_affinity`: when asked for, a preference to keep worker pods of
      the cluster off each other's node. */
  function WorkerAffinity(clusterId: string, antiAffinity: bool): (r: Option<Affinity>)
    ensures r.None? <==> !antiAffinity
  {
    if !antiAffinity then None
    else Some(PreferredPodAntiAffinity(100,
      [LabelRequirement(LABEL_APP, "In", [clusterId]), LabelRequirement(LABEL_COMPONENT, "In", [COMPONENT_WORKER])],
      TOPOLOGY_KEY_HOSTNAME))
  }

  /** The anti-affinity matches exactly the worker pods' selector labels,
      per node, at the highest weight. */
  lemma AffinityMatchesWorkers(clusterId: string)
    ensures var a := WorkerAffinity(clusterId, true).value;
      var sel := SelectorLabels(clusterId, COMPONENT_WORKER);
      && a.PreferredPodAntiAffinity? && a.weight == 100 && a.topologyKey == TOPOLOGY_KEY_HOSTNAME
      && (forall req :: req in a.matchExpressions ==> req.operator == "In" && req.key in sel && req.values == [sel[req.key]])
      && (forall k :: k in sel ==> exists req :: req in a.matchExpressions && req.key == k)
  {
    var a := WorkerAffinity(clusterId, true).value;
    assert a.matchExpressions[0] in a.matchExpressions && a.matchExpressions[1] in a.matchExpressions;
  }

  /** The address the init container polls: the headless master Service. */
  function MasterServiceHost(clusterId: string, namespace: string, domain: string): string {
    HeadlessService.HeadlessName(clusterId) + "." + namespace + ".svc." + domain
  }

  const WAIT_HEAD := "until nc -z "
  const WAIT_TAIL := "; do echo waiting for master; sleep 2; done"

  /** `build_init_containers`: when asked for, a container that waits until
      the master's RPC port answers. */
  function WorkerInitContainers(b: WorkerBuilder): (r: Option<seq<Container>>)
    ensures r.None? <==> !b.config.worker.initContainer
    ensures r.Some? ==> |r.value| == 1 && r.value[0].image == Some(INIT_CONTAINER_IMAGE)
  {
    if !b.config.worker.initContainer then None
    else
      var host := MasterServiceHost(b.clusterId, b.namespace, b.config.clusterDomain);
      Some([DefaultContainer.(name := "wait-for-master", image := Some(INIT_CONTAINER_IMAGE),
                              command := Some(["sh", "-c"]),
                              args := Some([WAIT_HEAD + host + " " + NatToString(MASTER_RPC_PORT) + WAIT_TAIL]))])
  }

  /** The init container runs a shell loop polling the headless master
      Service's name on the master RPC port. */
  lemma InitContainerWaitsForMaster(b: WorkerBuilder)
    requires b.config.worker.initContainer
    ensures var c := WorkerInitContainers(b).value[0];
      var host := HeadlessService.HeadlessName(b.clusterId) + "." + b.namespace + ".svc." + b.config.clusterDomain;
      && c.command == Some(["sh", "-c"])
      && c.args.Some? && |c.args.value| == 1
      && StartsWith(c.args.value[0], "until nc -z " + host + " " + NatToString(MASTER_RPC_PORT))
      && EndsWith(c.args.value[0], WAIT_TAIL)
  {
    var host := MasterServiceHost(b.clusterId, b.namespace, b.config.clusterDomain);
    var head := WAIT_HEAD + host + " " + NatToString(MASTER_RPC_PORT);
    ConcatAffixes(head, WAIT_TAIL);
  }

  /** The DNS policy: the configured one, else the host-network policy
      when the pod uses the host network, else none. */
  function WorkerDnsPolicy(w: WorkerConfig): (r: Option<string>)
    ensures w.dnsPolicy.Some? ==> r == w.dnsPolicy
    ensures w.dnsPolicy.None? ==> (r.Some? <==> w.hostNetwork)
    ensures w.dnsPolicy.None? && r.Some? ==> r.value == DNS_POLICY_CLUSTER_FIRST_WITH_HOST_NET
  {
    if w.dnsPolicy.Some? then w.dnsPolicy
    else if w.hostNetwork then Some(DNS_POLICY_CLUSTER_FIRST_WITH_HOST_NET)
    else None
  }

  /** The worker's environment; `envKeys` is the order its custom map
      iterates in. */
  function WorkerEnv(b: WorkerBuilder, envKeys: seq<string>): seq<EnvVar>
    requires EnvBuilder.IsKeyOrder(envKeys, b.config.worker.envVars)
  {
    var eb := EnvBuilder.WithCustomVars(
      EnvBuilder.NewEnvBuilder(COMPONENT_WORKER, b.clusterId, b.namespace, b.config.clusterDomain),
      b.config.worker.envVars);
    assert eb.customVars == b.config.worker.envVars;
    EnvBuilder.Build(eb, envKeys)
  }

  const WorkerPorts: seq<ContainerPort> := [
    ContainerPort(WORKER_RPC_PORT, Some(PORT_NAME_RPC)),
    ContainerPort(WORKER_WEB_PORT, Some(PORT_NAME_WEB))]

  function WorkerContainer(b: WorkerBuilder, envKeys: seq<string>): Container
    requires EnvBuilder.IsKeyOrder(envKeys, b.config.worker.envVars)
  {
    var w := b.config.worker;
    Container(CONTAINER_NAME_WORKER, Some(w.image), Some(b.config.imagePullPolicy), None,
      Some([COMPONENT_WORKER]), Some(APP_HOME), Some(WorkerEnv(b, envKeys)), Some(WorkerPorts),
      None, w.resources, None, None,
      DefaultGracefulShutdown(COMPONENT_WORKER, w.gracefulShutdown), Some(SECURITY_PRIVILEGED))
  }

  /** The pod labels: the selector labels, overwritten by the user's. */
  function WorkerPodLabels(b: WorkerBuilder): StringMap {
    SelectorLabels(b.clusterId, COMPONENT_WORKER) + b.config.worker.labels
  }

  /** `build_base_pod_impl` */
  function BaseWorkerPod(b: WorkerBuilder, envKeys: seq<string>): Pod
    requires EnvBuilder.IsKeyOrder(envKeys, b.config.worker.envVars)
  {
    var w := b.config.worker;
    Pod(ObjectMeta(None, None, Some(WorkerPodLabels(b)), NonEmptyMap(w.annotations), None, None),
      Some(PodSpec([WorkerContainer(b, envKeys)], WorkerInitContainers(b), None, w.nodeSelector,
        WorkerAffinity(b.clusterId, w.antiAffinity), NonEmptySeq(w.tolerations), Some(RESTART_POLICY_ALWAYS),
        w.serviceAccount, Some(w.hostNetwork), WorkerDnsPolicy(w), w.priorityClass)))
  }

  /** The worker container runs the worker privileged from the application
      directory on its two ports, with no probes; the pod's host network,
      DNS policy, init containers and anti-affinity follow the
      configuration, and its labels let the user's win. */
  lemma BaseWorkerPodShape(b: WorkerBuilder, envKeys: seq<string>)
    requires EnvBuilder.IsKeyOrder(envKeys, b.config.worker.envVars)
    ensures var c := WorkerContainer(b, envKeys);
      && c.name == CONTAINER_NAME_WORKER && c.args == Some([COMPONENT_WORKER])
      && c.workingDir == Some(APP_HOME) && c.privileged == Some(true)
      && c.ports == Some(WorkerPorts) && WorkerPorts[0].containerPort == WORKER_RPC_PORT
      && c.livenessProbe.None? && c.readinessProbe.None?
      && (c.lifecycle.Some? <==> b.config.worker.gracefulShutdown)
    ensures var pod := BaseWorkerPod(b, envKeys);
      var w := b.config.worker;
      && pod.spec.value.containers == [WorkerContainer(b, envKeys)]
      && pod.spec.value.hostNetwork == Some(w.hostNetwork)
      && pod.spec.value.dnsPolicy == WorkerDnsPolicy(w)
      && (pod.spec.value.initContainers.Some? <==> w.initContainer)
      && (pod.spec.value.affinity.Some? <==> w.antiAffinity)
      && (pod.metadata.annotations.None? <==> |w.annotations| == 0)
      && (forall k :: k in w.labels ==> pod.metadata.labels.value[k] == w.labels[k])
      && (forall k :: k in SelectorLabels(b.clusterId, COMPONENT_WORKER) && k !in w.labels ==>
            pod.metadata.labels.value[k] == SelectorLabels(b.clusterId, COMPONENT_WORKER)[k])
  {
  }

  // ------------------------------------------------------- StatefulSet

  /** The StatefulSet around a finished pod and its claims. */
  function WorkerStatefulSetOf(b: WorkerBuilder, pod: Pod, claims: Option<seq<PersistentVolumeClaim>>,
                               ownerUid: Option<string>): StatefulSet {
    var name := b.clusterId + SERVICE_SUFFIX_WORKER;
    var meta := ObjectMeta(Some(name), Some(b.namespace), Some(ResourceLabels(b.clusterId, COMPONENT_WORKER)),
                           None, OwnerReferences(b.clusterId, ownerUid), None);
    StatefulSet(meta,
      Some(StatefulSetSpec(Some(b.config.worker.replicas), name, Some(SelectorLabels(b.clusterId, COMPONENT_WORKER)),
        PodTemplateSpec(Some(pod.metadata), pod.spec), claims, Some(POD_MANAGEMENT_POLICY_PARALLEL))),
      None)
  }

  /** What `build_with_owner` returns: template, volumes, mounts, the
      merge, then the claims, the first failure stopping it. */
  function WorkerBuild(b: WorkerBuilder, envKeys: seq<string>, load: Result<CurvinePod, KubeError>,
                       ownerUid: Option<string>): Result<StatefulSet, KubeError>
    requires EnvBuilder.IsKeyOrder(envKeys, b.config.worker.envVars)
  {
    match LoadTemplate(b.config.worker.podTemplate, load)
    case Err(e) => Err(e)
    case Ok(template) =>
      match WorkerVolumes(b)
      case Err(e) => Err(e)
      case Ok(volumes) =>
        match WorkerMounts(b)
        case Err(e) => Err(e)
        case Ok(mounts) =>
          match MergePod(template, BaseWorkerPod(b, envKeys), volumes, mounts, ResourceLabels(b.clusterId, COMPONENT_WORKER))
          case Err(e) => Err(e)
          case Ok(pod) =>
            match WorkerClaimTemplates(b)
            case Err(e) => Err(e)
            case Ok(claims) => Ok(WorkerStatefulSetOf(b, pod, claims, ownerUid))
  }

  /** `build_with_owner` */
  method BuildWithOwner(b: WorkerBuilder, envKeys: seq<string>, load: Result<CurvinePod, KubeError>,
                        ownerUid: Option<string>) returns (r: Result<StatefulSet, KubeError>)
    requires EnvBuilder.IsKeyOrder(envKeys, b.config.worker.envVars)
    ensures r == WorkerBuild(b, envKeys, load, ownerUid)
  {
    var template := LoadTemplate(b.config.worker.podTemplate, load);
    if template.Err? {
      return Err(template.error);
    }
    var builderPod := BaseWorkerPod(b, envKeys);
    var volumes := BuildVolumes(b);
    if volumes.Err? {
      return Err(volumes.error);
    }
    var mounts := BuildMounts(b);
    if mounts.Err? {
      return Err(mounts.error);
    }
    var pod := MergePodWithTemplate(template.value, builderPod, volumes.value, mounts.value,
                                    ResourceLabels(b.clusterId, COMPONENT_WORKER));
    if pod.Err? {
      return Err(pod.error);
    }
    var claims := BuildClaimTemplates(b);
    if claims.Err? {
      return Err(claims.error);
    }
    r := Ok(WorkerStatefulSetOf(b, pod.value, claims.value, ownerUid));
  }

  /** A data directory that does not parse fails the build with its error
      unless the template failed first; without a template and with every
      directory parsed, the build succeeds. */
  lemma WorkerBuildErrors(b: WorkerBuilder, envKeys: seq<string>, load: Result<CurvinePod, KubeError>,
                          ownerUid: Option<string>)
    requires EnvBuilder.IsKeyOrder(envKeys, b.config.worker.envVars)
    ensures b.config.worker.podTemplate.Some? && load.Err? ==> WorkerBuild(b, envKeys, load, ownerUid) == Err(load.error)
    ensures LoadTemplate(b.config.worker.podTemplate, load).Ok? && ParsedDirs(b.clusterConf.worker.dataDir).Err? ==>
      WorkerBuild(b, envKeys, load, ownerUid) == Err(ParsedDirs(b.clusterConf.worker.dataDir).error)
    ensures b.config.worker.podTemplate.None? && ParsedDirs(b.clusterConf.worker.dataDir).Ok? ==>
      WorkerBuild(b, envKeys, load, ownerUid).Ok?
  {
  }

  /** A built StatefulSet is named after the cluster, always sets the
      replica count, is owned by the ConfigMap exactly when a uid is given,
      and has claim templates exactly when some directory is not in memory. */
  lemma WorkerBuildShape(b: WorkerBuilder, envKeys: seq<string>, load: Result<CurvinePod, KubeError>,
                         ownerUid: Option<string>)
    requires EnvBuilder.IsKeyOrder(envKeys, b.config.worker.envVars)
    requires WorkerBuild(b, envKeys, load, ownerUid).Ok?
    ensures var ss := WorkerBuild(b, envKeys, load, ownerUid).value;
      var dirs := b.clusterConf.worker.dataDir;
      && ParsedDirs(dirs).Ok?
      && ss.metadata.name == Some(b.clusterId + "-worker")
      && ss.metadata.labels == Some(ResourceLabels(b.clusterId, COMPONENT_WORKER))
      && ss.metadata.ownerReferences == OwnerReferences(b.clusterId, ownerUid)
      && ss.spec.value.replicas == Some(b.config.worker.replicas)
      && ss.spec.value.serviceName == b.clusterId + "-worker"
      && ss.spec.value.selector == Some(SelectorLabels(b.clusterId, COMPONENT_WORKER))
      && ss.spec.value.volumeClaimTemplates == WorkerClaimTemplates(b).value
      && (ss.spec.value.volumeClaimTemplates.None? <==>
            forall i :: 0 <= i < |dirs| ==> ParsedDirs(dirs).value[i].storageType == Mem)
  {
    var dirs := b.clusterConf.worker.dataDir;
    assert ParsedDirs(dirs).Ok?;
    var ds := ParsedDirs(dirs).value;
    WorkerClaimsContents(ds, WorkerStorageSize(b.config.storage), WorkerStorageClass(b.config.storage));
  }
}
