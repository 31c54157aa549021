/** The master StatefulSet
    (src/infrastructure/kubernetes/resources/statefulset/master.rs): one
    container running the master, its configuration file from the
    ConfigMap, and two claimed volumes for the metadata and the journal. */
module MasterStatefulSet {
  import opened Wrappers
  import opened Strings
  import opened K8s
  import opened Constants
  import opened KubeConfig
  import opened Labels
  import opened PodLifecycle
  import EnvBuilder
  import opened PodTemplate
  import opened PodMerger
  import opened ManifestCommon

  /** `MasterBuilder` */
  datatype MasterBuilder = MasterBuilder(
    clusterId: string, namespace: string, config: KubernetesConfig,
    clusterConf: CurvineConf.ClusterConf, isUpdateMode: bool)

  /** The four ports the master listens on. */
  const MasterPorts: seq<ContainerPort> := [
    ContainerPort(MASTER_RPC_PORT, Some(PORT_NAME_RPC)),
    ContainerPort(MASTER_JOURNAL_PORT, Some(PORT_NAME_JOURNAL)),
    ContainerPort(MASTER_WEB_PORT, Some(PORT_NAME_WEB)),
    ContainerPort(MASTER_WEB1_PORT, Some(PORT_NAME_WEB1))]

  /** A TCP check on the RPC port, started late and run rarely. */
  const MasterLiveness := Probe(Some(MASTER_RPC_PORT), Some(LIVENESS_INITIAL_DELAY), Some(LIVENESS_PERIOD),
                                Some(LIVENESS_TIMEOUT), Some(LIVENESS_FAILURE_THRESHOLD))

  /** The master's environment; `envKeys` is the order its custom map
      iterates in. */
  function MasterEnv(b: MasterBuilder, envKeys: seq<string>): seq<EnvVar>
    requires EnvBuilder.IsKeyOrder(envKeys, b.config.master.envVars)
  {
    var eb := EnvBuilder.WithCustomVars(
      EnvBuilder.NewEnvBuilder(COMPONENT_MASTER, b.clusterId, b.namespace, b.config.clusterDomain),
      b.config.master.envVars);
    assert eb.customVars == b.config.master.envVars;
    EnvBuilder.Build(eb, envKeys)
  }

  function MasterContainer(b: MasterBuilder, envKeys: seq<string>): Container
    requires EnvBuilder.IsKeyOrder(envKeys, b.config.master.envVars)
  {
    var m := b.config.master;
    Container(CONTAINER_NAME_MASTER, Some(m.image), Some(b.config.imagePullPolicy), None,
      Some([COMPONENT_MASTER]), Some(APP_HOME), Some(MasterEnv(b, envKeys)), Some(MasterPorts),
      None, m.resources, Some(MasterLiveness), None,
      DefaultGracefulShutdown(COMPONENT_MASTER, m.gracefulShutdown), None)
  }

  /** The pod labels: the selector labels, overwritten by the user's. */
  function MasterPodLabels(b: MasterBuilder): StringMap {
    SelectorLabels(b.clusterId, COMPONENT_MASTER) + b.config.master.labels
  }

  /** `build_base_pod_impl` */
  function BaseMasterPod(b: MasterBuilder, envKeys: seq<string>): Pod
    requires EnvBuilder.IsKeyOrder(envKeys, b.config.master.envVars)
  {
    var m := b.config.master;
    Pod(ObjectMeta(None, None, Some(MasterPodLabels(b)), NonEmptyMap(m.annotations), None, None),
      Some(PodSpec([MasterContainer(b, envKeys)], None, None, m.nodeSelector, m.affinity,
        NonEmptySeq(m.tolerations), Some(RESTART_POLICY_ALWAYS), m.serviceAccount, None,
        m.dnsPolicy, m.priorityClass)))
  }

  /** `build_volumes_impl`: the master's data lives on claimed volumes, so
      the pod itself carries the configuration volume only. */
  function MasterVolumes(b: MasterBuilder): (r: seq<Volume>)
    ensures |r| == 1 && r[0].name == VOLUME_NAME_CONFIG
    ensures r[0].source.ConfigMapSource? && r[0].source.configMapName == ConfigMapName(b.clusterId)
  {
    [ConfigVolume(b.clusterId)]
  }

  /** `build_volume_mounts_impl` */
  function MasterMounts(b: MasterBuilder): seq<VolumeMount> {
    [ConfigMount,
     VolumeMount(VOLUME_NAME_META_DATA, ResolvePath(b.clusterConf.master.metaDir), None, Some(false)),
     VolumeMount(VOLUME_NAME_JOURNAL_DATA, ResolvePath(b.clusterConf.journal.journalDir), None, Some(false))]
  }

  /** The size of both claims: the master size, else the default. */
  function MasterStorageSize(storage: Option<StorageConfig>): string {
    if storage.Some? && storage.value.masterSize.Some? then storage.value.masterSize.value
    else DEFAULT_STORAGE_SIZE
  }

  /** The class of both claims: the master class, else a shared class that
      is set, and none without a storage section. */
  function MasterStorageClass(storage: Option<StorageConfig>): Option<string> {
    if storage.None? then None
    else FallbackClass(storage.value.masterStorageClass, storage.value.storageClass)
  }

  /** `build_volume_claim_templates` */
  function MasterClaimTemplates(b: MasterBuilder): seq<PersistentVolumeClaim> {
    var labels := Some(ResourceLabels(b.clusterId, COMPONENT_MASTER));
    var size := MasterStorageSize(b.config.storage);
    var sc := MasterStorageClass(b.config.storage);
    [ClaimTemplate(VOLUME_NAME_META_DATA, labels, size, sc),
     ClaimTemplate(VOLUME_NAME_JOURNAL_DATA, labels, size, sc)]
  }

  /** The StatefulSet around a finished pod. */
  function MasterStatefulSetOf(b: MasterBuilder, pod: Pod, ownerUid: Option<string>): StatefulSet {
    var name := b.clusterId + SERVICE_SUFFIX_MASTER;
    var meta := ObjectMeta(Some(name), Some(b.namespace), Some(ResourceLabels(b.clusterId, COMPONENT_MASTER)),
                           None, OwnerReferences(b.clusterId, ownerUid), None);
    StatefulSet(meta,
      Some(StatefulSetSpec(
        if b.isUpdateMode then None else Some(b.config.master.replicas),
        name, Some(SelectorLabels(b.clusterId, COMPONENT_MASTER)),
        PodTemplateSpec(Some(pod.metadata), pod.spec),
        Some(MasterClaimTemplates(b)), Some(POD_MANAGEMENT_POLICY_PARALLEL))),
      None)
  }

  /** `build_with_owner`: load the template if one is configured, merge it
      with the builder's pod, volumes and mounts, and wrap the result. */
  function BuildWithOwner(b: MasterBuilder, envKeys: seq<string>, load: Result<CurvinePod, KubeError>,
                          ownerUid: Option<string>): Result<StatefulSet, KubeError>
    requires EnvBuilder.IsKeyOrder(envKeys, b.config.master.envVars)
  {
    match LoadTemplate(b.config.master.podTemplate, load)
    case Err(e) => Err(e)
    case Ok(template) =>
      match MergePod(template, BaseMasterPod(b, envKeys), MasterVolumes(b), MasterMounts(b),
                     ResourceLabels(b.clusterId, COMPONENT_MASTER))
      case Err(e) => Err(e)
      case Ok(pod) => Ok(MasterStatefulSetOf(b, pod, ownerUid))
  }

  // ------------------------------------------------------------ properties

  /** The container runs the master from the application directory,
      exposes its four ports, is checked only for liveness, by TCP on the
      RPC port, and gets a stop hook exactly when graceful shutdown is on. */
  lemma MasterContainerShape(b: MasterBuilder, envKeys: seq<string>)
    requires EnvBuilder.IsKeyOrder(envKeys, b.config.master.envVars)
    ensures var c := MasterContainer(b, envKeys);
      && c.name == CONTAINER_NAME_MASTER && c.args == Some([COMPONENT_MASTER])
      && c.workingDir == Some(APP_HOME)
      && c.image == Some(b.config.master.image) && c.imagePullPolicy == Some(b.config.imagePullPolicy)
      && c.livenessProbe.Some? && c.livenessProbe.value.tcpSocketPort == Some(MASTER_RPC_PORT)
      && c.readinessProbe.None?
      && (c.lifecycle.Some? <==> b.config.master.gracefulShutdown)
      && c.resources == b.config.master.resources
    ensures var ps := MasterContainer(b, envKeys).ports.value;
      && |ps| == 4
      && (forall i, j :: 0 <= i < j < |ps| ==> ps[i].containerPort != ps[j].containerPort && ps[i].name != ps[j].name)
      && ps[0].containerPort == MASTER_RPC_PORT && ps[1].containerPort == MASTER_JOURNAL_PORT
  {
  }

  /** The master's environment ends with its custom variables, each once,
      after the seven fixed ones and the master's own two. */
  lemma MasterEnvLayout(b: MasterBuilder, envKeys: seq<string>)
    requires EnvBuilder.IsKeyOrder(envKeys, b.config.master.envVars)
    ensures |MasterEnv(b, envKeys)| == 9 + |b.config.master.envVars|
    ensures MasterEnv(b, envKeys)[9..] == EnvBuilder.CustomEnvVars(b.config.master.envVars, envKeys)
  {
    var eb := EnvBuilder.WithCustomVars(
      EnvBuilder.NewEnvBuilder(COMPONENT_MASTER, b.clusterId, b.namespace, b.config.clusterDomain),
      b.config.master.envVars);
    assert eb.customVars == b.config.master.envVars;
    EnvBuilder.BuildLayout(eb, envKeys);
  }

  /** The pod's labels hold every user label, and every selector label
      the user did not override; its annotations and tolerations are
      absent exactly when none are configured. */
  lemma MasterPodLabelsWin(b: MasterBuilder, envKeys: seq<string>)
    requires EnvBuilder.IsKeyOrder(envKeys, b.config.master.envVars)
    ensures var pod := BaseMasterPod(b, envKeys);
      var labels := pod.metadata.labels.value;
      && labels.Keys == SelectorLabels(b.clusterId, COMPONENT_MASTER).Keys + b.config.master.labels.Keys
      && (forall k :: k in b.config.master.labels ==> labels[k] == b.config.master.labels[k])
      && (forall k :: k in SelectorLabels(b.clusterId, COMPONENT_MASTER) && k !in b.config.master.labels ==>
            labels[k] == SelectorLabels(b.clusterId, COMPONENT_MASTER)[k])
      && (pod.metadata.annotations.None? <==> |b.config.master.annotations| == 0)
      && (pod.spec.value.tolerations.None? <==> |b.config.master.tolerations| == 0)
      && pod.spec.value.containers == [MasterContainer(b, envKeys)]
  {
  }

  /** Three mounts: the configuration file read-only, then the metadata
      and journal directories, writable, at absolute paths that are the
      configured ones with relative paths placed under the Curvine home. */
  lemma MasterMountsShape(b: MasterBuilder)
    ensures var ms := MasterMounts(b);
      && |ms| == 3
      && ms[0] == ConfigMount
      && ms[1].name == VOLUME_NAME_META_DATA && ms[2].name == VOLUME_NAME_JOURNAL_DATA
      && ms[1].readOnly == Some(false) && ms[2].readOnly == Some(false)
      && StartsWith(ms[1].mountPath, "/") && StartsWith(ms[2].mountPath, "/")
      && (StartsWith(b.clusterConf.master.metaDir, "/") ==> ms[1].mountPath == b.clusterConf.master.metaDir)
      && (!StartsWith(b.clusterConf.master.metaDir, "/") ==>
            ms[1].mountPath == CURVINE_HOME + "/" + b.clusterConf.master.metaDir)
      && (StartsWith(b.clusterConf.journal.journalDir, "/") ==> ms[2].mountPath == b.clusterConf.journal.journalDir)
      && (!StartsWith(b.clusterConf.journal.journalDir, "/") ==>
            ms[2].mountPath == CURVINE_HOME + "/" + b.clusterConf.journal.journalDir)
  {
  }

  /** Exactly two claim templates, for the metadata and the journal, with
      one size and one class between them: the master size or 10Gi, and
      the master class, else a non-empty shared class, else none. */
  lemma MasterClaimsShape(b: MasterBuilder)
    ensures var cs := MasterClaimTemplates(b);
      && |cs| == 2
      && cs[0].metadata.name == Some(VOLUME_NAME_META_DATA) && cs[1].metadata.name == Some(VOLUME_NAME_JOURNAL_DATA)
      && cs[0].spec == cs[1].spec
      && cs[0].spec.value.accessModes == Some([DEFAULT_ACCESS_MODE])
      && cs[0].spec.value.resources.value.requests.value["storage"] == MasterStorageSize(b.config.storage)
      && cs[0].metadata.labels == Some(ResourceLabels(b.clusterId, COMPONENT_MASTER))
    ensures var s := b.config.storage;
      && (MasterStorageSize(s) == DEFAULT_STORAGE_SIZE || (s.Some? && s.value.masterSize == Some(MasterStorageSize(s))))
      && (s.Some? && s.value.masterSize.Some? ==> MasterStorageSize(s) == s.value.masterSize.value)
    ensures var s := b.config.storage;
      var sc := MasterClaimTemplates(b)[0].spec.value.storageClassName;
      && (sc.None? <==> s.None? || (s.value.masterStorageClass.None? && s.value.storageClass == ""))
      && (s.Some? && s.value.masterStorageClass.Some? ==> sc == s.value.masterStorageClass)
      && (s.Some? && s.value.masterStorageClass.None? && sc.Some? ==> sc.value == s.value.storageClass)
  {
  }

  /** Every mount of the builder's pod has a source: the configuration
      volume, or one of the claim templates; no volume and claim share a
      name. */
  lemma MasterMountsBacked(b: MasterBuilder)
    ensures forall m :: m in MasterMounts(b) ==>
      (exists v :: v in MasterVolumes(b) && v.name == m.name)
      || (exists c :: c in MasterClaimTemplates(b) && c.metadata.name == Some(m.name))
    ensures forall v, c :: v in MasterVolumes(b) && c in MasterClaimTemplates(b) ==> c.metadata.name != Some(v.name)
  {
    var cs := MasterClaimTemplates(b);
    assert cs[0] in cs && cs[1] in cs;
    assert MasterVolumes(b)[0] in MasterVolumes(b);
  }

  /** A build fails only through the template: when loading it fails, or
      when it mounts one of the builder's volumes elsewhere; without a
      template it always succeeds. */
  lemma BuildWithOwnerErrors(b: MasterBuilder, envKeys: seq<string>, load: Result<CurvinePod, KubeError>,
                             ownerUid: Option<string>)
    requires EnvBuilder.IsKeyOrder(envKeys, b.config.master.envVars)
    ensures b.config.master.podTemplate.None? ==> BuildWithOwner(b, envKeys, load, ownerUid).Ok?
    ensures b.config.master.podTemplate.Some? && load.Err? ==> BuildWithOwner(b, envKeys, load, ownerUid) == Err(load.error)
    ensures b.config.master.podTemplate.Some? && load.Ok? ==>
      (BuildWithOwner(b, envKeys, load, ownerUid).Err?
       <==> MountsValid(load.value.mainContainer.volumeMounts.GetOr([]), MasterMounts(b)).Err?)
  {
  }

  /** A successful build wraps the merged pod. */
  lemma BuildWithOwnerPod(b: MasterBuilder, envKeys: seq<string>, load: Result<CurvinePod, KubeError>,
                          ownerUid: Option<string>)
    requires EnvBuilder.IsKeyOrder(envKeys, b.config.master.envVars)
    requires BuildWithOwner(b, envKeys, load, ownerUid).Ok?
    ensures LoadTemplate(b.config.master.podTemplate, load).Ok?
    ensures var template := LoadTemplate(b.config.master.podTemplate, load).value;
      var pod := MergePod(template, BaseMasterPod(b, envKeys), MasterVolumes(b), MasterMounts(b),
                          ResourceLabels(b.clusterId, COMPONENT_MASTER));
      pod.Ok? && BuildWithOwner(b, envKeys, load, ownerUid) == Ok(MasterStatefulSetOf(b, pod.value, ownerUid))
  {
  }

  /** A built StatefulSet is named after the cluster, owned by the
      ConfigMap exactly when a uid is given, leaves the replica count to
      the cluster in update mode, and claims the two master volumes. */
  lemma BuildWithOwnerShape(b: MasterBuilder, envKeys: seq<string>, load: Result<CurvinePod, KubeError>,
                            ownerUid: Option<string>)
    requires EnvBuilder.IsKeyOrder(envKeys, b.config.master.envVars)
    requires BuildWithOwner(b, envKeys, load, ownerUid).Ok?
    ensures var ss := BuildWithOwner(b, envKeys, load, ownerUid).value;
      && ss.metadata.name == Some(b.clusterId + "-master")
      && ss.metadata.namespace == Some(b.namespace)
      && ss.metadata.labels == Some(ResourceLabels(b.clusterId, COMPONENT_MASTER))
      && ss.metadata.ownerReferences == OwnerReferences(b.clusterId, ownerUid)
      && ss.spec.Some?
      && (ss.spec.value.replicas.None? <==> b.isUpdateMode)
      && (!b.isUpdateMode ==> ss.spec.value.replicas == Some(b.config.master.replicas))
      && ss.spec.value.serviceName == b.clusterId + "-master"
      && ss.spec.value.selector == Some(SelectorLabels(b.clusterId, COMPONENT_MASTER))
      && ss.spec.value.volumeClaimTemplates == Some(MasterClaimTemplates(b))
      && ss.spec.value.podManagementPolicy == Some("Parallel")
  {
  }

  /** Without a template the pod carries the configuration volume alone
      and the master container mounts the three master mounts. */
  lemma BuildWithoutTemplate(b: MasterBuilder, envKeys: seq<string>, load: Result<CurvinePod, KubeError>,
                             ownerUid: Option<string>)
    requires EnvBuilder.IsKeyOrder(envKeys, b.config.master.envVars)
    requires b.config.master.podTemplate.None?
    ensures var ss := BuildWithOwner(b, envKeys, load, ownerUid).value;
      var spec := ss.spec.value.template.spec;
      && spec.Some? && spec.value.volumes == Some([ConfigVolume(b.clusterId)])
      && |spec.value.containers| == 1
      && spec.value.containers[0].name == CONTAINER_NAME_MASTER
      && spec.value.containers[0].volumeMounts == Some(MasterMounts(b))
  {
  }

  /** The pod labels a build gives: the template's labels overwritten by
      the resource labels with a template, the base pod's without one. */
  lemma BuiltPodLabels(b: MasterBuilder, envKeys: seq<string>, load: Result<CurvinePod, KubeError>,
                       ownerUid: Option<string>)
    requires EnvBuilder.IsKeyOrder(envKeys, b.config.master.envVars)
    requires BuildWithOwner(b, envKeys, load, ownerUid).Ok?
    ensures var meta := BuildWithOwner(b, envKeys, load, ownerUid).value.spec.value.template.metadata;
      && meta.Some?
      && (b.config.master.podTemplate.Some? ==>
            meta.value.labels == Some(MergedLabels(load.value.podWithoutMain.metadata.labels,
                                                   ResourceLabels(b.clusterId, COMPONENT_MASTER))))
      && (b.config.master.podTemplate.None? ==> meta.value.labels == Some(MasterPodLabels(b)))
  {
    BuildWithOwnerPod(b, envKeys, load, ownerUid);
    var template := LoadTemplate(b.config.master.podTemplate, load).value;
    MergePodLabels(template, BaseMasterPod(b, envKeys), MasterVolumes(b), MasterMounts(b),
                   ResourceLabels(b.clusterId, COMPONENT_MASTER));
  }

  /** The StatefulSet's selector matches the pods it creates: with a
      template the builder's labels win over the template's, and without
      one they do whenever the user labels leave the selector keys alone. */
  lemma SelectorMatchesPods(b: MasterBuilder, envKeys: seq<string>, load: Result<CurvinePod, KubeError>,
                            ownerUid: Option<string>)
    requires EnvBuilder.IsKeyOrder(envKeys, b.config.master.envVars)
    requires BuildWithOwner(b, envKeys, load, ownerUid).Ok?
    requires b.config.master.podTemplate.None? ==> LABEL_APP !in b.config.master.labels && LABEL_COMPONENT !in b.config.master.labels
    ensures var ss := BuildWithOwner(b, envKeys, load, ownerUid).value;
      && ss.spec.Some? && ss.spec.value.selector.Some? && ss.spec.value.template.metadata.Some?
      && ss.spec.value.template.metadata.value.labels.Some?
      && var selector, podLabels := ss.spec.value.selector.value, ss.spec.value.template.metadata.value.labels.value;
         forall k :: k in selector ==> k in podLabels && podLabels[k] == selector[k]
  {
    BuiltPodLabels(b, envKeys, load, ownerUid);
    BuildWithOwnerShape(b, envKeys, load, ownerUid);
    var ss := BuildWithOwner(b, envKeys, load, ownerUid).value;
    var sel := SelectorLabels(b.clusterId, COMPONENT_MASTER);
    var labels := ss.spec.value.template.metadata.value.labels.value;
    if b.config.master.podTemplate.Some? {
      var own := ResourceLabels(b.clusterId, COMPONENT_MASTER);
      MergedLabelsWin(load.value.podWithoutMain.metadata.labels, own);
      SelectorWithinLabels(b.clusterId, COMPONENT_MASTER);
      assert labels == MergedLabels(load.value.podWithoutMain.metadata.labels, own);
    } else {
      assert labels == sel + b.config.master.labels;
    }
  }
}
