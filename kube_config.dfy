/** The resolved deployment specification, its validation, and the
    cluster-side configuration derived from it
    (src/domain/config/kubernetes.rs). */
module KubeConfig {
  import opened Wrappers
  import opened Strings
  import opened K8s
  import opened CurvineConf
  import Constants

  datatype ServiceType = ClusterIP | NodePort | LoadBalancer

  /** `ServiceType::as_str` */
  function ServiceTypeName(t: ServiceType): string {
    match t
    case ClusterIP => "ClusterIP"
    case NodePort => "NodePort"
    case LoadBalancer => "LoadBalancer"
  }

  /** `ServiceType::from_str`: exact, case-sensitive names only. */
  function ParseServiceType(s: string): (r: Result<ServiceType, KubeError>)
    ensures r.Ok? ==> ServiceTypeName(r.value) == s
    ensures r.Err? ==> r.error == ConfigError("Invalid service type: " + s)
  {
    match s
    case "ClusterIP" => Ok(ClusterIP)
    case "NodePort" => Ok(NodePort)
    case "LoadBalancer" => Ok(LoadBalancer)
    case _ => Err(ConfigError("Invalid service type: " + s))
  }

  /** Printing a service type and parsing it back gives it again; every
      string that is not such a name is rejected. */
  lemma ServiceTypeRoundTrip(t: ServiceType, s: string)
    ensures ParseServiceType(ServiceTypeName(t)) == Ok(t)
    ensures (forall u :: ServiceTypeName(u) != s) ==> ParseServiceType(s).Err?
  {
  }

  datatype StorageConfig = StorageConfig(
    storageClass: string, masterStorageClass: Option<string>, workerStorageClass: Option<string>,
    masterSize: Option<string>, workerSize: Option<string>)

  datatype ServiceConfig = ServiceConfig(
    serviceType: ServiceType, annotations: StringMap, sessionAffinity: Option<string>,
    externalIps: seq<string>, loadBalancerSourceRanges: seq<string>)

  datatype MasterConfig = MasterConfig(
    replicas: nat, image: string, resources: Option<ResourceRequirements>,
    nodeSelector: Option<StringMap>, affinity: Option<Affinity>, podTemplate: Option<string>,
    gracefulShutdown: bool, labels: StringMap, annotations: StringMap,
    tolerations: seq<Toleration>, serviceAccount: Option<string>, envVars: StringMap,
    dnsPolicy: Option<string>, priorityClass: Option<string>)

  datatype WorkerConfig = WorkerConfig(
    replicas: nat, image: string, resources: Option<ResourceRequirements>,
    nodeSelector: Option<StringMap>, antiAffinity: bool, podTemplate: Option<string>,
    storageClass: Option<string>, gracefulShutdown: bool, hostNetwork: bool,
    initContainer: bool, hostPathStorage: Option<StringMap>, labels: StringMap,
    annotations: StringMap, tolerations: seq<Toleration>, serviceAccount: Option<string>,
    envVars: StringMap, dnsPolicy: Option<string>, priorityClass: Option<string>)

  /** `KubernetesConfig`: everything the manifest builders need. */
  datatype KubernetesConfig = KubernetesConfig(
    clusterId: string, namespace: string, master: MasterConfig, worker: WorkerConfig,
    service: ServiceConfig, storage: Option<StorageConfig>, imagePullPolicy: string,
    imagePullSecrets: seq<string>, clusterDomain: string)

  // ------------------------------------------------------------ names

  /** `char::is_alphanumeric`, on ASCII (any other character is rejected by
      the all-characters check below anyway). */
  predicate IsAlphanumeric(c: char) { IsAsciiAlnum(c) }

  predicate IsNameChar(c: char) { IsAsciiLower(c) || IsAsciiDigit(c) || c == '-' }

  /** `is_valid_k8s_name`, check by check. */
  predicate IsValidK8sName(name: string) {
    if |name| == 0 || |name| > 253 then false
    else if !IsAlphanumeric(name[0]) then false
    else if !IsAlphanumeric(name[|name| - 1]) then false
    else forall k :: 0 <= k < |name| ==> IsNameChar(name[k])
  }

  /** A legal name is 1 to 253 characters of lower-case letters, digits and
      '-', neither starting nor ending with '-'. */
  lemma ValidK8sNameIff(name: string)
    ensures IsValidK8sName(name) <==>
      (1 <= |name| <= 253
       && (forall k :: 0 <= k < |name| ==> IsNameChar(name[k]))
       && name[0] != '-' && name[|name| - 1] != '-')
  {
  }

  // -------------------------------------------------------- validation

  const VALID_PULL_POLICIES: seq<string> := ["Always", "IfNotPresent", "Never"]

  /** The checks of `validate`, in the order they are made, each with the
      error it reports when it fails. */
  function ValidationChecks(c: KubernetesConfig): seq<(bool, KubeError)> {
    [ (IsValidK8sName(c.clusterId), ConfigError("Invalid cluster_id: " + c.clusterId)),
      (|c.clusterId| <= 45, ConfigError("cluster_id too long (max 45 chars): " + c.clusterId)),
      (c.master.replicas != 0, ConfigError("master.replicas must be > 0")),
      (c.master.replicas % 2 != 0, ConfigError("master.replicas should be odd for Raft (recommended: 3, 5, 7)")),
      (c.worker.replicas != 0, ConfigError("worker.replicas must be > 0")),
      (c.imagePullPolicy in VALID_PULL_POLICIES, ConfigError("Invalid image_pull_policy: " + c.imagePullPolicy)) ]
  }

  /** The error of the first failing check at or after position i, if any. */
  function FirstFailure(checks: seq<(bool, KubeError)>, i: nat): (r: Option<KubeError>)
    requires i <= |checks|
    ensures r.None? <==> forall j :: i <= j < |checks| ==> checks[j].0
    ensures r.Some? ==> exists j :: i <= j < |checks| && !checks[j].0 && checks[j].1 == r.value
                          && forall k :: i <= k < j ==> checks[k].0
    decreases |checks| - i
  {
    if i == |checks| then None
    else if !checks[i].0 then Some(checks[i].1)
    else FirstFailure(checks, i + 1)
  }

  /** `KubernetesConfig::validate`: a chain of guards with early returns. */
  function Validate(c: KubernetesConfig): (r: Result<(), KubeError>)
    ensures r.Err? ==> r.error.ConfigError?
  {
    if !IsValidK8sName(c.clusterId) then Err(ConfigError("Invalid cluster_id: " + c.clusterId))
    else if |c.clusterId| > 45 then Err(ConfigError("cluster_id too long (max 45 chars): " + c.clusterId))
    else if c.master.replicas == 0 then Err(ConfigError("master.replicas must be > 0"))
    else if c.master.replicas % 2 == 0 then
      Err(ConfigError("master.replicas should be odd for Raft (recommended: 3, 5, 7)"))
    else if c.worker.replicas == 0 then Err(ConfigError("worker.replicas must be > 0"))
    else if c.imagePullPolicy !in VALID_PULL_POLICIES then
      Err(ConfigError("Invalid image_pull_policy: " + c.imagePullPolicy))
    else Ok(())
  }

  /** `validate` succeeds exactly for a legal name of at most 45 characters,
      an odd (so non-zero) master count, a non-zero worker count and a known
      pull policy. */
  lemma ValidateOkIff(c: KubernetesConfig)
    ensures Validate(c).Ok? <==>
      (IsValidK8sName(c.clusterId) && |c.clusterId| <= 45
       && c.master.replicas % 2 == 1 && c.worker.replicas > 0
       && c.imagePullPolicy in {"Always", "IfNotPresent", "Never"})
  {
  }

  /** The checks are made in a fixed order and the first failing one alone
      determines the error. */
  lemma {:induction false} ValidateReportsFirstFailure(c: KubernetesConfig)
    ensures Validate(c).Ok? <==> FirstFailure(ValidationChecks(c), 0).None?
    ensures Validate(c).Err? ==> FirstFailure(ValidationChecks(c), 0) == Some(Validate(c).error)
  {
    var cs := ValidationChecks(c);
    assert FirstFailure(cs, 6) == None;
    assert FirstFailure(cs, 5) == if cs[5].0 then None else Some(cs[5].1);
    assert FirstFailure(cs, 4) == if cs[4].0 then FirstFailure(cs, 5) else Some(cs[4].1);
    assert FirstFailure(cs, 3) == if cs[3].0 then FirstFailure(cs, 4) else Some(cs[3].1);
    assert FirstFailure(cs, 2) == if cs[2].0 then FirstFailure(cs, 3) else Some(cs[2].1);
    assert FirstFailure(cs, 1) == if cs[1].0 then FirstFailure(cs, 2) else Some(cs[1].1);
  }

  // ------------------------------------------------- cluster-side config

  /** `resolve_path`: absolute paths stay, relative ones move under CURVINE_HOME. */
  function ResolvePath(path: string): (r: string)
    ensures StartsWith(r, "/")
    ensures StartsWith(path, "/") ==> r == path
    ensures !StartsWith(path, "/") ==> r == Constants.CURVINE_HOME + "/" + path
  {
    if StartsWith(path, "/") then path else Constants.CURVINE_HOME + "/" + path
  }

  /** Resolving twice is resolving once. */
  lemma ResolvePathIdempotent(path: string)
    ensures ResolvePath(ResolvePath(path)) == ResolvePath(path)
  {
  }

  /** DNS name of master pod i: `{id}-master-{i}.{id}-master.{ns}.svc.{domain}`. */
  function MasterHostname(clusterId: string, i: nat, namespace: string, domain: string): string {
    clusterId + "-master-" + NatToString(i) + "." + clusterId + "-master." + namespace + ".svc." + domain
  }

  /** The hostnames of the master pods, one per replica, in pod order. */
  function MasterHostnames(c: KubernetesConfig): (hosts: seq<string>)
    ensures |hosts| == c.master.replicas
    ensures forall i :: 0 <= i < |hosts| ==>
      hosts[i] == MasterHostname(c.clusterId, i, c.namespace, c.clusterDomain)
  {
    seq(c.master.replicas, i requires 0 <= i => MasterHostname(c.clusterId, i, c.namespace, c.clusterDomain))
  }

  /** Two digit strings each followed by '.' at the start of one string are equal. */
  lemma DigitRunUnique(di: string, dj: string, x: string, y: string)
    requires AllDigits(di) && AllDigits(dj)
    requires di + "." + x == dj + "." + y
    ensures di == dj
  {
    var s := di + "." + x;
    assert s[|di|] == '.';
    assert s[|dj|] == '.';
    assert forall k :: 0 <= k < |di| ==> s[k] == di[k];
    assert forall k :: 0 <= k < |dj| ==> s[k] == dj[k];
    assert |di| == |dj|;
    assert di == s[..|di|];
    assert dj == s[..|dj|];
  }

  lemma HostnameDigitsUnique(id: string, di: string, dj: string, ns: string, domain: string)
    requires AllDigits(di) && AllDigits(dj)
    requires id + "-master-" + di + "." + id + "-master." + ns + ".svc." + domain
          == id + "-master-" + dj + "." + id + "-master." + ns + ".svc." + domain
    ensures di == dj
  {
    var p := id + "-master-";
    var q := id + "-master." + ns + ".svc." + domain;
    assert p + di + "." + id + "-master." + ns + ".svc." + domain == p + (di + "." + q);
    assert p + dj + "." + id + "-master." + ns + ".svc." + domain == p + (dj + "." + q);
    assert (p + (di + "." + q))[|p|..] == di + "." + q;
    assert (p + (dj + "." + q))[|p|..] == dj + "." + q;
    DigitRunUnique(di, dj, q, q);
  }

  /** Different pod indices give different hostnames. */
  lemma MasterHostnameInjective(id: string, i: nat, j: nat, ns: string, domain: string)
    requires MasterHostname(id, i, ns, domain) == MasterHostname(id, j, ns, domain)
    ensures i == j
  {
    HostnameDigitsUnique(id, NatToString(i), NatToString(j), ns, domain);
    NatToStringInjective(i, j);
  }

  /** `build_cluster_side_config` (before rendering to TOML): the input
      configuration with master and journal addresses generated from the
      replica count and the data directories resolved. */
  function BuildClusterSideConfig(conf: ClusterConf, kc: KubernetesConfig): (r: ClusterConf)
    ensures r.journal.journalAddrs.Some? && |r.journal.journalAddrs.value| == kc.master.replicas
    ensures r.client.masterAddrs.Some? && |r.client.masterAddrs.value| == kc.master.replicas
    ensures forall i :: 0 <= i < kc.master.replicas ==>
      r.journal.journalAddrs.value[i] ==
        RaftPeer(i + 1, MasterHostname(kc.clusterId, i, kc.namespace, kc.clusterDomain), conf.journal.rpcPort)
      && r.client.masterAddrs.value[i] ==
        InetAddr(MasterHostname(kc.clusterId, i, kc.namespace, kc.clusterDomain), conf.master.rpcPort)
    ensures r.master.metaDir == ResolvePath(conf.master.metaDir)
    ensures r.journal.journalDir == ResolvePath(conf.journal.journalDir)
    ensures r.(journal := conf.journal, client := conf.client, master := conf.master) == conf
    ensures r.journal.rpcPort == conf.journal.rpcPort && r.master.(metaDir := conf.master.metaDir) == conf.master
    ensures r.client.(masterAddrs := conf.client.masterAddrs) == conf.client
  {
    var hosts := MasterHostnames(kc);
    var peers := seq(|hosts|, i requires 0 <= i < |hosts| => RaftPeer(i + 1, hosts[i], conf.journal.rpcPort));
    var addrs := seq(|hosts|, i requires 0 <= i < |hosts| => InetAddr(hosts[i], conf.master.rpcPort));
    conf.(
      journal := conf.journal.(journalAddrs := Some(peers), journalDir := ResolvePath(conf.journal.journalDir)),
      client := conf.client.(masterAddrs := Some(addrs)),
      master := conf.master.(metaDir := ResolvePath(conf.master.metaDir)))
  }

  /** The generated peers have distinct ids 1..n and distinct hostnames, and
      the client addresses name the same hosts in the same order. */
  lemma ClusterSidePeersDistinct(conf: ClusterConf, kc: KubernetesConfig, i: nat, j: nat)
    requires i < j < kc.master.replicas
    ensures var r := BuildClusterSideConfig(conf, kc);
      var peers := r.journal.journalAddrs.value;
      peers[i].id != peers[j].id && peers[i].hostname != peers[j].hostname
      && peers[i].hostname == r.client.masterAddrs.value[i].hostname
  {
    if MasterHostname(kc.clusterId, i, kc.namespace, kc.clusterDomain)
       == MasterHostname(kc.clusterId, j, kc.namespace, kc.clusterDomain) {
      MasterHostnameInjective(kc.clusterId, i, j, kc.namespace, kc.clusterDomain);
    }
  }
}
