/** The cluster descriptor (src/domain/cluster/descriptor.rs): deploy and
    update guards, the order in which a cluster's resources are applied,
    the bounded wait for readiness with its pod-failure classifier, and the
    listing of clusters. The client is the store of `KubeStore`; what the
    platform reports while the cluster starts is given as one observation
    per check, indexed by the check's number in place of elapsed time. */
module ClusterDescriptor {
  import opened Wrappers
  import opened Strings
  import opened K8s
  import opened Constants
  import opened CurvineConf
  import opened KubeConfig
  import opened ManifestCommon
  import opened KubeStore
  import Validator
  import EnvBuilder
  import PodTemplate
  import ConfigMapResource
  import Labels
  import MasterStatefulSet
  import WorkerStatefulSet
  import HeadlessService
  import MasterService

  /** `as u32` on a 32-bit signed count: two's complement wrap. */
  function AsU32(x: int): (r: nat)
    ensures 0 <= x < 0x1_0000_0000 ==> r == x
    ensures -0x8000_0000 <= x < 0 ==> r == x + 0x1_0000_0000
    ensures r < 0x1_0000_0000 && (x - r) % 0x1_0000_0000 == 0
  {
    x % 0x1_0000_0000
  }

  // ------------------------------------------------ failure classifier

  const REASON_CRASH_LOOP: string := "CrashLoopBackOff"
  const REASON_IMAGE_PULL_BACKOFF: string := "ImagePullBackOff"
  const REASON_ERR_IMAGE_PULL: string := "ErrImagePull"
  const PHASE_FAILED: string := "Failed"
  const MAX_RESTARTS: int := 5

  const POD_HEAD: string := "Pod "
  const IS_IN: string := " is in "
  const STATE_LOGS: string := " state. Check pod logs: kubectl logs -n "
  const HAS_RESTARTED: string := " has restarted "
  const RESTART_LOGS: string := " times, indicating a persistent failure. Check pod logs: kubectl logs -n "
  const FAILED_EVENTS: string := " is in Failed state. Check pod events: kubectl describe pod -n "

  /** A waiting reason that means the pod will not come up by itself. */
  predicate FatalReason(reason: string) {
    reason == REASON_CRASH_LOOP || reason == REASON_IMAGE_PULL_BACKOFF || reason == REASON_ERR_IMAGE_PULL
  }

  /** What one container's status says about its pod, waiting reason first. */
  function ContainerFailure(pod: string, cs: ContainerStatus, namespace: string): Option<KubeError> {
    if cs.waitingReason.Some? && FatalReason(cs.waitingReason.value) then
      Some(ValidationError(POD_HEAD + pod + IS_IN + cs.waitingReason.value + STATE_LOGS + namespace + " " + pod))
    else if cs.restartCount > MAX_RESTARTS then
      Some(ValidationError(POD_HEAD + pod + HAS_RESTARTED + NatToString(cs.restartCount) + RESTART_LOGS
                           + namespace + " " + pod))
    else None
  }

  function ContainerFailures(pod: string, css: seq<ContainerStatus>, namespace: string): (r: seq<Option<KubeError>>)
    ensures |r| == |css| && forall i :: 0 <= i < |css| ==> r[i] == ContainerFailure(pod, css[i], namespace)
  {
    seq(|css|, i requires 0 <= i < |css| => ContainerFailure(pod, css[i], namespace))
  }

  /** What a pod's status says: its containers in order, then its phase. */
  function PodFailure(p: PodInfo, namespace: string): Option<KubeError> {
    if p.status.None? then None
    else
      var css := p.status.value.containerStatuses;
      var fromContainers := if css.Some? then FirstError(ContainerFailures(p.name, css.value, namespace), 0) else None;
      if fromContainers.Some? then fromContainers
      else if p.status.value.phase == Some(PHASE_FAILED) then
        Some(ValidationError(POD_HEAD + p.name + FAILED_EVENTS + namespace + " " + p.name))
      else None
  }

  function PodFailures(pods: seq<PodInfo>, namespace: string): (r: seq<Option<KubeError>>)
    ensures |r| == |pods| && forall i :: 0 <= i < |pods| ==> r[i] == PodFailure(pods[i], namespace)
  {
    seq(|pods|, i requires 0 <= i < |pods| => PodFailure(pods[i], namespace))
  }

  /** A pod that has failed for good: some container waits for a fatal
      reason or has restarted more than five times, or the pod's phase is
      Failed. */
  predicate PodFatal(p: PodInfo) {
    p.status.Some?
    && (|| (p.status.value.containerStatuses.Some?
            && exists cs :: cs in p.status.value.containerStatuses.value
                 && ((cs.waitingReason.Some? && FatalReason(cs.waitingReason.value)) || cs.restartCount > MAX_RESTARTS))
        || p.status.value.phase == Some(PHASE_FAILED))
  }

  /** The scan reports a pod exactly when it is fatal. */
  lemma PodFailureIff(p: PodInfo, namespace: string)
    ensures PodFailure(p, namespace).Some? <==> PodFatal(p)
  {
    if p.status.Some? && p.status.value.containerStatuses.Some? {
      var css := p.status.value.containerStatuses.value;
      var fs := ContainerFailures(p.name, css, namespace);
      FirstErrorIsFirst(fs, 0);
      if exists cs :: cs in css && ((cs.waitingReason.Some? && FatalReason(cs.waitingReason.value)) || cs.restartCount > MAX_RESTARTS) {
        var cs :| cs in css && ((cs.waitingReason.Some? && FatalReason(cs.waitingReason.value)) || cs.restartCount > MAX_RESTARTS);
        var i :| 0 <= i < |css| && css[i] == cs;
        assert fs[i].Some?;
      }
      if FirstError(fs, 0).Some? {
        var j :| 0 <= j < |fs| && fs[j] == FirstError(fs, 0) && forall k :: 0 <= k < j ==> fs[k].None?;
        assert css[j] in css;
      }
    }
  }

  /** The scan of all pods, stopping at the first failing one. */
  method ScanPods(pods: seq<PodInfo>, namespace: string) returns (r: Option<KubeError>)
    ensures r == FirstError(PodFailures(pods, namespace), 0)
    ensures r.None? <==> forall i :: 0 <= i < |pods| ==> !PodFatal(pods[i])
  {
    ghost var failures := PodFailures(pods, namespace);
    FirstErrorIsFirst(failures, 0);
    forall i | 0 <= i < |pods| ensures failures[i].Some? <==> PodFatal(pods[i]) {
      PodFailureIff(pods[i], namespace);
    }
    var i := 0;
    while i < |pods|
      invariant i <= |pods|
      invariant FirstError(failures, 0) == FirstError(failures, i)
    {
      FirstErrorStep(failures, i);
      var failure := PodFailure(pods[i], namespace);
      if failure.Some? {
        return failure;
      }
      i := i + 1;
    }
    r := None;
  }

  // ---------------------------------------------------- readiness wait

  const MAX_WAIT_SECONDS: nat := 300
  const CHECK_INTERVAL_SECONDS: nat := 5
  const FAILURE_DETECTION_WAIT: nat := 30
  /** The number of checks: 300 / 5. */
  const MAX_CHECKS: nat := 60

  /** What one check sees: the cluster's pods (None when listing failed)
      and the two StatefulSets (None when they cannot be read). */
  datatype Poll = Poll(pods: Option<seq<PodInfo>>, master: Option<StatefulSet>, worker: Option<StatefulSet>)

  /** The ready count a StatefulSet reports, if it reports one. */
  function ReadyCount(ss: Option<StatefulSet>): Option<int> {
    if ss.Some? && ss.value.status.Some? then ss.value.status.value.readyReplicas else None
  }

  /** The replica count a StatefulSet asks for, if any. */
  function SpecReplicas(ss: Option<StatefulSet>): Option<int> {
    if ss.Some? && ss.value.spec.Some? then ss.value.spec.value.replicas else None
  }

  /** A StatefulSet whose ready count equals its replica count. */
  predicate Ready(ss: Option<StatefulSet>) {
    ReadyCount(ss).Some? && SpecReplicas(ss).Some? && ReadyCount(ss).value == SpecReplicas(ss).value
  }

  /** The last ready count seen, updated when one is reported. */
  function Seen(ss: Option<StatefulSet>, last: nat): nat {
    if ReadyCount(ss).Some? then AsU32(ReadyCount(ss).value) else last
  }

  /** The failure check `k` reports: pods are looked at only once 30
      seconds have passed. */
  function FailureAt(p: Poll, k: nat, namespace: string): Option<KubeError> {
    if k * CHECK_INTERVAL_SECONDS >= FAILURE_DETECTION_WAIT && p.pods.Some? then
      FirstError(PodFailures(p.pods.value, namespace), 0)
    else None
  }

  /** Check `k` succeeds: the master is ready and, read after it, so is
      the worker. */
  predicate DoneAt(p: Poll) {
    Ready(p.master) && Ready(p.worker)
  }

  const TIMEOUT_HEAD: string := "Cluster "
  const TIMEOUT_WITHIN: string := " did not become ready within 300 seconds (Master ready: "
  const TIMEOUT_WORKER: string := ", Worker ready: "

  /** The timeout error, with the last ready counts and the replica counts
      read once more at the end (0 when unreadable). */
  function TimeoutError(clusterId: string, lastMaster: nat, lastWorker: nat, final: Poll): KubeError {
    var masterWanted := if SpecReplicas(final.master).Some? then AsU32(SpecReplicas(final.master).value) else 0;
    var workerWanted := if SpecReplicas(final.worker).Some? then AsU32(SpecReplicas(final.worker).value) else 0;
    Timeout(TIMEOUT_HEAD + clusterId + TIMEOUT_WITHIN + NatToString(lastMaster) + "/" + NatToString(masterWanted)
            + TIMEOUT_WORKER + NatToString(lastWorker) + "/" + NatToString(workerWanted) + ")")
  }

  /** The outcome of `wait_for_cluster_ready` from check `k` on, with the
      last ready counts seen so far. */
  function WaitFrom(clusterId: string, namespace: string, polls: seq<Poll>, final: Poll,
                    k: nat, lastMaster: nat, lastWorker: nat): Result<(), KubeError>
    requires |polls| == MAX_CHECKS
    decreases MAX_CHECKS - k
  {
    if k >= MAX_CHECKS then Err(TimeoutError(clusterId, lastMaster, lastWorker, final))
    else
      var p := polls[k];
      var failure := FailureAt(p, k, namespace);
      if failure.Some? then Err(failure.value)
      else
        var master := Seen(p.master, lastMaster);
        if !Ready(p.master) then WaitFrom(clusterId, namespace, polls, final, k + 1, master, lastWorker)
        else if DoneAt(p) then Ok(())
        else WaitFrom(clusterId, namespace, polls, final, k + 1, master, Seen(p.worker, lastWorker))
  }

  /** `wait_for_cluster_ready`: `polls[k]` is what the check after 5k
      seconds sees, `final` what the timeout message reads. */
  method WaitForClusterReady(clusterId: string, namespace: string, polls: seq<Poll>, final: Poll)
    returns (r: Result<(), KubeError>)
    requires |polls| == MAX_CHECKS
    ensures r == WaitFrom(clusterId, namespace, polls, final, 0, 0, 0)
  {
    var waited: nat := 0;
    var lastMaster: nat := 0;
    var lastWorker: nat := 0;
    while waited < MAX_WAIT_SECONDS
      invariant waited % CHECK_INTERVAL_SECONDS == 0 && waited <= MAX_WAIT_SECONDS
      invariant WaitFrom(clusterId, namespace, polls, final, waited / CHECK_INTERVAL_SECONDS, lastMaster, lastWorker)
             == WaitFrom(clusterId, namespace, polls, final, 0, 0, 0)
      decreases MAX_WAIT_SECONDS - waited
    {
      var k := waited / CHECK_INTERVAL_SECONDS;
      var p := polls[k];
      if waited >= FAILURE_DETECTION_WAIT && p.pods.Some? {
        var failure := ScanPods(p.pods.value, namespace);
        if failure.Some? {
          return Err(failure.value);
        }
      }
      if ReadyCount(p.master).Some? {
        lastMaster := AsU32(ReadyCount(p.master).value);
        if Ready(p.master) {
          if ReadyCount(p.worker).Some? {
            lastWorker := AsU32(ReadyCount(p.worker).value);
            if Ready(p.worker) {
              return Ok(());
            }
          }
        }
      }
      waited := waited + CHECK_INTERVAL_SECONDS;
    }
    assert waited / CHECK_INTERVAL_SECONDS == MAX_CHECKS;
    r := Err(TimeoutError(clusterId, lastMaster, lastWorker, final));
  }

  /** The wait succeeds exactly when some check finds both StatefulSets
      ready, no earlier check having found a failed pod or both ready, and
      that check itself finding no failed pod. */
  lemma {:induction false} WaitOkIff(clusterId: string, namespace: string, polls: seq<Poll>, final: Poll,
                                     k: nat, lastMaster: nat, lastWorker: nat)
    requires |polls| == MAX_CHECKS
    ensures WaitFrom(clusterId, namespace, polls, final, k, lastMaster, lastWorker).Ok? <==>
      exists j :: k <= j < MAX_CHECKS && DoneAt(polls[j]) && FailureAt(polls[j], j, namespace).None?
        && forall i :: k <= i < j ==> !DoneAt(polls[i]) && FailureAt(polls[i], i, namespace).None?
    decreases MAX_CHECKS - k
  {
    if k < MAX_CHECKS {
      var p := polls[k];
      var master := Seen(p.master, lastMaster);
      var worker := if Ready(p.master) then Seen(p.worker, lastWorker) else lastWorker;
      WaitOkIff(clusterId, namespace, polls, final, k + 1, master, worker);
    }
  }

  /** The master ready counts the checks read, one per check (None when
      the StatefulSet or its count could not be read). */
  function MasterCounts(polls: seq<Poll>): (r: seq<Option<int>>)
    ensures |r| == |polls| && forall i :: 0 <= i < |polls| ==> r[i] == ReadyCount(polls[i].master)
  {
    seq(|polls|, i requires 0 <= i < |polls| => ReadyCount(polls[i].master))
  }

  /** The worker ready counts the checks read: a check reads the worker
      only after finding the master ready. */
  function WorkerCounts(polls: seq<Poll>): (r: seq<Option<int>>)
    ensures |r| == |polls|
    ensures forall i :: 0 <= i < |polls| ==>
      r[i] == (if Ready(polls[i].master) then ReadyCount(polls[i].worker) else None)
  {
    seq(|polls|, i requires 0 <= i < |polls| =>
      if Ready(polls[i].master) then ReadyCount(polls[i].worker) else None)
  }

  /** The last count reported in `counts`, cast to u32, or `initial` when
      none was. */
  function LastReported(counts: seq<Option<int>>, initial: nat): nat
    decreases |counts|
  {
    if |counts| == 0 then initial
    else if counts[|counts| - 1].Some? then AsU32(counts[|counts| - 1].value)
    else LastReported(counts[..|counts| - 1], initial)
  }

  /** With no count reported, the initial value stands. */
  lemma {:induction false} LastReportedNone(counts: seq<Option<int>>, initial: nat)
    requires forall i :: 0 <= i < |counts| ==> counts[i].None?
    ensures LastReported(counts, initial) == initial
    decreases |counts|
  {
    if |counts| > 0 {
      LastReportedNone(counts[..|counts| - 1], initial);
    }
  }

  /** The count at the last index that reports one is the result. */
  lemma {:induction false} LastReportedAt(counts: seq<Option<int>>, initial: nat, j: nat)
    requires j < |counts| && counts[j].Some?
    requires forall i :: j < i < |counts| ==> counts[i].None?
    ensures LastReported(counts, initial) == AsU32(counts[j].value)
    decreases |counts|
  {
    if j < |counts| - 1 {
      LastReportedAt(counts[..|counts| - 1], initial, j);
    }
  }

  /** Reading one more count first: the rest starts from what it leaves. */
  lemma {:induction false} LastReportedCons(x: Option<int>, rest: seq<Option<int>>, initial: nat)
    ensures LastReported([x] + rest, initial) == LastReported(rest, if x.Some? then AsU32(x.value) else initial)
    decreases |rest|
  {
    if |rest| > 0 {
      assert ([x] + rest)[..|rest|] == [x] + rest[..|rest| - 1];
      LastReportedCons(x, rest[..|rest| - 1], initial);
    } else {
      assert ([x] + rest)[..0] == [];
    }
  }

  /** The same step on a suffix of the counts. */
  lemma LastReportedFrom(counts: seq<Option<int>>, k: nat, initial: nat)
    requires k < |counts|
    ensures LastReported(counts[k..], initial)
         == LastReported(counts[k + 1..], if counts[k].Some? then AsU32(counts[k].value) else initial)
  {
    assert counts[k..] == [counts[k]] + counts[k + 1..];
    LastReportedCons(counts[k], counts[k + 1..], initial);
  }

  /** When no check finds both ready and none finds a failed pod, the wait
      ends in the Timeout error carrying the last master and worker ready
      counts the checks read. */
  lemma {:induction false} WaitTimesOut(clusterId: string, namespace: string, polls: seq<Poll>, final: Poll,
                                        k: nat, lastMaster: nat, lastWorker: nat)
    requires |polls| == MAX_CHECKS
    requires forall i :: k <= i < MAX_CHECKS ==> !DoneAt(polls[i]) && FailureAt(polls[i], i, namespace).None?
    ensures WaitFrom(clusterId, namespace, polls, final, k, lastMaster, lastWorker).Err?
    ensures WaitFrom(clusterId, namespace, polls, final, k, lastMaster, lastWorker).error.Timeout?
    ensures k <= MAX_CHECKS ==>
      (WaitFrom(clusterId, namespace, polls, final, k, lastMaster, lastWorker)
         == Err(TimeoutError(clusterId, LastReported(MasterCounts(polls)[k..], lastMaster),
                             LastReported(WorkerCounts(polls)[k..], lastWorker), final)))
    decreases MAX_CHECKS - k
  {
    if k < MAX_CHECKS {
      var p := polls[k];
      var master := Seen(p.master, lastMaster);
      var worker := if Ready(p.master) then Seen(p.worker, lastWorker) else lastWorker;
      WaitTimesOut(clusterId, namespace, polls, final, k + 1, master, worker);
      LastReportedFrom(MasterCounts(polls), k, lastMaster);
      LastReportedFrom(WorkerCounts(polls), k, lastWorker);
    } else if k == MAX_CHECKS {
      assert MasterCounts(polls)[k..] == [] && WorkerCounts(polls)[k..] == [];
    }
  }

  /** A failed pod seen at check `j`, with no earlier check done or
      failing, ends the wait with that pod's error. */
  lemma {:induction false} WaitStopsAtFirstFailure(clusterId: string, namespace: string, polls: seq<Poll>, final: Poll,
                                                   k: nat, lastMaster: nat, lastWorker: nat, j: nat)
    requires |polls| == MAX_CHECKS && k <= j < MAX_CHECKS
    requires FailureAt(polls[j], j, namespace).Some?
    requires forall i :: k <= i < j ==> !DoneAt(polls[i]) && FailureAt(polls[i], i, namespace).None?
    ensures WaitFrom(clusterId, namespace, polls, final, k, lastMaster, lastWorker)
         == Err(FailureAt(polls[j], j, namespace).value)
    decreases j - k
  {
    if k < j {
      var p := polls[k];
      var master := Seen(p.master, lastMaster);
      var worker := if Ready(p.master) then Seen(p.worker, lastWorker) else lastWorker;
      WaitStopsAtFirstFailure(clusterId, namespace, polls, final, k + 1, master, worker, j);
    }
  }

  /** The first six checks never report a failed pod. */
  lemma NoPodScanBeforeThirtySeconds(p: Poll, k: nat, namespace: string)
    requires k < FAILURE_DETECTION_WAIT / CHECK_INTERVAL_SECONDS
    ensures FailureAt(p, k, namespace).None?
  {
  }

  /** A failed pod is fatal only from the seventh check on: the same polls
      with any pods in the first six checks give the same outcome. */
  lemma {:induction false} EarlyPodsIgnored(clusterId: string, namespace: string, polls: seq<Poll>, polls': seq<Poll>,
                                            final: Poll, k: nat, lastMaster: nat, lastWorker: nat)
    requires |polls| == MAX_CHECKS && |polls'| == MAX_CHECKS
    requires forall i :: 0 <= i < MAX_CHECKS ==> polls[i].master == polls'[i].master && polls[i].worker == polls'[i].worker
    requires forall i :: FAILURE_DETECTION_WAIT / CHECK_INTERVAL_SECONDS <= i < MAX_CHECKS ==> polls[i].pods == polls'[i].pods
    ensures WaitFrom(clusterId, namespace, polls, final, k, lastMaster, lastWorker)
         == WaitFrom(clusterId, namespace, polls', final, k, lastMaster, lastWorker)
    decreases MAX_CHECKS - k
  {
    if k < MAX_CHECKS {
      var p := polls[k];
      var master := Seen(p.master, lastMaster);
      var worker := if Ready(p.master) then Seen(p.worker, lastWorker) else lastWorker;
      assert FailureAt(polls[k], k, namespace) == FailureAt(polls'[k], k, namespace);
      EarlyPodsIgnored(clusterId, namespace, polls, polls', final, k + 1, master, worker);
    }
  }

  // ------------------------------------------------ applying a cluster

  /** What one deployment takes from outside the model: the iteration order
      of the two environment maps, the outcome of loading each pod
      template, the StorageClasses the validator finds, and what the
      readiness checks observe. */
  datatype ClusterInputs = ClusterInputs(
    masterEnvKeys: seq<string>, workerEnvKeys: seq<string>,
    masterTemplate: Result<PodTemplate.CurvinePod, KubeError>,
    workerTemplate: Result<PodTemplate.CurvinePod, KubeError>,
    storageClasses: seq<string>, polls: seq<Poll>, final: Poll)

  /** The key orders list each environment map once, and there is one
      observation per check. */
  predicate InputsFit(inputs: ClusterInputs, kc: KubernetesConfig) {
    && EnvBuilder.IsKeyOrder(inputs.masterEnvKeys, kc.master.envVars)
    && EnvBuilder.IsKeyOrder(inputs.workerEnvKeys, kc.worker.envVars)
    && |inputs.polls| == MAX_CHECKS
  }

  function ConfigMapBuilderOf(conf: ClusterConf, kc: KubernetesConfig, masterReplicas: nat): ConfigMapResource.ConfigMapBuilder {
    ConfigMapResource.ConfigMapBuilder(conf, kc.clusterId, kc.namespace, masterReplicas)
  }

  function MasterBuilderOf(conf: ClusterConf, kc: KubernetesConfig, isUpdate: bool): MasterStatefulSet.MasterBuilder {
    MasterStatefulSet.MasterBuilder(kc.clusterId, kc.namespace, kc, conf, isUpdate)
  }

  function WorkerBuilderOf(conf: ClusterConf, kc: KubernetesConfig): WorkerStatefulSet.WorkerBuilder {
    WorkerStatefulSet.WorkerBuilder(kc.clusterId, kc.namespace, kc, conf)
  }

  /** `ServiceBuilder::with_config` from the service settings. */
  function ServiceBuilderOf(kc: KubernetesConfig): MasterService.ServiceBuilder {
    MasterService.ServiceBuilder(kc.clusterId, kc.namespace, kc.service.serviceType, kc.service.annotations,
      kc.service.sessionAffinity, kc.service.externalIps, kc.service.loadBalancerSourceRanges)
  }

  /** The StatefulSet stored under `name`, if any. */
  function Lookup(sets: map<string, StatefulSet>, name: string): Option<StatefulSet> {
    if name in sets then Some(sets[name]) else None
  }

  /** The master replica count the ConfigMap is generated for: on an
      update, the count the running master StatefulSet asks for when it
      can be read and sets one; otherwise the configured count. */
  function ActualMasterReplicas(existing: Option<StatefulSet>, kc: KubernetesConfig, isUpdate: bool): nat {
    if isUpdate && SpecReplicas(existing).Some? then AsU32(SpecReplicas(existing).value) else kc.master.replicas
  }

  /** The four names a cluster's objects go by never collide. */
  lemma ClusterNamesDistinct(id: string)
    ensures id + "-master" != id + "-worker"
    ensures id + "-master" != id + "-master-headless"
  {
    assert (id + "-master")[|id| + 1] == 'm';
    assert (id + "-worker")[|id| + 1] == 'w';
  }

  /** All four objects of the cluster are stored, each owned by the
      ConfigMap through its uid. */
  predicate ClusterApplied(store: Store, id: string)
    reads store
  {
    var cm := ConfigMapName(id);
    && cm in store.configMaps && store.configMaps[cm].metadata.uid.Some?
    && var owners := OwnerReferences(id, store.configMaps[cm].metadata.uid);
    && id + "-master" in store.statefulSets && store.statefulSets[id + "-master"].metadata.ownerReferences == owners
    && id + "-worker" in store.statefulSets && store.statefulSets[id + "-worker"].metadata.ownerReferences == owners
    && id + "-master" in store.services && store.services[id + "-master"].metadata.ownerReferences == owners
    && id + "-master-headless" in store.services
    && store.services[id + "-master-headless"].metadata.ownerReferences == owners
  }

  const UID_NOT_FOUND: string := "ConfigMap UID not found"

  /** Applies the ConfigMap, reads it back and yields its uid; nothing else
      is written. */
  method ApplyConfigMapStep(store: Store, b: ConfigMapResource.ConfigMapBuilder) returns (r: Result<string, KubeError>)
    modifies store
    ensures var cm := ConfigMapName(b.clusterId);
      r.Ok? <==> cm !in store.rejected && (cm in old(store.configMaps) ==> old(store.configMaps)[cm].metadata.uid.Some?)
    ensures ConfigMapName(b.clusterId) in store.rejected ==> r == Err(Rejected) && unchanged(store)
    ensures r.Err? && ConfigMapName(b.clusterId) !in store.rejected ==> r == Err(ValidationError(UID_NOT_FOUND))
    ensures r.Ok? ==>
      var cm := ConfigMapName(b.clusterId);
      && cm in store.configMaps && store.configMaps[cm].metadata.uid == Some(r.value)
      && store.configMaps[cm].data == ConfigMapResource.Build(b).data
    ensures store.statefulSets == old(store.statefulSets) && store.services == old(store.services)
    ensures store.pvcs == old(store.pvcs)
  {
    var cm := ConfigMapResource.Build(b);
    var applied := store.ApplyConfigMap(cm);
    if applied.Err? {
      return Err(applied.error);
    }
    var read := store.GetConfigMap(ConfigMapName(b.clusterId));
    if read.Err? {
      // The read follows a successful write of the same name.
      assert false;
    }
    if read.value.metadata.uid.None? {
      return Err(ValidationError(UID_NOT_FOUND));
    }
    r := Ok(read.value.metadata.uid.value);
  }

  /** Builds the master StatefulSet owned by the ConfigMap and applies it;
      only that StatefulSet is written. */
  method ApplyMasterStep(store: Store, b: MasterStatefulSet.MasterBuilder, envKeys: seq<string>,
                         load: Result<PodTemplate.CurvinePod, KubeError>, uid: string) returns (r: Result<(), KubeError>)
    requires EnvBuilder.IsKeyOrder(envKeys, b.config.master.envVars)
    modifies store
    ensures b.config.master.podTemplate.Some? && load.Err? ==> r == Err(load.error)
    ensures r.Err? ==> store.statefulSets == old(store.statefulSets) && store.created == old(store.created)
    ensures r.Ok? ==>
      var name := b.clusterId + "-master";
      && (b.config.master.podTemplate.Some? ==> load.Ok?)
      && name in store.statefulSets && name !in store.rejected
      && store.statefulSets[name].metadata.ownerReferences == OwnerReferences(b.clusterId, Some(uid))
      && store.statefulSets[name].metadata.labels == Some(Labels.ResourceLabels(b.clusterId, COMPONENT_MASTER))
      && store.statefulSets == old(store.statefulSets)[name := store.statefulSets[name]]
    ensures store.configMaps == old(store.configMaps) && store.services == old(store.services)
    ensures store.pvcs == old(store.pvcs)
  {
    var built := BuildMaster(b, envKeys, load, uid);
    if built.Err? {
      return Err(built.error);
    }
    r := store.ApplyStatefulSet(built.value);
  }

  /** `build_with_owner` for the master, as far as applying it needs. */
  method BuildMaster(b: MasterStatefulSet.MasterBuilder, envKeys: seq<string>,
                     load: Result<PodTemplate.CurvinePod, KubeError>, uid: string) returns (r: Result<StatefulSet, KubeError>)
    requires EnvBuilder.IsKeyOrder(envKeys, b.config.master.envVars)
    ensures b.config.master.podTemplate.Some? && load.Err? ==> r == Err(load.error)
    ensures r.Ok? ==>
      && (b.config.master.podTemplate.Some? ==> load.Ok?)
      && r.value.metadata.name == Some(b.clusterId + "-master")
      && r.value.metadata.ownerReferences == OwnerReferences(b.clusterId, Some(uid))
      && r.value.metadata.labels == Some(Labels.ResourceLabels(b.clusterId, COMPONENT_MASTER))
  {
    MasterStatefulSet.BuildWithOwnerErrors(b, envKeys, load, Some(uid));
    r := MasterStatefulSet.BuildWithOwner(b, envKeys, load, Some(uid));
    if r.Ok? {
      MasterStatefulSet.BuildWithOwnerShape(b, envKeys, load, Some(uid));
    }
  }

  /** Builds the worker StatefulSet and applies it; the Services are
      applied by the steps that follow. */
  method ApplyWorkerStep(store: Store, b: WorkerStatefulSet.WorkerBuilder, envKeys: seq<string>,
                         load: Result<PodTemplate.CurvinePod, KubeError>, uid: string) returns (r: Result<(), KubeError>)
    requires EnvBuilder.IsKeyOrder(envKeys, b.config.worker.envVars)
    modifies store
    ensures b.config.worker.podTemplate.Some? && load.Err? ==> r == Err(load.error)
    ensures r.Err? ==> store.statefulSets == old(store.statefulSets) && store.created == old(store.created)
    ensures r.Ok? ==>
      var name := b.clusterId + "-worker";
      && (b.config.worker.podTemplate.Some? ==> load.Ok?)
      && WorkerStatefulSet.ParsedDirs(b.clusterConf.worker.dataDir).Ok?
      && name in store.statefulSets && name !in store.rejected
      && store.statefulSets[name].metadata.ownerReferences == OwnerReferences(b.clusterId, Some(uid))
      && store.statefulSets[name].spec.Some?
      && store.statefulSets[name].spec.value.replicas == Some(b.config.worker.replicas)
      && store.statefulSets == old(store.statefulSets)[name := store.statefulSets[name]]
    ensures store.configMaps == old(store.configMaps) && store.services == old(store.services)
    ensures store.pvcs == old(store.pvcs)
  {
    var built := BuildWorker(b, envKeys, load, uid);
    if built.Err? {
      return Err(built.error);
    }
    r := store.ApplyStatefulSet(built.value);
  }

  /** `build_with_owner` for the worker, as far as applying it needs. */
  method BuildWorker(b: WorkerStatefulSet.WorkerBuilder, envKeys: seq<string>,
                     load: Result<PodTemplate.CurvinePod, KubeError>, uid: string) returns (r: Result<StatefulSet, KubeError>)
    requires EnvBuilder.IsKeyOrder(envKeys, b.config.worker.envVars)
    ensures b.config.worker.podTemplate.Some? && load.Err? ==> r == Err(load.error)
    ensures r.Ok? ==>
      && (b.config.worker.podTemplate.Some? ==> load.Ok?)
      && WorkerStatefulSet.ParsedDirs(b.clusterConf.worker.dataDir).Ok?
      && r.value.metadata.name == Some(b.clusterId + "-worker")
      && r.value.metadata.ownerReferences == OwnerReferences(b.clusterId, Some(uid))
      && r.value.spec.Some? && r.value.spec.value.replicas == Some(b.config.worker.replicas)
  {
    WorkerStatefulSet.WorkerBuildErrors(b, envKeys, load, Some(uid));
    r := WorkerStatefulSet.BuildWithOwner(b, envKeys, load, Some(uid));
    if r.Ok? {
      WorkerStatefulSet.WorkerBuildShape(b, envKeys, load, Some(uid));
    }
  }

  /** Applies the headless Service, then the client Service, both owned by
      the ConfigMap; only Services are written. */
  method ApplyServicesStep(store: Store, kc: KubernetesConfig, uid: string) returns (r: Result<(), KubeError>)
    modifies store
    ensures var id := kc.clusterId;
      r.Ok? <==> id + "-master-headless" !in store.rejected && id + "-master" !in store.rejected
    ensures r.Ok? ==>
      var id := kc.clusterId;
      && id + "-master-headless" in store.services && id + "-master" in store.services
      && store.services[id + "-master-headless"].metadata.ownerReferences == OwnerReferences(id, Some(uid))
      && store.services[id + "-master"].metadata.ownerReferences == OwnerReferences(id, Some(uid))
    ensures store.configMaps == old(store.configMaps) && store.statefulSets == old(store.statefulSets)
    ensures store.pvcs == old(store.pvcs)
  {
    var id := kc.clusterId;
    var hb := HeadlessService.HeadlessServiceBuilder(id, kc.namespace);
    HeadlessService.HeadlessShape(hb, Some(uid));
    var headless := HeadlessService.BuildWithOwner(hb, Some(uid)).value;
    var sb := ServiceBuilderOf(kc);
    var service := MasterService.BuildWithOwner(sb, Some(uid));
    MasterService.ServiceShape(sb, MasterService.PortsOf(MasterService.MASTER_SERVICE_PORTS + [MasterService.WORKER_SERVICE_PORT]), Some(uid));
    ClusterNamesDistinct(id);
    var applied := store.ApplyService(headless);
    if applied.Err? {
      return applied;
    }
    r := store.ApplyService(service.value);
  }

  /** Everything `apply_cluster_internal` writes, in its order: the
      ConfigMap for `masters` master replicas, then the master StatefulSet,
      the worker StatefulSet, the headless Service and the client Service,
      stopping at the first failure. */
  method ApplyObjects(store: Store, conf: ClusterConf, kc: KubernetesConfig, inputs: ClusterInputs,
                      masters: nat, isUpdate: bool) returns (r: Result<(), KubeError>)
    requires InputsFit(inputs, kc)
    modifies store
    ensures ConfigMapName(kc.clusterId) in store.rejected ==>
      && r == Err(Rejected) && store.configMaps == old(store.configMaps)
      && store.statefulSets == old(store.statefulSets) && store.services == old(store.services)
    ensures var cm := ConfigMapName(kc.clusterId);
      cm !in store.rejected && cm in old(store.configMaps) && old(store.configMaps)[cm].metadata.uid.None? ==>
        r == Err(ValidationError(UID_NOT_FOUND))
        && store.statefulSets == old(store.statefulSets) && store.services == old(store.services)
    ensures kc.master.podTemplate.Some? && inputs.masterTemplate.Err? ==>
      r.Err? && store.statefulSets == old(store.statefulSets) && store.services == old(store.services)
    ensures store.services != old(store.services) ==>
      kc.clusterId + "-master" in store.statefulSets && kc.clusterId + "-worker" in store.statefulSets
    ensures r.Ok? ==> ClusterApplied(store, kc.clusterId)
    ensures r.Ok? ==>
      && store.statefulSets[kc.clusterId + "-worker"].spec.Some?
      && store.statefulSets[kc.clusterId + "-worker"].spec.value.replicas == Some(kc.worker.replicas)
      && (kc.worker.podTemplate.Some? ==> inputs.workerTemplate.Ok?)
      && WorkerStatefulSet.ParsedDirs(conf.worker.dataDir).Ok?
    ensures r.Ok? ==>
      store.configMaps[ConfigMapName(kc.clusterId)].data == ConfigMapResource.Build(ConfigMapBuilderOf(conf, kc, masters)).data
    ensures store.pvcs == old(store.pvcs)
  {
    var id := kc.clusterId;
    var uid := ApplyConfigMapStep(store, ConfigMapBuilderOf(conf, kc, masters));
    if uid.Err? {
      return Err(uid.error);
    }
    var master := ApplyMasterStep(store, MasterBuilderOf(conf, kc, isUpdate), inputs.masterEnvKeys, inputs.masterTemplate, uid.value);
    if master.Err? {
      return master;
    }
    var worker := ApplyWorkerStep(store, WorkerBuilderOf(conf, kc), inputs.workerEnvKeys, inputs.workerTemplate, uid.value);
    if worker.Err? {
      return worker;
    }
    ClusterNamesDistinct(id);
    r := ApplyServicesStep(store, kc, uid.value);
  }

  /** `apply_cluster_internal`. On a first deployment the result is the
      readiness wait's; on an update the objects are applied and nothing is
      awaited. */
  method ApplyClusterInternal(store: Store, conf: ClusterConf, kc: KubernetesConfig, inputs: ClusterInputs,
                              isFirst: bool) returns (r: Result<(), KubeError>)
    requires InputsFit(inputs, kc)
    modifies store
    // A ConfigMap the server refuses stops everything before any write.
    ensures ConfigMapName(kc.clusterId) in store.rejected ==>
      && r == Err(Rejected) && store.configMaps == old(store.configMaps)
      && store.statefulSets == old(store.statefulSets) && store.services == old(store.services)
    // No StatefulSet is written before the ConfigMap's uid is known.
    ensures var cm := ConfigMapName(kc.clusterId);
      cm !in store.rejected && cm in old(store.configMaps) && old(store.configMaps)[cm].metadata.uid.None? ==>
        r == Err(ValidationError(UID_NOT_FOUND))
        && store.statefulSets == old(store.statefulSets) && store.services == old(store.services)
    // A master template that cannot be loaded stops the run before any StatefulSet.
    ensures kc.master.podTemplate.Some? && inputs.masterTemplate.Err? ==>
      r.Err? && store.statefulSets == old(store.statefulSets) && store.services == old(store.services)
    // Services are written only after both StatefulSets.
    ensures store.services != old(store.services) ==>
      kc.clusterId + "-master" in store.statefulSets && kc.clusterId + "-worker" in store.statefulSets
    ensures r.Ok? ==> ClusterApplied(store, kc.clusterId)
    ensures r.Ok? ==>
      && store.statefulSets[kc.clusterId + "-worker"].spec.Some?
      && store.statefulSets[kc.clusterId + "-worker"].spec.value.replicas == Some(kc.worker.replicas)
      && (kc.worker.podTemplate.Some? ==> inputs.workerTemplate.Ok?)
      && WorkerStatefulSet.ParsedDirs(conf.worker.dataDir).Ok?
    // The ConfigMap lists the masters already running when updating.
    ensures r.Ok? ==>
      var masters := ActualMasterReplicas(Lookup(old(store.statefulSets), kc.clusterId + "-master"), kc, !isFirst);
      store.configMaps[ConfigMapName(kc.clusterId)].data == ConfigMapResource.Build(ConfigMapBuilderOf(conf, kc, masters)).data
    ensures r.Ok? && isFirst ==> WaitFrom(kc.clusterId, store.namespace, inputs.polls, inputs.final, 0, 0, 0).Ok?
    ensures store.pvcs == old(store.pvcs)
  {
    var id := kc.clusterId;
    var existing: Option<StatefulSet> := None;
    if !isFirst {
      var found := store.GetStatefulSet(id + "-master");
      if found.Ok? {
        existing := Some(found.value);
      }
    }
    var masters := ActualMasterReplicas(existing, kc, !isFirst);
    assert masters == ActualMasterReplicas(Lookup(old(store.statefulSets), id + "-master"), kc, !isFirst);
    r := ApplyObjects(store, conf, kc, inputs, masters, !isFirst);
    if r.Ok? && isFirst {
      r := WaitForClusterReady(id, store.namespace, inputs.polls, inputs.final);
    }
  }

  // ------------------------------------------------ deploy and update

  const EXISTS_HEAD: string := "\n Cluster already exists\n\n  Cluster ID: '"
  const NAMESPACE_LINE: string := "'\nNamespace: '"
  const EXISTS_HINT: string := "'\n\n To modify the cluster, use the 'update' command:\ncv k8s update -c "
  const EXISTS_EXAMPLES: string := " [options]\n\n Examples:\n- Scale workers: cv k8s update -c "
  const EXISTS_UPGRADE: string := " --worker-replicas 5\n- Upgrade image: cv k8s update -c "
  const EXISTS_TAIL: string := " --master-image docker.io/curvine:v1.0"

  /** The error a deploy of an existing cluster reports, pointing at the
      update command. */
  function AlreadyExistsMessage(id: string, namespace: string): string {
    EXISTS_HEAD + id + NAMESPACE_LINE + namespace + EXISTS_HINT + id + EXISTS_EXAMPLES + id + EXISTS_UPGRADE + id + EXISTS_TAIL
  }

  const MISSING_HEAD: string := "\n Cluster not found\n\n  Cluster ID: '"
  const MISSING_HINT: string := "'\n\n To create a new cluster, use the 'deploy' command:\ncurvine-kube deploy -c "
  const MISSING_EXAMPLE: string := " [options]\n\n Example:\ncurvine-kube deploy -c "
  const MISSING_TAIL: string := " --master-replicas 1 --worker-replicas 1"

  /** The error an update of a missing cluster reports, pointing at the
      deploy command. */
  function NotFoundMessage(id: string, namespace: string): string {
    MISSING_HEAD + id + NAMESPACE_LINE + namespace + MISSING_HINT + id + MISSING_EXAMPLE + id + MISSING_TAIL
  }

  /** `deploy_cluster`: validation, then refusal when the master
      StatefulSet already exists, then a first deployment that waits for
      readiness. */
  method DeployCluster(store: Store, conf: ClusterConf, kc: KubernetesConfig, inputs: ClusterInputs)
    returns (r: Result<(), KubeError>)
    requires InputsFit(inputs, kc)
    modifies store
    ensures var v := Validator.ValidateDeployment(conf, kc, inputs.storageClasses);
      v.Err? ==> r == Err(v.error) && unchanged(store)
    ensures (Validator.ValidateDeployment(conf, kc, inputs.storageClasses).Ok?
             && kc.clusterId + "-master" in old(store.statefulSets)) ==>
      r == Err(ValidationError(AlreadyExistsMessage(kc.clusterId, kc.namespace))) && unchanged(store)
    ensures r.Ok? ==>
      && Validator.ValidateDeployment(conf, kc, inputs.storageClasses).Ok?
      && kc.clusterId + "-master" !in old(store.statefulSets)
      && ClusterApplied(store, kc.clusterId)
      && WaitFrom(kc.clusterId, store.namespace, inputs.polls, inputs.final, 0, 0, 0).Ok?
      && store.configMaps[ConfigMapName(kc.clusterId)].data
         == ConfigMapResource.Build(ConfigMapBuilderOf(conf, kc, kc.master.replicas)).data
    ensures store.pvcs == old(store.pvcs)
  {
    var valid := Validator.ValidateDeployment(conf, kc, inputs.storageClasses);
    if valid.Err? {
      return Err(valid.error);
    }
    var existing := store.GetStatefulSet(kc.clusterId + "-master");
    if existing.Ok? {
      return Err(ValidationError(AlreadyExistsMessage(kc.clusterId, kc.namespace)));
    }
    r := ApplyClusterInternal(store, conf, kc, inputs, true);
  }

  /** `update_cluster`: update validation, then refusal when the master
      StatefulSet is missing, then an update that does not wait. */
  method UpdateCluster(store: Store, conf: ClusterConf, kc: KubernetesConfig, inputs: ClusterInputs)
    returns (r: Result<(), KubeError>)
    requires InputsFit(inputs, kc)
    modifies store
    ensures var v := Validator.ValidateUpdate(kc, inputs.storageClasses);
      v.Err? ==> r == Err(v.error) && unchanged(store)
    ensures (Validator.ValidateUpdate(kc, inputs.storageClasses).Ok?
             && kc.clusterId + "-master" !in old(store.statefulSets)) ==>
      r == Err(ValidationError(NotFoundMessage(kc.clusterId, kc.namespace))) && unchanged(store)
    ensures r.Ok? ==>
      && Validator.ValidateUpdate(kc, inputs.storageClasses).Ok?
      && kc.clusterId + "-master" in old(store.statefulSets)
      && ClusterApplied(store, kc.clusterId)
      && var running := old(store.statefulSets)[kc.clusterId + "-master"];
         store.configMaps[ConfigMapName(kc.clusterId)].data
         == ConfigMapResource.Build(ConfigMapBuilderOf(conf, kc, ActualMasterReplicas(Some(running), kc, true))).data
    ensures store.pvcs == old(store.pvcs)
  {
    var valid := Validator.ValidateUpdate(kc, inputs.storageClasses);
    if valid.Err? {
      return Err(valid.error);
    }
    var existing := store.GetStatefulSet(kc.clusterId + "-master");
    if existing.Err? {
      return Err(ValidationError(NotFoundMessage(kc.clusterId, kc.namespace)));
    }
    r := ApplyClusterInternal(store, conf, kc, inputs, false);
  }

  // ------------------------------------------------------------- status

  /** `StatefulSetStatus`: a workload's name with its wanted and ready
      replica counts, 0 where a count is missing. */
  datatype WorkloadStatus = WorkloadStatus(name: string, replicas: nat, readyReplicas: nat)

  /** `ServiceStatus`: a Service's name and cluster IP. */
  datatype ServiceStatus = ServiceStatus(name: string, clusterIp: Option<string>)

  /** `ClusterStatus`: what the status query found of the cluster. */
  datatype ClusterStatus = ClusterStatus(
    clusterId: string, master: Option<WorkloadStatus>, worker: Option<WorkloadStatus>,
    service: Option<ServiceStatus>, configMap: Option<string>)

  function WorkloadOf(ss: StatefulSet): WorkloadStatus {
    WorkloadStatus(ss.metadata.name.GetOr(""), AsU32(SpecReplicas(Some(ss)).GetOr(0)),
                   AsU32(ReadyCount(Some(ss)).GetOr(0)))
  }

  function ServiceStatusOf(svc: Service): ServiceStatus {
    ServiceStatus(svc.metadata.name.GetOr(""), if svc.spec.Some? then svc.spec.value.clusterIP else None)
  }

  /** The status `get_cluster_status` reports. The worker is looked up as
      a Deployment named `{id}-worker`; the cluster holds no Deployments
      (the descriptor creates the worker as a StatefulSet), so that lookup
      is NotFound and the worker is never reported. */
  function ReportedStatus(id: string, sets: map<string, StatefulSet>, services: map<string, Service>,
                          cms: map<string, ConfigMap>): ClusterStatus {
    ClusterStatus(id,
      if id + "-master" in sets then Some(WorkloadOf(sets[id + "-master"])) else None,
      None,
      if id + "-master" in services then Some(ServiceStatusOf(services[id + "-master"])) else None,
      if ConfigMapName(id) in cms then Some(cms[ConfigMapName(id)].metadata.name.GetOr("")) else None)
  }

  /** The evidently intended status: the worker read as the StatefulSet
      `{id}-worker` that `apply_cluster_internal` creates. */
  function IntendedStatus(id: string, sets: map<string, StatefulSet>, services: map<string, Service>,
                          cms: map<string, ConfigMap>): ClusterStatus {
    ReportedStatus(id, sets, services, cms).(
      worker := if id + "-worker" in sets then Some(WorkloadOf(sets[id + "-worker"])) else None)
  }

  /** `get_cluster_status`: each object is read once; a missing one is
      left unset. */
  method GetClusterStatus(store: Store, clusterId: string) returns (r: Result<ClusterStatus, KubeError>)
    ensures r == Ok(ReportedStatus(clusterId, store.statefulSets, store.services, store.configMaps))
  {
    var master: Option<WorkloadStatus> := None;
    var masterFound := store.GetStatefulSet(clusterId + "-master");
    if masterFound.Ok? {
      master := Some(WorkloadOf(masterFound.value));
    }
    // The Deployment lookup for the worker finds nothing in this cluster.
    var worker: Option<WorkloadStatus> := None;
    var service: Option<ServiceStatus> := None;
    var serviceFound := store.GetService(clusterId + "-master");
    if serviceFound.Ok? {
      service := Some(ServiceStatusOf(serviceFound.value));
    }
    var configMap: Option<string> := None;
    var cmFound := store.GetConfigMap(ConfigMapName(clusterId));
    if cmFound.Ok? {
      configMap := Some(cmFound.value.metadata.name.GetOr(""));
    }
    r := Ok(ClusterStatus(clusterId, master, worker, service, configMap));
  }

  /** Each part of the status is reported exactly when its object exists,
      and the reported status is the intended one without its worker. */
  lemma StatusParts(id: string, sets: map<string, StatefulSet>, services: map<string, Service>,
                    cms: map<string, ConfigMap>)
    ensures var s := IntendedStatus(id, sets, services, cms);
      && s.clusterId == id
      && (s.master.Some? <==> id + "-master" in sets)
      && (s.worker.Some? <==> id + "-worker" in sets)
      && (s.service.Some? <==> id + "-master" in services)
      && (s.configMap.Some? <==> ConfigMapName(id) in cms)
      && ReportedStatus(id, sets, services, cms) == s.(worker := None)
  {
  }

  /** For a cluster the descriptor has applied, the reported status omits
      the worker although its StatefulSet exists. */
  lemma StatusMissesWorker(store: Store, id: string)
    requires ClusterApplied(store, id)
    ensures id + "-worker" in store.statefulSets
    ensures ReportedStatus(id, store.statefulSets, store.services, store.configMaps).worker.None?
  {
  }

  /** For a cluster the descriptor has applied, the intended status
      reports all four objects, the worker with its StatefulSet's counts. */
  lemma IntendedStatusReportsWorker(store: Store, id: string)
    requires ClusterApplied(store, id)
    ensures var s := IntendedStatus(id, store.statefulSets, store.services, store.configMaps);
      && s.master.Some? && s.worker.Some? && s.service.Some? && s.configMap.Some?
      && s.worker.value.replicas == AsU32(SpecReplicas(Some(store.statefulSets[id + "-worker"])).GetOr(0))
      && s.worker.value.readyReplicas == AsU32(ReadyCount(Some(store.statefulSets[id + "-worker"])).GetOr(0))
  {
  }

  // ------------------------------------------------------------ delete

  /** `delete_cluster`: the store's stop-and-cleanup. For a cluster the
      descriptor applied, only its ConfigMap is deleted: the StatefulSets
      and Services stay, each naming the deleted ConfigMap as its owner,
      which is what the platform's garbage collector acts on. */
  method DeleteCluster(store: Store, clusterId: string, deletePvcs: bool) returns (r: Result<(), KubeError>)
    modifies store
    ensures var cm, master, worker := ConfigMapName(clusterId), clusterId + "-master", clusterId + "-worker";
      cm !in old(store.configMaps) && master !in old(store.statefulSets) && worker !in old(store.statefulSets) ==>
        r == Err(NotFound("Cluster", clusterId, store.namespace)) && unchanged(store)
    ensures old(ClusterApplied(store, clusterId)) && ConfigMapName(clusterId) !in store.rejected ==>
      && r == Ok(())
      && ConfigMapName(clusterId) !in store.configMaps
      && store.statefulSets == old(store.statefulSets) && store.services == old(store.services)
      && store.statefulSets[clusterId + "-worker"].metadata.ownerReferences
         == OwnerReferences(clusterId, old(store.configMaps[ConfigMapName(clusterId)].metadata.uid))
  {
    r := store.StopAndCleanupCluster(clusterId, deletePvcs);
  }

  // ------------------------------------------------------------ listing

  /** `ClusterInfo`: one row of the cluster listing. */
  datatype ClusterInfo = ClusterInfo(
    clusterId: string, namespace: string,
    masterReplicas: nat, masterReady: nat, workerReplicas: nat, workerReady: nat)

  /** The cluster a ConfigMap belongs to: its name without the `-config`
      suffix, for names that carry it. */
  function ClusterIdOf(cm: ConfigMap): (r: Option<string>)
    ensures r.Some? <==> cm.metadata.name.Some? && EndsWith(cm.metadata.name.value, SERVICE_SUFFIX_CONFIG)
    ensures r.Some? ==> cm.metadata.name == Some(ConfigMapName(r.value))
  {
    if cm.metadata.name.Some? && EndsWith(cm.metadata.name.value, SERVICE_SUFFIX_CONFIG) then
      var name := cm.metadata.name.value;
      assert name == name[..|name| - |SERVICE_SUFFIX_CONFIG|] + SERVICE_SUFFIX_CONFIG;
      Some(name[..|name| - |SERVICE_SUFFIX_CONFIG|])
    else None
  }

  /** The ConfigMap of cluster `id` is listed as cluster `id`. */
  lemma ClusterIdOfConfigMap(cm: ConfigMap, id: string)
    requires cm.metadata.name == Some(ConfigMapName(id))
    ensures ClusterIdOf(cm) == Some(id)
  {
    ConcatAffixes(id, SERVICE_SUFFIX_CONFIG);
    var name := ConfigMapName(id);
    assert name[..|name| - |SERVICE_SUFFIX_CONFIG|] == id;
  }

  /** The row for cluster `id`: the replica and ready counts of its two
      StatefulSets, 0 where a StatefulSet or a count is missing. */
  function InfoOf(id: string, namespace: string, sets: map<string, StatefulSet>): ClusterInfo {
    var master, worker := Lookup(sets, id + "-master"), Lookup(sets, id + "-worker");
    ClusterInfo(id, namespace,
      AsU32(SpecReplicas(master).GetOr(0)), AsU32(ReadyCount(master).GetOr(0)),
      AsU32(SpecReplicas(worker).GetOr(0)), AsU32(ReadyCount(worker).GetOr(0)))
  }

  /** The listing of the ConfigMaps `cms`, in their order, skipping those
      whose name lacks the suffix. */
  function ClusterInfos(cms: seq<ConfigMap>, namespace: string, sets: map<string, StatefulSet>): (r: seq<ClusterInfo>)
    ensures |r| <= |cms|
  {
    if cms == [] then []
    else
      var rest := ClusterInfos(cms[..|cms| - 1], namespace, sets);
      var id := ClusterIdOf(cms[|cms| - 1]);
      if id.Some? then rest + [InfoOf(id.value, namespace, sets)] else rest
  }

  /** `list_clusters`: `listed` is what the labelled ConfigMap query
      returns. */
  method ListClusters(store: Store, listed: Result<seq<ConfigMap>, KubeError>) returns (r: Result<seq<ClusterInfo>, KubeError>)
    ensures listed.Err? ==> r == Err(listed.error)
    ensures listed.Ok? ==> r == Ok(ClusterInfos(listed.value, store.namespace, store.statefulSets))
  {
    if listed.Err? {
      return Err(listed.error);
    }
    var cms := listed.value;
    var clusters: seq<ClusterInfo> := [];
    var i := 0;
    while i < |cms|
      invariant i <= |cms|
      invariant clusters == ClusterInfos(cms[..i], store.namespace, store.statefulSets)
    {
      assert cms[..i + 1][..i] == cms[..i];
      var id := ClusterIdOf(cms[i]);
      if id.Some? {
        var masterFound := store.GetStatefulSet(id.value + "-master");
        var workerFound := store.GetStatefulSet(id.value + "-worker");
        var master := if masterFound.Ok? then Some(masterFound.value) else None;
        var worker := if workerFound.Ok? then Some(workerFound.value) else None;
        clusters := clusters + [ClusterInfo(id.value, store.namespace,
          AsU32(SpecReplicas(master).GetOr(0)), AsU32(ReadyCount(master).GetOr(0)),
          AsU32(SpecReplicas(worker).GetOr(0)), AsU32(ReadyCount(worker).GetOr(0)))];
      }
      i := i + 1;
    }
    assert cms[..i] == cms;
    r := Ok(clusters);
  }

  /** Every row comes from a listed ConfigMap named after its cluster, and
      every listed ConfigMap with the suffix gives a row. */
  lemma {:induction false} ClusterInfosContents(cms: seq<ConfigMap>, namespace: string, sets: map<string, StatefulSet>)
    ensures forall info :: info in ClusterInfos(cms, namespace, sets) ==>
      (exists cm :: cm in cms && cm.metadata.name == Some(ConfigMapName(info.clusterId)))
      && info == InfoOf(info.clusterId, namespace, sets)
    ensures forall cm :: cm in cms && ClusterIdOf(cm).Some? ==>
      InfoOf(ClusterIdOf(cm).value, namespace, sets) in ClusterInfos(cms, namespace, sets)
  {
    if cms != [] {
      var init := cms[..|cms| - 1];
      ClusterInfosContents(init, namespace, sets);
      assert cms == init + [cms[|cms| - 1]];
    }
  }

  /** A cluster the descriptor has applied is listed, with the counts of
      its StatefulSets, once the query returns its ConfigMap. */
  lemma ListsAppliedCluster(store: Store, id: string, cms: seq<ConfigMap>)
    requires ClusterApplied(store, id)
    requires store.configMaps[ConfigMapName(id)] in cms
    requires store.configMaps[ConfigMapName(id)].metadata.name == Some(ConfigMapName(id))
    ensures var info := InfoOf(id, store.namespace, store.statefulSets);
      && info in ClusterInfos(cms, store.namespace, store.statefulSets)
      && info.masterReplicas == AsU32(SpecReplicas(Some(store.statefulSets[id + "-master"])).GetOr(0))
      && info.workerReady == AsU32(ReadyCount(Some(store.statefulSets[id + "-worker"])).GetOr(0))
  {
    ClusterIdOfConfigMap(store.configMaps[ConfigMapName(id)], id);
    ClusterInfosContents(cms, store.namespace, store.statefulSets);
  }
}
