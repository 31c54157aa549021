/** The cluster client (src/infrastructure/kubernetes/client.rs) over an
    abstract API server: named ConfigMaps, StatefulSets, Services and
    claims in one namespace. Applying an object creates it when its name is
    unknown and patches it otherwise; a StatefulSet patch that would change
    its claim templates is refused; a Service patch keeps the cluster IP the
    server assigned; cleanup deletes what it can. */
module KubeStore {
  import opened Wrappers
  import opened Strings
  import opened K8s
  import opened Constants
  import opened ManifestCommon

  // ------------------------------------------- claim-template guard

  const GUARD_COUNT_MESSAGE: string :=
    "StatefulSet volumeClaimTemplates count cannot be changed. Please delete and recreate the StatefulSet."
  const GUARD_HEAD: string := "StatefulSet volumeClaimTemplate["
  const GUARD_TAIL: string := " cannot be changed. Please delete and recreate the StatefulSet."
  const FIELD_NAME: string := "name"
  const FIELD_STORAGE_CLASS: string := "storageClassName"
  const FIELD_ACCESS_MODES: string := "accessModes"
  const FIELD_STORAGE_SIZE: string := "storage size"

  /** The refusal naming the template index and the field that changed. */
  function GuardError(idx: nat, field: string): KubeError {
    ConfigError(GUARD_HEAD + NatToString(idx) + "] " + field + GUARD_TAIL)
  }

  /** A claim's storage request, when it has requests at all. */
  function StorageOf(requests: StringMap): Option<string> {
    if "storage" in requests then Some(requests["storage"]) else None
  }

  /** The first field of template `idx` that an update would change, in the
      order the client compares them; the class, modes and size are only
      compared when both templates have a spec, and the size only when
      both have requests. */
  function ClaimChange(idx: nat, old_: PersistentVolumeClaim, new_: PersistentVolumeClaim): Option<KubeError> {
    if old_.metadata.name != new_.metadata.name then Some(GuardError(idx, FIELD_NAME))
    else if old_.spec.None? || new_.spec.None? then None
    else
      var os, ns := old_.spec.value, new_.spec.value;
      if os.storageClassName != ns.storageClassName then Some(GuardError(idx, FIELD_STORAGE_CLASS))
      else if os.accessModes != ns.accessModes then Some(GuardError(idx, FIELD_ACCESS_MODES))
      else if os.resources.Some? && ns.resources.Some?
              && os.resources.value.requests.Some? && ns.resources.value.requests.Some?
              && StorageOf(os.resources.value.requests.value) != StorageOf(ns.resources.value.requests.value)
      then Some(GuardError(idx, FIELD_STORAGE_SIZE))
      else None
  }

  /** A template may replace another: same name and, where both are
      specified, the same class, access modes and storage request. */
  predicate ClaimsCompatible(old_: PersistentVolumeClaim, new_: PersistentVolumeClaim) {
    && old_.metadata.name == new_.metadata.name
    && (old_.spec.Some? && new_.spec.Some? ==>
         && old_.spec.value.storageClassName == new_.spec.value.storageClassName
         && old_.spec.value.accessModes == new_.spec.value.accessModes
         && (old_.spec.value.resources.Some? && new_.spec.value.resources.Some?
             && old_.spec.value.resources.value.requests.Some? && new_.spec.value.resources.value.requests.Some? ==>
               StorageOf(old_.spec.value.resources.value.requests.value)
               == StorageOf(new_.spec.value.resources.value.requests.value)))
  }

  /** The field-by-field comparison reports nothing exactly for compatible
      templates, and what it reports names the template's index. */
  lemma ClaimChangeIff(idx: nat, old_: PersistentVolumeClaim, new_: PersistentVolumeClaim)
    ensures ClaimChange(idx, old_, new_).None? <==> ClaimsCompatible(old_, new_)
    ensures ClaimChange(idx, old_, new_).Some? ==>
      exists field :: field in {FIELD_NAME, FIELD_STORAGE_CLASS, FIELD_ACCESS_MODES, FIELD_STORAGE_SIZE}
        && ClaimChange(idx, old_, new_) == Some(GuardError(idx, field))
  {
  }

  function ClaimChanges(olds: seq<PersistentVolumeClaim>, news: seq<PersistentVolumeClaim>): (r: seq<Option<KubeError>>)
    requires |olds| == |news|
    ensures |r| == |olds| && forall i :: 0 <= i < |olds| ==> r[i] == ClaimChange(i, olds[i], news[i])
  {
    seq(|olds|, i requires 0 <= i < |olds| => ClaimChange(i, olds[i], news[i]))
  }

  /** What the guard in `apply_statefulset` decides about replacing
      `existing` with `updated`: nothing to object to unless both have a
      spec and both specs list templates; then a different count, else the
      first template that changes. */
  function TemplateGuard(existing: StatefulSet, updated: StatefulSet): Option<KubeError> {
    if existing.spec.None? || updated.spec.None? then None
    else
      var olds, news := existing.spec.value.volumeClaimTemplates, updated.spec.value.volumeClaimTemplates;
      if olds.None? || news.None? then None
      else if |olds.value| != |news.value| then Some(ConfigError(GUARD_COUNT_MESSAGE))
      else FirstError(ClaimChanges(olds.value, news.value), 0)
  }

  /** The zipped loop over the two template lists, stopping at the first
      change. */
  method CheckClaimTemplates(olds: seq<PersistentVolumeClaim>, news: seq<PersistentVolumeClaim>)
    returns (r: Option<KubeError>)
    requires |olds| == |news|
    ensures r == FirstError(ClaimChanges(olds, news), 0)
  {
    ghost var changes := ClaimChanges(olds, news);
    var idx := 0;
    while idx < |olds|
      invariant idx <= |olds|
      invariant FirstError(changes, 0) == FirstError(changes, idx)
    {
      FirstErrorStep(changes, idx);
      var change := ClaimChange(idx, olds[idx], news[idx]);
      if change.Some? {
        return change;
      }
      idx := idx + 1;
    }
    r := None;
  }

  /** The guard lets an update through exactly when it leaves the templates
      alone: specs or template lists missing on either side, or the same
      number of templates, each compatible with the one it replaces. A
      refusal names the first template that changes. */
  lemma TemplateGuardIff(existing: StatefulSet, updated: StatefulSet)
    ensures TemplateGuard(existing, updated).None? <==>
      (|| existing.spec.None? || updated.spec.None?
       || existing.spec.value.volumeClaimTemplates.None? || updated.spec.value.volumeClaimTemplates.None?
       || (var olds, news := existing.spec.value.volumeClaimTemplates.value, updated.spec.value.volumeClaimTemplates.value;
           |olds| == |news| && forall i :: 0 <= i < |olds| ==> ClaimsCompatible(olds[i], news[i])))
    ensures TemplateGuard(existing, updated).Some?
            && |existing.spec.value.volumeClaimTemplates.value| == |updated.spec.value.volumeClaimTemplates.value| ==>
      var olds, news := existing.spec.value.volumeClaimTemplates.value, updated.spec.value.volumeClaimTemplates.value;
      exists j :: 0 <= j < |olds| && !ClaimsCompatible(olds[j], news[j])
        && TemplateGuard(existing, updated) == ClaimChange(j, olds[j], news[j])
        && forall k :: 0 <= k < j ==> ClaimsCompatible(olds[k], news[k])
  {
    if existing.spec.Some? && updated.spec.Some?
       && existing.spec.value.volumeClaimTemplates.Some? && updated.spec.value.volumeClaimTemplates.Some? {
      var olds, news := existing.spec.value.volumeClaimTemplates.value, updated.spec.value.volumeClaimTemplates.value;
      if |olds| == |news| {
        var changes := ClaimChanges(olds, news);
        FirstErrorIsFirst(changes, 0);
        forall i | 0 <= i < |olds| ensures changes[i].None? <==> ClaimsCompatible(olds[i], news[i]) {
          ClaimChangeIff(i, olds[i], news[i]);
        }
      }
    }
  }

  /** Re-applying the same templates is always allowed. */
  lemma TemplateGuardAcceptsSame(existing: StatefulSet, updated: StatefulSet)
    requires existing.spec.Some? && updated.spec.Some?
    requires existing.spec.value.volumeClaimTemplates == updated.spec.value.volumeClaimTemplates
    ensures TemplateGuard(existing, updated).None?
  {
    TemplateGuardIff(existing, updated);
  }

  // ------------------------------------------------- the object store

  const NAME_REQUIRED: string := " name is required"
  const REJECTED_MESSAGE: string := "the API server rejected the request"
  const DELETE_MISSING_MESSAGE: string := "the object to delete does not exist"
  const UID_PREFIX: string := "uid-"

  /** The error for an object without a name. */
  function NameRequired(kind: string): KubeError { ConfigError(kind + NAME_REQUIRED) }

  /** The error of a write the API server refuses. */
  const Rejected: KubeError := KubeApiError(REJECTED_MESSAGE)

  /** The uid the server gives the n-th object it creates. */
  function UidOf(n: nat): string { UID_PREFIX + NatToString(n) }

  /** The stored form of a patched object: the new content under the uid
      the server assigned to the existing one. */
  function KeepUid(m: ObjectMeta, existing: ObjectMeta): ObjectMeta {
    m.(uid := existing.uid)
  }

  /** The Service a patch stores: the new one, keeping the existing uid
      and, when both have a spec, the existing cluster IPs. */
  function PatchedService(existing: Service, updated: Service): (r: Service)
    ensures r.metadata.uid == existing.metadata.uid && r.metadata.name == updated.metadata.name
    ensures r.spec.Some? <==> updated.spec.Some?
    ensures existing.spec.Some? && updated.spec.Some? ==>
      r.spec.value == updated.spec.value.(clusterIP := existing.spec.value.clusterIP,
                                          clusterIPs := existing.spec.value.clusterIPs)
    ensures existing.spec.None? ==> r.spec == updated.spec
  {
    var spec := if existing.spec.Some? && updated.spec.Some? then
        Some(updated.spec.value.(clusterIP := existing.spec.value.clusterIP,
                                 clusterIPs := existing.spec.value.clusterIPs))
      else updated.spec;
    Service(KeepUid(updated.metadata, existing.metadata), spec)
  }

  /** A claim created for the cluster: labelled with its id. */
  predicate OwnedBy(pvc: PersistentVolumeClaim, clusterId: string) {
    pvc.metadata.labels.Some? && LABEL_APP in pvc.metadata.labels.value
    && pvc.metadata.labels.value[LABEL_APP] == clusterId
  }

  /** The claims left after deleting the cluster's claims one by one,
      ignoring refused deletions; `pending` are those not yet reached. */
  function ClaimsLeft(pvcs: map<string, PersistentVolumeClaim>, clusterId: string, rejected: set<string>,
                      pending: set<string>): (r: map<string, PersistentVolumeClaim>)
    ensures forall n :: n in r <==> n in pvcs && (!OwnedBy(pvcs[n], clusterId) || n in rejected || n in pending)
    ensures forall n :: n in r ==> r[n] == pvcs[n]
  {
    map n | n in pvcs && (!OwnedBy(pvcs[n], clusterId) || n in rejected || n in pending) :: pvcs[n]
  }

  /** The objects the client talks to, by name. Writes to names in
      `rejected` fail as the API server would fail them. */
  class Store {
    const namespace: string
    const rejected: set<string>
    var configMaps: map<string, ConfigMap>
    var statefulSets: map<string, StatefulSet>
    var services: map<string, Service>
    var pvcs: map<string, PersistentVolumeClaim>
    var created: nat

    constructor (namespace: string, rejected: set<string>, configMaps: map<string, ConfigMap>,
                 statefulSets: map<string, StatefulSet>, services: map<string, Service>,
                 pvcs: map<string, PersistentVolumeClaim>)
      ensures this.namespace == namespace && this.rejected == rejected
      ensures this.configMaps == configMaps && this.statefulSets == statefulSets
      ensures this.services == services && this.pvcs == pvcs && this.created == 0
    {
      this.namespace := namespace;
      this.rejected := rejected;
      this.configMaps := configMaps;
      this.statefulSets := statefulSets;
      this.services := services;
      this.pvcs := pvcs;
      this.created := 0;
    }

    /** `get_configmap`: a missing name is NotFound. */
    method GetConfigMap(name: string) returns (r: Result<ConfigMap, KubeError>)
      ensures r.Ok? <==> name in configMaps
      ensures r.Ok? ==> r.value == configMaps[name]
      ensures r.Err? ==> r.error == NotFound("ConfigMap", name, namespace)
    {
      if name in configMaps {
        r := Ok(configMaps[name]);
      } else {
        r := Err(NotFound("ConfigMap", name, namespace));
      }
    }

    /** `get_statefulset`: a missing name is NotFound. */
    method GetStatefulSet(name: string) returns (r: Result<StatefulSet, KubeError>)
      ensures r.Ok? <==> name in statefulSets
      ensures r.Ok? ==> r.value == statefulSets[name]
      ensures r.Err? ==> r.error == NotFound("StatefulSet", name, namespace)
    {
      if name in statefulSets {
        r := Ok(statefulSets[name]);
      } else {
        r := Err(NotFound("StatefulSet", name, namespace));
      }
    }

    /** `get_service`: a missing name is NotFound. */
    method GetService(name: string) returns (r: Result<Service, KubeError>)
      ensures r.Ok? <==> name in services
      ensures r.Ok? ==> r.value == services[name]
      ensures r.Err? ==> r.error == NotFound("Service", name, namespace)
    {
      if name in services {
        r := Ok(services[name]);
      } else {
        r := Err(NotFound("Service", name, namespace));
      }
    }

    /** `apply_configmap`: patch an existing ConfigMap, create one whose
        name is unknown (a 404 on the lookup). */
    method ApplyConfigMap(cm: ConfigMap) returns (r: Result<(), KubeError>)
      modifies this
      ensures cm.metadata.name.None? ==> r == Err(NameRequired("ConfigMap"))
      ensures cm.metadata.name.Some? && cm.metadata.name.value in rejected ==> r == Err(Rejected)
      ensures r.Err? ==> unchanged(this)
      ensures cm.metadata.name.Some? && cm.metadata.name.value !in rejected ==>
        var name := cm.metadata.name.value;
        && r == Ok(())
        && configMaps == old(configMaps)[name := if name in old(configMaps)
             then cm.(metadata := KeepUid(cm.metadata, old(configMaps)[name].metadata))
             else cm.(metadata := cm.metadata.(uid := Some(UidOf(old(created)))))]
        && created == (if name in old(configMaps) then old(created) else old(created) + 1)
        && statefulSets == old(statefulSets) && services == old(services) && pvcs == old(pvcs)
    {
      if cm.metadata.name.None? {
        return Err(NameRequired("ConfigMap"));
      }
      var name := cm.metadata.name.value;
      if name in rejected {
        return Err(Rejected);
      }
      if name in configMaps {
        configMaps := configMaps[name := cm.(metadata := KeepUid(cm.metadata, configMaps[name].metadata))];
      } else {
        configMaps := configMaps[name := cm.(metadata := cm.metadata.(uid := Some(UidOf(created))))];
        created := created + 1;
      }
      r := Ok(());
    }

    /** `apply_service`: as for ConfigMaps, but a patch keeps the cluster
        IPs of the Service already there. */
    method ApplyService(svc: Service) returns (r: Result<(), KubeError>)
      modifies this
      ensures svc.metadata.name.None? ==> r == Err(NameRequired("Service"))
      ensures svc.metadata.name.Some? && svc.metadata.name.value in rejected ==> r == Err(Rejected)
      ensures r.Err? ==> unchanged(this)
      ensures svc.metadata.name.Some? && svc.metadata.name.value !in rejected ==>
        var name := svc.metadata.name.value;
        && r == Ok(())
        && services == old(services)[name := if name in old(services)
             then PatchedService(old(services)[name], svc)
             else svc.(metadata := svc.metadata.(uid := Some(UidOf(old(created)))))]
        && created == (if name in old(services) then old(created) else old(created) + 1)
        && configMaps == old(configMaps) && statefulSets == old(statefulSets) && pvcs == old(pvcs)
    {
      if svc.metadata.name.None? {
        return Err(NameRequired("Service"));
      }
      var name := svc.metadata.name.value;
      if name in rejected {
        return Err(Rejected);
      }
      if name in services {
        var existing := services[name];
        var toPatch := svc;
        if existing.spec.Some? && toPatch.spec.Some? {
          toPatch := toPatch.(spec := Some(toPatch.spec.value.(clusterIP := existing.spec.value.clusterIP,
                                                               clusterIPs := existing.spec.value.clusterIPs)));
        }
        services := services[name := toPatch.(metadata := KeepUid(toPatch.metadata, existing.metadata))];
      } else {
        services := services[name := svc.(metadata := svc.metadata.(uid := Some(UidOf(created))))];
        created := created + 1;
      }
      r := Ok(());
    }

    /** `apply_statefulset`: create an unknown StatefulSet; patch an
        existing one only when the template guard lets it through, keeping
        its uid and status. */
    method ApplyStatefulSet(ss: StatefulSet) returns (r: Result<(), KubeError>)
      modifies this
      ensures ss.metadata.name.None? ==> r == Err(NameRequired("StatefulSet"))
      ensures ss.metadata.name.Some? && ss.metadata.name.value in old(statefulSets) ==>
        var guard := TemplateGuard(old(statefulSets)[ss.metadata.name.value], ss);
        guard.Some? ==> r == Err(guard.value)
      ensures r.Err? ==> unchanged(this)
      ensures r.Ok? ==> ss.metadata.name.Some? && ss.metadata.name.value !in rejected
      ensures ss.metadata.name.Some? ==>
        var name := ss.metadata.name.value;
        (r.Ok? <==> name !in rejected && (name in old(statefulSets) ==> TemplateGuard(old(statefulSets)[name], ss).None?))
      ensures r.Ok? ==>
        var name := ss.metadata.name.value;
        && statefulSets == old(statefulSets)[name := if name in old(statefulSets)
             then ss.(metadata := KeepUid(ss.metadata, old(statefulSets)[name].metadata),
                      status := old(statefulSets)[name].status)
             else ss.(metadata := ss.metadata.(uid := Some(UidOf(old(created)))))]
        && created == (if name in old(statefulSets) then old(created) else old(created) + 1)
        && configMaps == old(configMaps) && services == old(services) && pvcs == old(pvcs)
    {
      if ss.metadata.name.None? {
        return Err(NameRequired("StatefulSet"));
      }
      var name := ss.metadata.name.value;
      if name in statefulSets {
        var existing := statefulSets[name];
        if existing.spec.Some? && ss.spec.Some? {
          var olds, news := existing.spec.value.volumeClaimTemplates, ss.spec.value.volumeClaimTemplates;
          if olds.Some? && news.Some? {
            if |olds.value| != |news.value| {
              return Err(ConfigError(GUARD_COUNT_MESSAGE));
            }
            var change := CheckClaimTemplates(olds.value, news.value);
            if change.Some? {
              return Err(change.value);
            }
          }
        }
        if name in rejected {
          return Err(Rejected);
        }
        statefulSets := statefulSets[name := ss.(metadata := KeepUid(ss.metadata, existing.metadata),
                                                 status := existing.status)];
      } else {
        if name in rejected {
          return Err(Rejected);
        }
        statefulSets := statefulSets[name := ss.(metadata := ss.metadata.(uid := Some(UidOf(created))))];
        created := created + 1;
      }
      r := Ok(());
    }

    /** `delete_statefulset` */
    method DeleteStatefulSet(name: string) returns (r: Result<(), KubeError>)
      modifies this
      ensures r.Ok? <==> name in old(statefulSets) && name !in rejected
      ensures r.Ok? ==> statefulSets == old(statefulSets) - {name}
      ensures r.Err? ==> statefulSets == old(statefulSets)
      ensures configMaps == old(configMaps) && services == old(services) && pvcs == old(pvcs)
      ensures created == old(created)
    {
      if name !in statefulSets {
        return Err(KubeApiError(DELETE_MISSING_MESSAGE));
      }
      if name in rejected {
        return Err(Rejected);
      }
      statefulSets := statefulSets - {name};
      r := Ok(());
    }

    /** `delete_service` */
    method DeleteService(name: string) returns (r: Result<(), KubeError>)
      modifies this
      ensures r.Ok? <==> name in old(services) && name !in rejected
      ensures r.Ok? ==> services == old(services) - {name}
      ensures r.Err? ==> services == old(services)
      ensures configMaps == old(configMaps) && statefulSets == old(statefulSets) && pvcs == old(pvcs)
      ensures created == old(created)
    {
      if name !in services {
        return Err(KubeApiError(DELETE_MISSING_MESSAGE));
      }
      if name in rejected {
        return Err(Rejected);
      }
      services := services - {name};
      r := Ok(());
    }

    /** `delete_configmap` */
    method DeleteConfigMap(name: string) returns (r: Result<(), KubeError>)
      modifies this
      ensures r.Ok? <==> name in old(configMaps) && name !in rejected
      ensures r.Ok? ==> configMaps == old(configMaps) - {name}
      ensures r.Err? ==> configMaps == old(configMaps)
      ensures r.Err? && name in old(configMaps) ==> r == Err(Rejected)
      ensures statefulSets == old(statefulSets) && services == old(services) && pvcs == old(pvcs)
      ensures created == old(created)
    {
      if name !in configMaps {
        return Err(KubeApiError(DELETE_MISSING_MESSAGE));
      }
      if name in rejected {
        return Err(Rejected);
      }
      configMaps := configMaps - {name};
      r := Ok(());
    }

    /** `delete_pvcs_for_cluster`: every claim labelled with the cluster's
        id is deleted, a refused deletion being skipped. */
    method DeletePvcsForCluster(clusterId: string) returns (r: Result<(), KubeError>)
      modifies this
      ensures r.Ok?
      ensures pvcs == ClaimsLeft(old(pvcs), clusterId, rejected, {})
      ensures configMaps == old(configMaps) && statefulSets == old(statefulSets) && services == old(services)
      ensures created == old(created)
    {
      var pending := set n | n in pvcs && OwnedBy(pvcs[n], clusterId);
      ghost var start := pvcs;
      assert pvcs == ClaimsLeft(start, clusterId, rejected, pending);
      while pending != {}
        invariant forall n :: n in pending ==> n in start && OwnedBy(start[n], clusterId)
        invariant pvcs == ClaimsLeft(start, clusterId, rejected, pending)
        invariant configMaps == old(configMaps) && statefulSets == old(statefulSets) && services == old(services)
        invariant created == old(created)
        decreases |pending|
      {
        var name :| name in pending;
        if name !in rejected {
          pvcs := pvcs - {name};
        }
        pending := pending - {name};
        ghost var left := ClaimsLeft(start, clusterId, rejected, pending);
        assert forall n :: n in pvcs <==> n in left;
        assert forall n :: n in pvcs ==> pvcs[n] == left[n];
      }
      r := Ok(());
    }

    /** The best-effort deletions of the fallback path: both StatefulSets,
        both Services and the ConfigMap, each failure ignored. */
    method DeleteClusterObjects(clusterId: string)
      modifies this
      ensures statefulSets == old(statefulSets) - ({clusterId + "-master", clusterId + "-worker"} - rejected)
      ensures services == old(services) - ({clusterId + "-master", clusterId + "-master-headless"} - rejected)
      ensures configMaps == old(configMaps) - ({ConfigMapName(clusterId)} - rejected)
      ensures pvcs == old(pvcs) && created == old(created)
    {
      DeleteStatefulSetPair(clusterId + SERVICE_SUFFIX_MASTER, clusterId + SERVICE_SUFFIX_WORKER);
      assert clusterId + SERVICE_SUFFIX_MASTER + SERVICE_SUFFIX_HEADLESS == clusterId + "-master-headless";
      DeleteServicePair(clusterId + SERVICE_SUFFIX_MASTER, clusterId + SERVICE_SUFFIX_MASTER + SERVICE_SUFFIX_HEADLESS);
      var ignored := DeleteConfigMap(ConfigMapName(clusterId));
    }

    /** Two StatefulSet deletions, failures ignored. */
    method DeleteStatefulSetPair(a: string, b: string)
      modifies this
      ensures statefulSets == old(statefulSets) - ({a, b} - rejected)
      ensures configMaps == old(configMaps) && services == old(services)
      ensures pvcs == old(pvcs) && created == old(created)
    {
      var ignored := DeleteStatefulSet(a);
      ignored := DeleteStatefulSet(b);
    }

    /** Two Service deletions, failures ignored. */
    method DeleteServicePair(a: string, b: string)
      modifies this
      ensures services == old(services) - ({a, b} - rejected)
      ensures configMaps == old(configMaps) && statefulSets == old(statefulSets)
      ensures pvcs == old(pvcs) && created == old(created)
    {
      var ignored := DeleteService(a);
      ignored := DeleteService(b);
    }

    /** The fallback of `stop_and_cleanup_cluster` when the ConfigMap cannot
        be read: NotFound when neither StatefulSet exists, else best-effort
        deletion of both StatefulSets, both Services and the ConfigMap. */
    method DeleteWithoutConfigMap(clusterId: string) returns (r: Result<(), KubeError>)
      modifies this
      ensures var master, worker := clusterId + "-master", clusterId + "-worker";
        r.Err? <==> master !in old(statefulSets) && worker !in old(statefulSets)
      ensures r.Err? ==> r == Err(NotFound("Cluster", clusterId, namespace)) && unchanged(this)
      ensures r.Ok? ==>
        && statefulSets == old(statefulSets) - ({clusterId + "-master", clusterId + "-worker"} - rejected)
        && services == old(services) - ({clusterId + "-master", clusterId + "-master-headless"} - rejected)
        && configMaps == old(configMaps) - ({ConfigMapName(clusterId)} - rejected)
        && pvcs == old(pvcs) && created == old(created)
    {
      var master, worker := clusterId + "-master", clusterId + "-worker";
      var masterFound := GetStatefulSet(master);
      var workerFound := GetStatefulSet(worker);
      if masterFound.Err? && workerFound.Err? {
        return Err(NotFound("Cluster", clusterId, namespace));
      }
      DeleteClusterObjects(clusterId);
      r := Ok(());
    }

    /** `stop_and_cleanup_cluster`. With the ConfigMap present only it is
        deleted (the platform removes what it owns) and a failure to do so
        is the result. Without it, a cluster none of whose StatefulSets
        exists is NotFound; otherwise every resource of the cluster is
        deleted on a best-effort basis. Claims are deleted last, on request,
        failures ignored. */
    method StopAndCleanupCluster(clusterId: string, deletePvcs: bool) returns (r: Result<(), KubeError>)
      modifies this
      ensures var cm, master, worker := ConfigMapName(clusterId), clusterId + "-master", clusterId + "-worker";
        cm !in old(configMaps) && master !in old(statefulSets) && worker !in old(statefulSets) ==>
          r == Err(NotFound("Cluster", clusterId, namespace)) && unchanged(this)
      ensures var cm := ConfigMapName(clusterId);
        cm in old(configMaps) && cm in rejected ==>
          && r == Err(Rejected)
          && configMaps == old(configMaps) && statefulSets == old(statefulSets)
          && services == old(services) && pvcs == old(pvcs)
      ensures var cm := ConfigMapName(clusterId);
        cm in old(configMaps) && cm !in rejected ==>
          && r == Ok(())
          && configMaps == old(configMaps) - {cm}
          && statefulSets == old(statefulSets) && services == old(services)
      ensures var cm, master, worker := ConfigMapName(clusterId), clusterId + "-master", clusterId + "-worker";
        cm !in old(configMaps) && (master in old(statefulSets) || worker in old(statefulSets)) ==>
          && r == Ok(())
          && statefulSets == old(statefulSets) - ({master, worker} - rejected)
          && services == old(services) - ({master, clusterId + "-master-headless"} - rejected)
          && configMaps == old(configMaps)
      ensures r.Ok? ==> pvcs == if deletePvcs then ClaimsLeft(old(pvcs), clusterId, rejected, {}) else old(pvcs)
      ensures created == old(created)
    {
      var cm := ConfigMapName(clusterId);
      var found := GetConfigMap(cm);
      if found.Err? {
        r := DeleteWithoutConfigMap(clusterId);
        if r.Err? {
          return;
        }
      } else {
        var deleted := DeleteConfigMap(cm);
        if deleted.Err? {
          return deleted;
        }
      }
      if deletePvcs {
        var ignored := DeletePvcsForCluster(clusterId);
      }
      r := Ok(());
    }
  }
}
