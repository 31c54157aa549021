/** Pieces the StatefulSet and Service builders each write out in the same
    way: the owner reference to the cluster's ConfigMap, the configuration
    volume and its mount, the claim template record, and the "absent when
    empty" rule for optional lists and maps
    (src/infrastructure/kubernetes/resources/statefulset/master.rs,
    statefulset/worker.rs, service.rs, headless_service.rs). */
module ManifestCommon {
  import opened Wrappers
  import opened Strings
  import opened K8s
  import opened Constants
  import opened PodTemplate

  /** The name of the cluster's ConfigMap, `{id}-config`. */
  function ConfigMapName(clusterId: string): string {
    clusterId + SERVICE_SUFFIX_CONFIG
  }

  /** The owner reference every resource carries when the ConfigMap's uid
      is known: it names that ConfigMap, marks it as controller and blocks
      its deletion while the resource exists. */
  function OwnerReferences(clusterId: string, uid: Option<string>): (r: Option<seq<OwnerReference>>)
    ensures r.None? <==> uid.None?
    ensures r.Some? ==> |r.value| == 1 && r.value[0].uid == uid.value
    ensures r.Some? ==> r.value[0].kind == "ConfigMap" && r.value[0].apiVersion == "v1"
                        && r.value[0].name == ConfigMapName(clusterId)
                        && r.value[0].controller == Some(true) && r.value[0].blockOwnerDeletion == Some(true)
  {
    if uid.None? then None
    else Some([OwnerReference("v1", "ConfigMap", ConfigMapName(clusterId), uid.value, Some(true), Some(true))])
  }

  /** A map kept only when it has entries. */
  function NonEmptyMap(m: StringMap): (r: Option<StringMap>)
    ensures r.None? <==> |m| == 0
    ensures r.Some? ==> r.value == m
  {
    if |m| == 0 then None else Some(m)
  }

  /** A list kept only when it has entries. */
  function NonEmptySeq<T>(s: seq<T>): (r: Option<seq<T>>)
    ensures r.None? <==> |s| == 0
    ensures r.Some? ==> r.value == s
  {
    if |s| == 0 then None else Some(s)
  }

  /** The ConfigMap volume: the one cluster file, mode 0644, required. */
  function ConfigVolume(clusterId: string): Volume {
    Volume(VOLUME_NAME_CONFIG,
      ConfigMapSource(ConfigMapName(clusterId), Some(CONFIG_FILE_MODE),
        Some([KeyToPath(CONFIG_FILE_NAME, CONFIG_FILE_NAME, Some(CONFIG_FILE_MODE))]), Some(false)))
  }

  /** The configuration file mounted read-only through a sub-path, so the
      rest of the configuration directory stays as the image has it. */
  const ConfigMount := VolumeMount(VOLUME_NAME_CONFIG, CURVINE_CONF_FILE, Some(CONFIG_FILE_NAME), Some(true))

  /** The mount and the volume fit together: same name, and the sub-path
      mounted is the one file the volume projects, which is the last
      component of the configuration file path. */
  lemma ConfigMountMatchesVolume(clusterId: string)
    ensures ConfigMount.name == ConfigVolume(clusterId).name
    ensures var src := ConfigVolume(clusterId).source;
      && src.ConfigMapSource? && src.configMapName == ConfigMapName(clusterId)
      && src.items.Some? && |src.items.value| == 1
      && ConfigMount.subPath == Some(src.items.value[0].path)
    ensures EndsWith(ConfigMount.mountPath, "/" + CONFIG_FILE_NAME)
  {
    ConfFileEndsWithName();
  }

  /** The configuration file path ends in the configuration file name. */
  lemma ConfFileEndsWithName()
    ensures EndsWith(CURVINE_CONF_FILE, "/" + CONFIG_FILE_NAME)
  {
    var name := "/" + CONFIG_FILE_NAME;
    assert CURVINE_CONF_FILE == "/app/curvine/conf" + name;
    EndsWithConcat("/app/curvine/conf", name);
  }

  /** A claim's storage request. */
  function StorageRequest(size: string): (r: VolumeResources)
    ensures r.requests.Some? && r.requests.value.Keys == {"storage"} && r.requests.value["storage"] == size
  {
    VolumeResources(Some(map["storage" := size]))
  }

  /** A claim template: one read-write-once volume of `size`, of `class`
      when one is chosen. */
  function ClaimTemplate(name: string, labels: Option<StringMap>, size: string, storageClass: Option<string>): PersistentVolumeClaim {
    PersistentVolumeClaim(ObjectMeta(Some(name), None, labels, None, None, None),
      Some(PvcSpec(Some([DEFAULT_ACCESS_MODE]), storageClass, Some(StorageRequest(size)))))
  }

  /** A role's own storage class, else the shared one when it is set. */
  function FallbackClass(own: Option<string>, shared: string): (r: Option<string>)
    ensures own.Some? ==> r == own
    ensures own.None? ==> (r.None? <==> shared == "")
    ensures own.None? && r.Some? ==> r.value == shared
  {
    if own.Some? then own else if shared == "" then None else Some(shared)
  }

  /** The template a builder starts from: when the configuration names a
      template file, what loading it gives (`load`, the outcome of
      `load_pod_from_template_file`), an error stopping the build; else none. */
  function LoadTemplate(path: Option<string>, load: Result<CurvinePod, KubeError>): (r: Result<Option<CurvinePod>, KubeError>)
    ensures path.None? ==> r == Ok(None)
    ensures path.Some? && load.Err? ==> r == Err(load.error)
    ensures path.Some? && load.Ok? ==> r == Ok(Some(load.value))
  {
    if path.None? then Ok(None)
    else if load.Err? then Err(load.error)
    else Ok(Some(load.value))
  }
}
