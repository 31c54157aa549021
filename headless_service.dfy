/** The headless master Service
    (src/infrastructure/kubernetes/resources/headless_service.rs): it
    gives every master pod a stable DNS name, published before the pod is
    ready so the masters can find each other while they start. */
module HeadlessService {
  import opened Wrappers
  import opened K8s
  import opened Constants
  import opened ManifestCommon
  import Labels
  import MasterService

  /** `HeadlessServiceBuilder` */
  datatype HeadlessServiceBuilder = HeadlessServiceBuilder(clusterId: string, namespace: string)

  /** The Service's name, `{id}-master-headless`. */
  function HeadlessName(clusterId: string): string {
    clusterId + SERVICE_SUFFIX_MASTER + SERVICE_SUFFIX_HEADLESS
  }

  /** `get_labels`: the master's resource labels and the headless marker. */
  function HeadlessLabels(hb: HeadlessServiceBuilder): (r: StringMap)
    ensures r.Keys == {LABEL_APP, LABEL_COMPONENT, LABEL_TYPE, "service-type"}
    ensures r - {"service-type"} == Labels.ResourceLabels(hb.clusterId, COMPONENT_MASTER)
    ensures r["service-type"] == "headless"
  {
    map["app" := hb.clusterId, "component" := "master", "type" := "curvine-native-kubernetes",
        "service-type" := "headless"]
  }

  /** `build_with_owner` (its port list is a map over the constant list,
      with `create_service_port`, identical to the client Service's). */
  function BuildWithOwner(hb: HeadlessServiceBuilder, ownerUid: Option<string>): Result<Service, KubeError> {
    var meta := ObjectMeta(Some(HeadlessName(hb.clusterId)), Some(hb.namespace), Some(HeadlessLabels(hb)),
                           None, OwnerReferences(hb.clusterId, ownerUid), None);
    Ok(Service(meta, Some(ServiceSpec(
      Some("ClusterIP"), Some("None"), None,
      Some(MasterService.PortsOf(MasterService.MASTER_SERVICE_PORTS)),
      Some(map["app" := hb.clusterId, "component" := "master"]),
      None, None, None, Some(true)))))
  }

  /** The headless Service never fails; it has no cluster address, is of
      type ClusterIP, publishes pods before they are ready, and carries the
      four master ports but not the worker port. */
  lemma HeadlessShape(hb: HeadlessServiceBuilder, ownerUid: Option<string>)
    ensures BuildWithOwner(hb, ownerUid).Ok?
    ensures var s := BuildWithOwner(hb, ownerUid).value;
      && s.metadata.name == Some(hb.clusterId + "-master-headless")
      && s.spec.value.clusterIP == Some("None")
      && s.spec.value.serviceType == Some("ClusterIP")
      && s.spec.value.publishNotReadyAddresses == Some(true)
      && s.metadata.ownerReferences == OwnerReferences(hb.clusterId, ownerUid)
      && s.spec.value.selector == Some(Labels.SelectorLabels(hb.clusterId, COMPONENT_MASTER))
    ensures var ps := BuildWithOwner(hb, ownerUid).value.spec.value.ports.value;
      && |ps| == 4
      && ps[0].port == MASTER_RPC_PORT && ps[1].port == MASTER_JOURNAL_PORT
      && ps[2].port == MASTER_WEB_PORT && ps[3].port == MASTER_WEB1_PORT
      && (forall i :: 0 <= i < 4 ==> ps[i].port != WORKER_RPC_PORT && ps[i].targetPort == Some(ps[i].port))
  {
    assert HeadlessName(hb.clusterId) == hb.clusterId + (SERVICE_SUFFIX_MASTER + SERVICE_SUFFIX_HEADLESS);
    assert SERVICE_SUFFIX_MASTER + SERVICE_SUFFIX_HEADLESS == "-master-headless";
  }

  /** The headless Service and the client Service select the same pods
      under different names, and the headless ports are the client
      Service's first four. */
  lemma HeadlessMatchesService(hb: HeadlessServiceBuilder, sb: MasterService.ServiceBuilder, ports: seq<ServicePort>,
                               uid: Option<string>)
    requires sb.clusterId == hb.clusterId
    requires ports == MasterService.PortsOf(MasterService.MASTER_SERVICE_PORTS + [MasterService.WORKER_SERVICE_PORT])
    ensures var h := BuildWithOwner(hb, uid).value;
      var s := MasterService.ServiceOf(sb, ports, uid);
      && h.spec.value.selector == s.spec.value.selector
      && h.metadata.name != s.metadata.name
      && h.spec.value.ports.value == s.spec.value.ports.value[..4]
  {
    var ms := MasterService.MASTER_SERVICE_PORTS;
    var all := ms + [MasterService.WORKER_SERVICE_PORT];
    assert all[..4] == ms;
    assert MasterService.PortsOf(all)[..4] == MasterService.PortsOf(ms);
    assert (hb.clusterId + "-master-headless")[..|hb.clusterId| + 7] == hb.clusterId + "-master";
  }
}
