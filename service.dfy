/** The client-facing master Service
    (src/infrastructure/kubernetes/resources/service.rs): the four master
    ports and the worker port, selecting the master pods. */
module MasterService {
  import opened Wrappers
  import opened K8s
  import opened Constants
  import opened KubeConfig
  import opened ManifestCommon
  import Labels

  /** The master ports as the Service lists them, by name. */
  const MASTER_SERVICE_PORTS: seq<(string, int)> := [("rpc", 8995), ("journal", 8996), ("web", 9000), ("web1", 9001)]

  const WORKER_SERVICE_PORT: (string, int) := ("worker", 8997)

  /** `ServiceBuilder`; `new` leaves the last three settings empty. */
  datatype ServiceBuilder = ServiceBuilder(
    clusterId: string, namespace: string, serviceType: ServiceType, annotations: StringMap,
    sessionAffinity: Option<string>, externalIps: seq<string>, loadBalancerSourceRanges: seq<string>)

  function NewServiceBuilder(clusterId: string, namespace: string, serviceType: ServiceType, annotations: StringMap): (sb: ServiceBuilder)
    ensures sb.sessionAffinity.None? && sb.externalIps == [] && sb.loadBalancerSourceRanges == []
    ensures sb.clusterId == clusterId && sb.namespace == namespace && sb.serviceType == serviceType && sb.annotations == annotations
  {
    ServiceBuilder(clusterId, namespace, serviceType, annotations, None, [], [])
  }

  /** `create_service_port`: a TCP port forwarded to the same port number. */
  function CreateServicePort(name: string, port: int): (p: ServicePort)
    ensures p.name == Some(name) && p.port == port
    ensures p.targetPort == Some(p.port) && p.protocol == Some("TCP")
  {
    ServicePort(Some(name), port, Some(port), Some("TCP"))
  }

  /** The ports of `specs`, one per entry, in order. */
  function PortsOf(specs: seq<(string, int)>): (r: seq<ServicePort>)
    ensures |r| == |specs|
    ensures forall i :: 0 <= i < |specs| ==> r[i] == CreateServicePort(specs[i].0, specs[i].1)
  {
    if |specs| == 0 then [] else PortsOf(specs[..|specs| - 1]) + [CreateServicePort(specs[|specs| - 1].0, specs[|specs| - 1].1)]
  }

  /** `get_labels`: the master's resource labels. */
  function ServiceLabels(sb: ServiceBuilder): (r: StringMap)
    ensures r.Keys == {LABEL_APP, LABEL_COMPONENT, LABEL_TYPE}
    ensures r[LABEL_APP] == sb.clusterId && r[LABEL_COMPONENT] == COMPONENT_MASTER && r[LABEL_TYPE] == LABEL_TYPE_VALUE
  {
    map["app" := sb.clusterId, "component" := "master", "type" := "curvine-native-kubernetes"]
  }

  /** The Service `build_with_owner` returns, given its ports. */
  function ServiceOf(sb: ServiceBuilder, ports: seq<ServicePort>, ownerUid: Option<string>): Service {
    var meta := ObjectMeta(Some(sb.clusterId + "-master"), Some(sb.namespace), Some(ServiceLabels(sb)),
                           NonEmptyMap(sb.annotations), OwnerReferences(sb.clusterId, ownerUid), None);
    Service(meta, Some(ServiceSpec(
      Some(ServiceTypeName(sb.serviceType)),
      if sb.serviceType == ClusterIP then None else Some("None"),
      None, Some(ports), Some(map["app" := sb.clusterId, "component" := "master"]),
      sb.sessionAffinity, NonEmptySeq(sb.externalIps), NonEmptySeq(sb.loadBalancerSourceRanges), None)))
  }

  /** `build_with_owner`: the master ports pushed one by one, then the
      worker port; it never fails. */
  method BuildWithOwner(sb: ServiceBuilder, ownerUid: Option<string>) returns (r: Result<Service, KubeError>)
    ensures r == Ok(ServiceOf(sb, PortsOf(MASTER_SERVICE_PORTS + [WORKER_SERVICE_PORT]), ownerUid))
  {
    var ports: seq<ServicePort> := [];
    var i := 0;
    while i < |MASTER_SERVICE_PORTS|
      invariant i <= |MASTER_SERVICE_PORTS|
      invariant ports == PortsOf(MASTER_SERVICE_PORTS[..i])
    {
      assert MASTER_SERVICE_PORTS[..i + 1][..i] == MASTER_SERVICE_PORTS[..i];
      ports := ports + [CreateServicePort(MASTER_SERVICE_PORTS[i].0, MASTER_SERVICE_PORTS[i].1)];
      i := i + 1;
    }
    assert MASTER_SERVICE_PORTS[..i] == MASTER_SERVICE_PORTS;
    var all := MASTER_SERVICE_PORTS + [WORKER_SERVICE_PORT];
    assert all[..|all| - 1] == MASTER_SERVICE_PORTS;
    ports := ports + [CreateServicePort(WORKER_SERVICE_PORT.0, WORKER_SERVICE_PORT.1)];
    r := Ok(ServiceOf(sb, ports, ownerUid));
  }

  /** Five ports in order, the master's four then the worker's, each a TCP
      port forwarded to itself; the master ones are the ports the master
      container listens on. */
  lemma ServicePortsShape()
    ensures var ps := PortsOf(MASTER_SERVICE_PORTS + [WORKER_SERVICE_PORT]);
      && |ps| == 5
      && ps[0].port == MASTER_RPC_PORT && ps[1].port == MASTER_JOURNAL_PORT
      && ps[2].port == MASTER_WEB_PORT && ps[3].port == MASTER_WEB1_PORT && ps[4].port == WORKER_RPC_PORT
      && ps[0].name == Some(PORT_NAME_RPC) && ps[1].name == Some(PORT_NAME_JOURNAL)
      && ps[2].name == Some(PORT_NAME_WEB) && ps[3].name == Some(PORT_NAME_WEB1) && ps[4].name == Some("worker")
      && (forall i :: 0 <= i < 5 ==> ps[i].targetPort == Some(ps[i].port) && ps[i].protocol == Some("TCP"))
      && (forall i, j :: 0 <= i < j < 5 ==> ps[i].port != ps[j].port && ps[i].name != ps[j].name)
  {
  }

  /** The Service selects the master pods, is named after the cluster,
      has a cluster address exactly when it is of type ClusterIP (any
      other type is published headless), drops the optional lists that
      are empty, and is owned by the ConfigMap exactly when a uid is given. */
  lemma ServiceShape(sb: ServiceBuilder, ports: seq<ServicePort>, ownerUid: Option<string>)
    ensures var s := ServiceOf(sb, ports, ownerUid);
      && s.metadata.name == Some(sb.clusterId + "-master")
      && s.spec.value.selector == Some(map[LABEL_APP := sb.clusterId, LABEL_COMPONENT := COMPONENT_MASTER])
      && s.spec.value.serviceType == Some(ServiceTypeName(sb.serviceType))
      && (s.spec.value.clusterIP.None? <==> sb.serviceType == ClusterIP)
      && (s.spec.value.clusterIP.Some? ==> s.spec.value.clusterIP.value == "None")
      && (s.metadata.annotations.None? <==> |sb.annotations| == 0)
      && (s.spec.value.externalIPs.None? <==> |sb.externalIps| == 0)
      && (s.spec.value.loadBalancerSourceRanges.None? <==> |sb.loadBalancerSourceRanges| == 0)
      && s.metadata.ownerReferences == OwnerReferences(sb.clusterId, ownerUid)
      && s.spec.value.ports == Some(ports)
  {
  }

  /** The Service's selector is the master selector, and every label it
      selects on is one the Service itself carries with the same value. */
  lemma ServiceSelectsMasters(sb: ServiceBuilder, ports: seq<ServicePort>, ownerUid: Option<string>)
    ensures var s := ServiceOf(sb, ports, ownerUid);
      && s.spec.value.selector == Some(Labels.SelectorLabels(sb.clusterId, COMPONENT_MASTER))
      && forall k :: k in s.spec.value.selector.value ==> k in ServiceLabels(sb) && ServiceLabels(sb)[k] == s.spec.value.selector.value[k]
  {
  }
}
