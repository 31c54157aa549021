/** Small records standing in for the k8s_openapi types the composition
    engine reads and writes. Only the fields the core touches are kept;
    `Option` fields mirror the API's optional fields. */
module K8s {
  import opened Wrappers
  import CurvineConf

  type StringMap = map<string, string>

  datatype OwnerReference = OwnerReference(
    apiVersion: string, kind: string, name: string, uid: string,
    controller: Option<bool>, blockOwnerDeletion: Option<bool>)

  datatype ObjectMeta = ObjectMeta(
    name: Option<string>, namespace: Option<string>,
    labels: Option<StringMap>, annotations: Option<StringMap>,
    ownerReferences: Option<seq<OwnerReference>>, uid: Option<string>)

  const EmptyMeta := ObjectMeta(None, None, None, None, None, None)

  /** An environment variable: a literal value, or a reference to a pod field
      (`valueFrom.fieldRef.fieldPath`). */
  datatype EnvVar = EnvVar(name: string, value: Option<string>, fieldRef: Option<string>)

  datatype VolumeMount = VolumeMount(
    name: string, mountPath: string, subPath: Option<string>, readOnly: Option<bool>)

  datatype KeyToPath = KeyToPath(key: string, path: string, mode: Option<int>)

  datatype VolumeSource =
    | ConfigMapSource(configMapName: string, defaultMode: Option<int>,
                      items: Option<seq<KeyToPath>>, optional: Option<bool>)
    | EmptyDirSource(medium: Option<string>, sizeLimit: Option<string>)
    | HostPathSource(path: string, hostPathType: Option<string>)
    | OtherSource(description: string)

  datatype Volume = Volume(name: string, source: VolumeSource)

  datatype ContainerPort = ContainerPort(containerPort: int, name: Option<string>)

  datatype Probe = Probe(
    tcpSocketPort: Option<int>, initialDelaySeconds: Option<int>, periodSeconds: Option<int>,
    timeoutSeconds: Option<int>, failureThreshold: Option<int>)

  /** Lifecycle hooks, each an exec command. */
  datatype Lifecycle = Lifecycle(preStop: Option<seq<string>>, postStart: Option<seq<string>>)

  datatype ResourceRequirements = ResourceRequirements(requests: Option<StringMap>, limits: Option<StringMap>)

  datatype Container = Container(
    name: string, image: Option<string>, imagePullPolicy: Option<string>,
    command: Option<seq<string>>, args: Option<seq<string>>, workingDir: Option<string>,
    env: Option<seq<EnvVar>>, ports: Option<seq<ContainerPort>>,
    volumeMounts: Option<seq<VolumeMount>>, resources: Option<ResourceRequirements>,
    livenessProbe: Option<Probe>, readinessProbe: Option<Probe>,
    lifecycle: Option<Lifecycle>, privileged: Option<bool>)

  /** `Container::default()`: every field absent, empty name. */
  const DefaultContainer := Container("", None, None, None, None, None, None, None, None, None, None, None, None, None)

  datatype LabelRequirement = LabelRequirement(key: string, operator: string, values: seq<string>)

  datatype Affinity =
    | PreferredPodAntiAffinity(weight: int, matchExpressions: seq<LabelRequirement>, topologyKey: string)
    | OtherAffinity(description: string)

  datatype Toleration = Toleration(key: string, operator: string, value: string, effect: string)

  datatype PodSpec = PodSpec(
    containers: seq<Container>, initContainers: Option<seq<Container>>,
    volumes: Option<seq<Volume>>, nodeSelector: Option<StringMap>,
    affinity: Option<Affinity>, tolerations: Option<seq<Toleration>>,
    restartPolicy: Option<string>, serviceAccountName: Option<string>,
    hostNetwork: Option<bool>, dnsPolicy: Option<string>, priorityClassName: Option<string>)

  /** `PodSpec::default()` */
  const DefaultPodSpec := PodSpec([], None, None, None, None, None, None, None, None, None, None)

  datatype Pod = Pod(metadata: ObjectMeta, spec: Option<PodSpec>)

  datatype VolumeResources = VolumeResources(requests: Option<StringMap>)

  datatype PvcSpec = PvcSpec(
    accessModes: Option<seq<string>>, storageClassName: Option<string>,
    resources: Option<VolumeResources>)

  datatype PersistentVolumeClaim = PersistentVolumeClaim(metadata: ObjectMeta, spec: Option<PvcSpec>)

  datatype PodTemplateSpec = PodTemplateSpec(metadata: Option<ObjectMeta>, spec: Option<PodSpec>)

  datatype StatefulSetSpec = StatefulSetSpec(
    replicas: Option<int>, serviceName: string, selector: Option<StringMap>,
    template: PodTemplateSpec, volumeClaimTemplates: Option<seq<PersistentVolumeClaim>>,
    podManagementPolicy: Option<string>)

  datatype StatefulSetStatus = StatefulSetStatus(readyReplicas: Option<int>)

  datatype StatefulSet = StatefulSet(
    metadata: ObjectMeta, spec: Option<StatefulSetSpec>, status: Option<StatefulSetStatus>)

  datatype ServicePort = ServicePort(
    name: Option<string>, port: int, targetPort: Option<int>, protocol: Option<string>)

  datatype ServiceSpec = ServiceSpec(
    serviceType: Option<string>, clusterIP: Option<string>, clusterIPs: Option<seq<string>>,
    ports: Option<seq<ServicePort>>, selector: Option<StringMap>,
    sessionAffinity: Option<string>, externalIPs: Option<seq<string>>,
    loadBalancerSourceRanges: Option<seq<string>>, publishNotReadyAddresses: Option<bool>)

  datatype Service = Service(metadata: ObjectMeta, spec: Option<ServiceSpec>)

  /** A ConfigMap; its data values are the structured cluster configuration
      that the source renders as TOML text. */
  datatype ConfigMap = ConfigMap(metadata: ObjectMeta, data: Option<map<string, CurvineConf.ClusterConf>>)

  datatype ContainerStatus = ContainerStatus(waitingReason: Option<string>, restartCount: int)

  datatype PodStatus = PodStatus(phase: Option<string>, containerStatuses: Option<seq<ContainerStatus>>)

  datatype PodInfo = PodInfo(name: string, labels: StringMap, status: Option<PodStatus>)

  datatype StorageClass = StorageClass(name: Option<string>, annotations: Option<StringMap>)
}
