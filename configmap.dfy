/** The cluster's ConfigMap (src/infrastructure/kubernetes/resources/configmap.rs):
    one file, the cluster configuration with the master and journal
    addresses filled in for the master StatefulSet's pods. Every other
    resource of the cluster is owned by this ConfigMap. */
module ConfigMapResource {
  import opened Wrappers
  import opened Strings
  import opened K8s
  import opened Constants
  import opened CurvineConf
  import opened KubeConfig
  import opened Labels
  import opened ManifestCommon
  import EnvBuilder

  /** `ConfigMapBuilder` */
  datatype ConfigMapBuilder = ConfigMapBuilder(
    clusterConf: ClusterConf, clusterId: string, namespace: string, masterReplicas: nat)

  /** The component label of the ConfigMap. */
  const COMPONENT_CONFIG: string := "config"

  /** `get_labels` */
  function ConfigMapLabels(b: ConfigMapBuilder): StringMap {
    ResourceLabels(b.clusterId, COMPONENT_CONFIG)
  }

  const DefaultMasterConfig :=
    MasterConfig(0, "", None, None, None, None, false, map[], map[], [], None, map[], None, None)

  const DefaultWorkerConfig :=
    WorkerConfig(1, "", None, None, false, None, None, false, false, false, None, map[], map[], [], None, map[], None, None)

  const DefaultServiceConfig := ServiceConfig(ClusterIP, map[], None, [], [])

  const PULL_IF_NOT_PRESENT: string := "IfNotPresent"

  /** The Kubernetes configuration the ConfigMap's addresses are generated
      from: only the identity and the master replica count come from the
      builder; the cluster domain is always the default one. */
  function SyntheticKubeConfig(b: ConfigMapBuilder): (kc: KubernetesConfig)
    ensures kc.clusterId == b.clusterId && kc.namespace == b.namespace
    ensures kc.master.replicas == b.masterReplicas
    ensures kc.clusterDomain == POD_CLUSTER_DOMAIN
  {
    KubernetesConfig(b.clusterId, b.namespace, DefaultMasterConfig.(replicas := b.masterReplicas),
      DefaultWorkerConfig, DefaultServiceConfig, None, PULL_IF_NOT_PRESENT, [], POD_CLUSTER_DOMAIN)
  }

  /** `build_cluster_side_config`, before rendering to TOML. */
  function ClusterSideConfig(b: ConfigMapBuilder): ClusterConf {
    BuildClusterSideConfig(b.clusterConf, SyntheticKubeConfig(b))
  }

  /** `build`: the ConfigMap `{id}-config` holding the one file. */
  function Build(b: ConfigMapBuilder): ConfigMap {
    ConfigMap(
      ObjectMeta(Some(ConfigMapName(b.clusterId)), Some(b.namespace), Some(ConfigMapLabels(b)), None, None, None),
      Some(map[CONFIG_FILE_NAME := ClusterSideConfig(b)]))
  }

  /** The ConfigMap is named `{id}-config` in the cluster's namespace, holds
      exactly the cluster file, and that file lists one journal peer and
      one client master address per master replica, on the master pods'
      stable hostnames under the default cluster domain, with ids from 1. */
  lemma ConfigMapShape(b: ConfigMapBuilder)
    ensures var cm := Build(b);
      && cm.metadata.name == Some(b.clusterId + "-config")
      && cm.metadata.namespace == Some(b.namespace)
      && cm.metadata.labels.value[LABEL_COMPONENT] == COMPONENT_CONFIG
      && cm.data.Some? && cm.data.value.Keys == {CONFIG_FILE_NAME}
    ensures var conf := Build(b).data.value[CONFIG_FILE_NAME];
      && |conf.journal.journalAddrs.value| == b.masterReplicas
      && |conf.client.masterAddrs.value| == b.masterReplicas
      && forall i :: 0 <= i < b.masterReplicas ==>
           conf.journal.journalAddrs.value[i].id == i + 1
           && conf.journal.journalAddrs.value[i].hostname
              == MasterHostname(b.clusterId, i, b.namespace, POD_CLUSTER_DOMAIN)
           && conf.client.masterAddrs.value[i].hostname
              == MasterHostname(b.clusterId, i, b.namespace, POD_CLUSTER_DOMAIN)
    ensures var conf := Build(b).data.value[CONFIG_FILE_NAME];
      && conf.worker == b.clusterConf.worker
      && conf.master.rpcPort == b.clusterConf.master.rpcPort
      && conf.master.metaDir == ResolvePath(b.clusterConf.master.metaDir)
  {
    var conf := ClusterSideConfig(b);
    assert Build(b).data.value[CONFIG_FILE_NAME] == conf;
  }

  /** The ConfigMap is the one the pods' configuration volume asks for, and
      the key the volume projects is present in it. */
  lemma ConfigMapFeedsVolume(b: ConfigMapBuilder)
    ensures var src := ConfigVolume(b.clusterId).source;
      && Some(src.configMapName) == Build(b).metadata.name
      && src.items.value[0].key in Build(b).data.value
  {
  }

  /** The hostname a worker's environment gives for the first master, under
      the cluster domain of the deployment configuration. */
  function WorkerMasterHostname(clusterId: string, namespace: string, domain: string): string {
    EnvBuilder.MasterFqdn(clusterId + "-master-0", clusterId, namespace, domain)
  }

  /** The ConfigMap ignores the configured cluster domain: its first master
      address agrees with the first-master hostname of the workers'
      environment exactly when the deployment uses the default domain. */
  lemma ConfigMapDomainIsFixed(b: ConfigMapBuilder, domain: string)
    requires b.masterReplicas > 0
    ensures var host := Build(b).data.value[CONFIG_FILE_NAME].client.masterAddrs.value[0].hostname;
      host == WorkerMasterHostname(b.clusterId, b.namespace, domain) <==> domain == POD_CLUSTER_DOMAIN
  {
    ConfigMapShape(b);
    var id, ns := b.clusterId, b.namespace;
    var head := id + "-master-0" + "." + id + "-master." + ns + ".svc.";
    assert NatToString(0) == "0";
    assert MasterHostname(id, 0, ns, POD_CLUSTER_DOMAIN) == head + POD_CLUSTER_DOMAIN;
    assert WorkerMasterHostname(id, ns, domain) == head + domain;
    assert (head + POD_CLUSTER_DOMAIN)[|head|..] == POD_CLUSTER_DOMAIN;
    assert (head + domain)[|head|..] == domain;
  }
}
