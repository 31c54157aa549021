/** Fixed names, ports, paths and defaults shared by the manifest builders
    (src/infrastructure/constants.rs). */
module Constants {
  const APP_HOME: string := "/app"
  const CURVINE_HOME: string := "/app/curvine"
  const CURVINE_CONF_FILE: string := "/app/curvine/conf/curvine-cluster.toml"
  const ORPC_BIND_HOSTNAME: string := "0.0.0.0"
  const POD_CLUSTER_DOMAIN: string := "cluster.local"
  const MASTER_RPC_PORT: int := 8995
  const MASTER_JOURNAL_PORT: int := 8996
  const MASTER_WEB_PORT: int := 9000
  const MASTER_WEB1_PORT: int := 9001
  const WORKER_RPC_PORT: int := 8997
  const WORKER_WEB_PORT: int := 9001
  const LIVENESS_INITIAL_DELAY: int := 15
  const LIVENESS_PERIOD: int := 300
  const LIVENESS_TIMEOUT: int := 60
  const LIVENESS_FAILURE_THRESHOLD: int := 5
  const GRACEFUL_SHUTDOWN_DELAY: int := 10
  const DEFAULT_STORAGE_SIZE: string := "10Gi"
  const DEFAULT_ACCESS_MODE: string := "ReadWriteOnce"
  const MAX_UNAVAILABLE: string := "25%"
  const MAX_SURGE: string := "25%"
  const INIT_CONTAINER_IMAGE: string := "busybox:latest"
  const LABEL_APP: string := "app"
  const LABEL_COMPONENT: string := "component"
  const LABEL_TYPE: string := "type"
  const LABEL_TYPE_VALUE: string := "curvine-native-kubernetes"
  const COMPONENT_MASTER: string := "master"
  const COMPONENT_WORKER: string := "worker"
  const CONTAINER_NAME_MASTER: string := "cv-master"
  const CONTAINER_NAME_WORKER: string := "cv-worker"
  const RESTART_POLICY_ALWAYS: string := "Always"
  const POD_MANAGEMENT_POLICY_PARALLEL: string := "Parallel"
  const STRATEGY_TYPE_ROLLING_UPDATE: string := "RollingUpdate"
  const SERVICE_SUFFIX_MASTER: string := "-master"
  const SERVICE_SUFFIX_WORKER: string := "-worker"
  const SERVICE_SUFFIX_HEADLESS: string := "-headless"
  const SERVICE_SUFFIX_CONFIG: string := "-config"
  const VOLUME_NAME_CONFIG: string := "curvine-conf"
  const VOLUME_NAME_META_DATA: string := "meta-data"
  const VOLUME_NAME_JOURNAL_DATA: string := "journal-data"
  const VOLUME_NAME_DATA_DIR_PREFIX: string := "data-dir-"
  const CONFIG_FILE_NAME: string := "curvine-cluster.toml"
  const CONFIG_FILE_MODE: int := 420 // octal 644
  const SECURITY_PRIVILEGED: bool := true
  const VOLUME_MEDIUM_MEMORY: string := "Memory"
  const VOLUME_TYPE_DIRECTORY_OR_CREATE: string := "DirectoryOrCreate"
  const DNS_POLICY_CLUSTER_FIRST_WITH_HOST_NET: string := "ClusterFirstWithHostNet"
  const PORT_NAME_RPC: string := "rpc"
  const PORT_NAME_JOURNAL: string := "journal"
  const PORT_NAME_WEB: string := "web"
  const PORT_NAME_WEB1: string := "web1"
  const TOPOLOGY_KEY_HOSTNAME: string := "kubernetes.io/hostname"
}
