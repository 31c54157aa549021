/** Pre-deployment validation (src/domain/cluster/validator.rs): the worker
    memory-tier size check, the update checks, and which storage classes
    are looked up in the cluster. The cluster's storage classes are a
    parameter: the names a lookup would find. */
module Validator {
  import opened Wrappers
  import opened Strings
  import opened K8s
  import opened CurvineConf
  import opened KubeConfig

  // ------------------------------------------------- worker memory size

  const MEBI: nat := 1024 * 1024

  /** The worker block size: the numeric setting when positive, otherwise
      the size string parsed. */
  function BlockSize(client: ClientConf): Result<nat, KubeError> {
    var parsed: Result<nat, string> :=
      if client.blockSize > 0 then Ok(client.blockSize) else ParseSizeString(client.blockSizeStr);
    match parsed
    case Err(e) => Err(ConfigError("Invalid block_size_str: " + e))
    case Ok(n) => Ok(n)
  }

  /** The block-size step of `validate_worker_mem_size`. */
  method ResolveBlockSize(client: ClientConf) returns (r: Result<nat, KubeError>)
    ensures r == BlockSize(client)
  {
    if client.blockSize > 0 {
      return Ok(client.blockSize);
    }
    var parsed := ParseSizeString(client.blockSizeStr);
    if parsed.Err? {
      return Err(ConfigError("Invalid block_size_str: " + parsed.error));
    }
    r := Ok(parsed.value);
  }

  /** A memory tier with a size limit below one block. */
  predicate MemTooSmall(d: WorkerDataDir, blockSize: nat) {
    d.storageType == Mem && 0 < d.capacity < blockSize
  }

  const MEM_MESSAGE_HEAD := "Worker data_dir MEM size ("
  const MEM_MESSAGE_BYTES := " bytes, ~"
  const MEM_MESSAGE_BLOCK := "MB) is less than worker block size ("
  const MEM_MESSAGE_ADVICE := "MB). This can cause performance issues. \n\nRecommendations:\n- Increase MEM size to at least "
  const MEM_MESSAGE_TAG := "MB: [MEM:"
  const MEM_MESSAGE_TAIL := "]\n- Or use disk storage: [DISK]/path/to/data\n- Or remove the MEM size limit: [MEM]/path/to/data"

  function MemTooSmallMessage(capacity: nat, blockSize: nat): string {
    MEM_MESSAGE_HEAD + NatToString(capacity) + MEM_MESSAGE_BYTES + NatToString(capacity / MEBI)
    + MEM_MESSAGE_BLOCK + NatToString(blockSize) + MEM_MESSAGE_BYTES + NatToString(blockSize / MEBI)
    + MEM_MESSAGE_ADVICE + NatToString(blockSize / MEBI + 1) + MEM_MESSAGE_TAG + NatToString(blockSize / MEBI + 1)
    + MEM_MESSAGE_TAIL
  }

  /** What one data dir contributes to the check: a parse error, a memory
      tier smaller than a block, or nothing. */
  function DataDirError(s: string, blockSize: nat): Option<KubeError> {
    match ParseDataDir(s)
    case Err(e) => Some(ConfigError("Invalid data_dir format: " + e))
    case Ok(d) => if MemTooSmall(d, blockSize) then Some(ValidationError(MemTooSmallMessage(d.capacity, blockSize)))
                  else None
  }

  function DataDirErrors(dirs: seq<string>, blockSize: nat): (r: seq<Option<KubeError>>)
    ensures |r| == |dirs| && forall i :: 0 <= i < |dirs| ==> r[i] == DataDirError(dirs[i], blockSize)
  {
    seq(|dirs|, i requires 0 <= i < |dirs| => DataDirError(dirs[i], blockSize))
  }

  /** What `validate_worker_mem_size` returns. */
  function WorkerMemSize(conf: ClusterConf): Result<(), KubeError> {
    match BlockSize(conf.client)
    case Err(e) => Err(e)
    case Ok(blockSize) =>
      var e := FirstError(DataDirErrors(conf.worker.dataDir, blockSize), 0);
      if e.Some? then Err(e.value) else Ok(())
  }

  /** The body of the loop below, for one data dir. */
  method CheckDataDir(s: string, blockSize: nat) returns (e: Option<KubeError>)
    ensures e == DataDirError(s, blockSize)
  {
    var parsed := ParseDataDir(s);
    if parsed.Err? {
      return Some(ConfigError("Invalid data_dir format: " + parsed.error));
    }
    var d := parsed.value;
    if d.storageType == Mem && d.capacity > 0 && d.capacity < blockSize {
      return Some(ValidationError(MemTooSmallMessage(d.capacity, blockSize)));
    }
    e := None;
  }

  /** `validate_worker_mem_size`: the loop over the data dirs with an early
      return. */
  method ValidateWorkerMemSize(conf: ClusterConf) returns (r: Result<(), KubeError>)
    ensures r == WorkerMemSize(conf)
  {
    var resolved := ResolveBlockSize(conf.client);
    if resolved.Err? {
      return Err(resolved.error);
    }
    var blockSize := resolved.value;
    var dirs := conf.worker.dataDir;
    ghost var errors := DataDirErrors(dirs, blockSize);
    var i := 0;
    while i < |dirs|
      invariant i <= |dirs|
      invariant FirstError(errors, 0) == FirstError(errors, i)
    {
      FirstErrorStep(errors, i);
      var e := CheckDataDir(dirs[i], blockSize);
      if e.Some? {
        return Err(e.value);
      }
      i := i + 1;
    }
    r := Ok(());
  }

  /** The check passes exactly when the block size is known and every data
      dir parses to something other than a memory tier smaller than a
      block; a failure names the first offending dir. */
  lemma WorkerMemSizeOk(conf: ClusterConf)
    ensures WorkerMemSize(conf).Ok? <==>
      BlockSize(conf.client).Ok? &&
      forall j :: 0 <= j < |conf.worker.dataDir| ==>
        ParseDataDir(conf.worker.dataDir[j]).Ok?
        && !MemTooSmall(ParseDataDir(conf.worker.dataDir[j]).value, BlockSize(conf.client).value)
    ensures WorkerMemSize(conf).Err? && BlockSize(conf.client).Ok? ==>
      exists j :: 0 <= j < |conf.worker.dataDir|
        && DataDirError(conf.worker.dataDir[j], BlockSize(conf.client).value) == Some(WorkerMemSize(conf).error)
        && forall k :: 0 <= k < j ==> DataDirError(conf.worker.dataDir[k], BlockSize(conf.client).value).None?
  {
    if BlockSize(conf.client).Ok? {
      var errors := DataDirErrors(conf.worker.dataDir, BlockSize(conf.client).value);
      FirstErrorIsFirst(errors, 0);
    }
  }

  /** The block size is the numeric setting when positive, and the parsed
      size string otherwise. */
  lemma BlockSizeChoice(client: ClientConf)
    ensures client.blockSize > 0 ==> BlockSize(client) == Ok(client.blockSize)
    ensures client.blockSize <= 0 && ParseSizeString(client.blockSizeStr).Ok? ==>
      BlockSize(client) == Ok(ParseSizeString(client.blockSizeStr).value)
    ensures client.blockSize <= 0 && ParseSizeString(client.blockSizeStr).Err? ==> BlockSize(client).Err?
  {
  }

  // ------------------------------------------------------ storage classes

  /** The storage classes `validate_deployment` looks up, in order: the
      master class when given and non-empty (nothing when given empty),
      else a non-empty shared class; then the worker class when non-empty
      and different from the master class. */
  function DeploymentProbes(storage: Option<StorageConfig>): seq<string> {
    if storage.None? then []
    else
      var s := storage.value;
      var master :=
        if s.masterStorageClass.Some? then (if s.masterStorageClass.value != "" then [s.masterStorageClass.value] else [])
        else if s.storageClass != "" then [s.storageClass]
        else [];
      var worker :=
        if s.workerStorageClass.Some? && s.workerStorageClass.value != ""
           && s.masterStorageClass != Some(s.workerStorageClass.value)
        then [s.workerStorageClass.value] else [];
      master + worker
  }

  /** The storage class `validate_update` looks up: the shared class,
      whatever it is. */
  function UpdateProbes(storage: Option<StorageConfig>): seq<string> {
    if storage.None? then [] else [storage.value.storageClass]
  }

  /** Which classes are probed: none without storage; for an update just
      the shared class; for a deployment the master class first (the shared
      class never, once a master class is given), then the worker class
      only when it is non-empty and differs from the master class; never an
      empty name. */
  lemma ProbeChoice(storage: Option<StorageConfig>)
    ensures storage.None? ==> DeploymentProbes(storage) == [] && UpdateProbes(storage) == []
    ensures storage.Some? ==> UpdateProbes(storage) == [storage.value.storageClass]
    ensures storage.Some? && storage.value.masterStorageClass.Some? && storage.value.masterStorageClass.value != "" ==>
      DeploymentProbes(storage)[0] == storage.value.masterStorageClass.value
    ensures storage.Some? && storage.value.masterStorageClass.None? && storage.value.storageClass != "" ==>
      DeploymentProbes(storage)[0] == storage.value.storageClass
    ensures storage.Some? && storage.value.masterStorageClass.Some? ==>
      forall name :: name in DeploymentProbes(storage) ==>
        Some(name) == storage.value.masterStorageClass || Some(name) == storage.value.workerStorageClass
    ensures storage.Some? && storage.value.workerStorageClass.Some? && storage.value.workerStorageClass.value != ""
            && storage.value.masterStorageClass != storage.value.workerStorageClass ==>
      DeploymentProbes(storage)[|DeploymentProbes(storage)| - 1] == storage.value.workerStorageClass.value
    ensures storage.Some? && (storage.value.workerStorageClass.None? || storage.value.workerStorageClass.value == ""
            || storage.value.masterStorageClass == storage.value.workerStorageClass) ==>
      |DeploymentProbes(storage)| <= 1
    ensures forall name :: name in DeploymentProbes(storage) ==> name != ""
  {
  }

  /** A class the cluster does not know: the message lists the known ones. */
  const NOT_FOUND_HEAD := "\n StorageClass not found\n\n  Requested: '"
  const NOT_FOUND_AVAILABLE := "'\n\n Available StorageClasses:\n"
  const NOT_FOUND_NONE := "  (none found)"
  const NOT_FOUND_TAIL := "\n\n Use one of the above StorageClasses or create a new one before deploying."

  function NotFoundMessage(name: string, classes: seq<string>): string {
    var listed :=
      if |classes| == 0 then NOT_FOUND_NONE
      else Join(seq(|classes|, i requires 0 <= i < |classes| => "  - " + classes[i]), '\n');
    NOT_FOUND_HEAD + name + NOT_FOUND_AVAILABLE + listed + NOT_FOUND_TAIL
  }

  /** `validate_storage_class` against the classes the cluster has. */
  function ProbeError(name: string, classes: seq<string>): Option<KubeError> {
    if name in classes then None else Some(ValidationError(NotFoundMessage(name, classes)))
  }

  function ProbeErrors(names: seq<string>, classes: seq<string>): (r: seq<Option<KubeError>>)
    ensures |r| == |names| && forall i :: 0 <= i < |names| ==> r[i] == ProbeError(names[i], classes)
  {
    seq(|names|, i requires 0 <= i < |names| => ProbeError(names[i], classes))
  }

  /** Looking the names up one by one, stopping at the first unknown. */
  function ProbeAll(names: seq<string>, classes: seq<string>): Result<(), KubeError> {
    var e := FirstError(ProbeErrors(names, classes), 0);
    if e.Some? then Err(e.value) else Ok(())
  }

  /** `validate_deployment`: the memory check, then the storage classes. */
  function ValidateDeployment(conf: ClusterConf, kc: KubernetesConfig, classes: seq<string>): Result<(), KubeError> {
    match WorkerMemSize(conf)
    case Err(e) => Err(e)
    case Ok(_) => ProbeAll(DeploymentProbes(kc.storage), classes)
  }

  /** `validate_update`: the pull policy, then the worker count, then the
      shared storage class. */
  function ValidateUpdate(kc: KubernetesConfig, classes: seq<string>): Result<(), KubeError> {
    if kc.imagePullPolicy !in VALID_PULL_POLICIES then
      Err(ConfigError("Invalid image_pull_policy: " + kc.imagePullPolicy))
    else if kc.worker.replicas == 0 then Err(ConfigError("worker.replicas must be > 0"))
    else ProbeAll(UpdateProbes(kc.storage), classes)
  }

  /** Probing passes exactly when every name is known to the cluster. */
  lemma ProbeAllOk(names: seq<string>, classes: seq<string>)
    ensures ProbeAll(names, classes).Ok? <==> forall name :: name in names ==> name in classes
  {
    var errors := ProbeErrors(names, classes);
    FirstErrorIsFirst(errors, 0);
    if forall j :: 0 <= j < |names| ==> errors[j].None? {
      forall name | name in names ensures name in classes {
        var j :| 0 <= j < |names| && names[j] == name;
        assert errors[j].None?;
      }
    }
  }

  /** A deployment passes exactly when the memory check passes and every
      probed class is known to the cluster. */
  lemma ValidateDeploymentOk(conf: ClusterConf, kc: KubernetesConfig, classes: seq<string>)
    ensures ValidateDeployment(conf, kc, classes).Ok? <==>
      WorkerMemSize(conf).Ok? && forall name :: name in DeploymentProbes(kc.storage) ==> name in classes
  {
    ProbeAllOk(DeploymentProbes(kc.storage), classes);
  }

  /** An update is checked in a fixed order, never looks at the master
      count, and probes the shared class even when it is empty. */
  lemma ValidateUpdateOrder(kc: KubernetesConfig, classes: seq<string>, master: MasterConfig)
    ensures kc.imagePullPolicy !in VALID_PULL_POLICIES ==>
      ValidateUpdate(kc, classes) == Err(ConfigError("Invalid image_pull_policy: " + kc.imagePullPolicy))
    ensures kc.imagePullPolicy in VALID_PULL_POLICIES && kc.worker.replicas == 0 ==>
      ValidateUpdate(kc, classes) == Err(ConfigError("worker.replicas must be > 0"))
    ensures kc.imagePullPolicy in VALID_PULL_POLICIES && kc.worker.replicas != 0 ==>
      (ValidateUpdate(kc, classes).Ok? <==> kc.storage.None? || kc.storage.value.storageClass in classes)
    ensures ValidateUpdate(kc.(master := master), classes) == ValidateUpdate(kc, classes)
  {
    ProbeAllOk(UpdateProbes(kc.storage), classes);
  }

  // ----------------------------------------------- default storage class

  const DEFAULT_CLASS_ANNOTATION := "storageclass.kubernetes.io/is-default-class"
  const BETA_DEFAULT_CLASS_ANNOTATION := "storageclass.beta.kubernetes.io/is-default-class"

  /** Marked as the default by either annotation. */
  predicate IsDefaultClass(sc: StorageClass) {
    sc.annotations.Some?
    && ((DEFAULT_CLASS_ANNOTATION in sc.annotations.value && sc.annotations.value[DEFAULT_CLASS_ANNOTATION] == "true")
        || (BETA_DEFAULT_CLASS_ANNOTATION in sc.annotations.value
            && sc.annotations.value[BETA_DEFAULT_CLASS_ANNOTATION] == "true"))
  }

  /** The name of the first class at or after position i marked as the
      default, or None. */
  function DefaultClassName(classes: seq<StorageClass>, i: nat): Option<string>
    requires i <= |classes|
    decreases |classes| - i
  {
    if i == |classes| then None
    else if IsDefaultClass(classes[i]) then classes[i].name
    else DefaultClassName(classes, i + 1)
  }

  /** `get_default_storage_class` over a listed page. */
  method GetDefaultStorageClass(classes: seq<StorageClass>) returns (r: Option<string>)
    ensures r == DefaultClassName(classes, 0)
  {
    var i := 0;
    while i < |classes|
      invariant i <= |classes|
      invariant DefaultClassName(classes, i) == DefaultClassName(classes, 0)
    {
      if IsDefaultClass(classes[i]) {
        return classes[i].name;
      }
      i := i + 1;
    }
    r := None;
  }

  /** Without a class marked as the default there is none; otherwise it is
      the name of the first one marked. */
  lemma {:induction false} DefaultClassNameIsFirst(classes: seq<StorageClass>, i: nat)
    requires i <= |classes|
    ensures (forall j :: i <= j < |classes| ==> !IsDefaultClass(classes[j])) ==> DefaultClassName(classes, i) == None
    ensures forall j :: (i <= j < |classes| && IsDefaultClass(classes[j])
                         && forall k :: i <= k < j ==> !IsDefaultClass(classes[k])) ==> DefaultClassName(classes, i) == classes[j].name
    decreases |classes| - i
  {
    if i < |classes| && !IsDefaultClass(classes[i]) {
      DefaultClassNameIsFirst(classes, i + 1);
    }
  }
}
