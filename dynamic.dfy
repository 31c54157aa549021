/** Dynamic `key=value` overrides patched into a deployment specification
    (src/domain/config/dynamic.rs). */
module DynamicConfig {
  import opened Wrappers
  import opened Strings
  import opened K8s
  import opened KubeConfig

  // ----------------------------------------------------------- key names

  const KEY_CONTAINER_IMAGE := "kubernetes.container.image"
  const KEY_MASTER_IMAGE := "kubernetes.master.image"
  const KEY_WORKER_IMAGE := "kubernetes.worker.image"
  const KEY_PULL_POLICY := "kubernetes.image.pull-policy"
  const KEY_CLUSTER_DOMAIN := "kubernetes.cluster.domain"
  const KEY_MASTER_REPLICAS := "kubernetes.master.replicas"
  const KEY_WORKER_REPLICAS := "kubernetes.worker.replicas"
  const KEY_STORAGE_CLASS := "kubernetes.storage.class"
  const KEY_MASTER_SIZE := "kubernetes.storage.master-size"
  const KEY_WORKER_SIZE := "kubernetes.storage.worker-size"
  const KEY_STORAGE_SIZE := "kubernetes.storage.size"
  const KEY_WORKER_STORAGE_CLASS := "kubernetes.worker.storage-class"
  const KEY_MASTER_POD_TEMPLATE := "kubernetes.master.pod-template"
  const KEY_WORKER_POD_TEMPLATE := "kubernetes.worker.pod-template"
  const KEY_SERVICE_TYPE := "kubernetes.service.type"
  const KEY_MASTER_MEMORY := "kubernetes.master.memory"
  const KEY_WORKER_MEMORY := "kubernetes.worker.memory"
  const KEY_MASTER_NODE_SELECTOR := "kubernetes.master.node-selector"
  const KEY_WORKER_NODE_SELECTOR := "kubernetes.worker.node-selector"
  const KEY_MASTER_LABELS := "kubernetes.master.labels"
  const KEY_WORKER_LABELS := "kubernetes.worker.labels"
  const KEY_MASTER_ANNOTATIONS := "kubernetes.master.annotations"
  const KEY_WORKER_ANNOTATIONS := "kubernetes.worker.annotations"
  const KEY_MASTER_SERVICE_ACCOUNT := "kubernetes.master.service-account"
  const KEY_WORKER_SERVICE_ACCOUNT := "kubernetes.worker.service-account"
  const MASTER_ENV_PREFIX := "kubernetes.master.env."
  const WORKER_ENV_PREFIX := "kubernetes.worker.env."
  const KEY_POD_DNS_POLICY := "kubernetes.pod.dns-policy"
  const KEY_POD_PRIORITY := "kubernetes.pod.priority-class"
  const KEY_MASTER_PRIORITY := "kubernetes.master.priority-class"
  const KEY_WORKER_PRIORITY := "kubernetes.worker.priority-class"
  const KEY_SERVICE_ANNOTATIONS := "kubernetes.service.annotations"
  const KEY_SERVICE_EXTERNAL_IPS := "kubernetes.service.external-ips"

  /** `configs.get(key).cloned()` */
  function Lookup(configs: map<string, string>, key: string): (r: Option<string>)
    ensures r.Some? <==> key in configs
    ensures r.Some? ==> r.value == configs[key]
  {
    if key in configs then Some(configs[key]) else None
  }

  // ------------------------------------------------- parse_key_value_pairs

  /** One comma-separated piece: split at its first '=' and trim both
      sides; a piece without '=' contributes nothing. */
  function Pair(piece: string): Option<(string, string)> {
    match SplitOnce(piece, '=')
    case None => None
    case Some((k, v)) => Some((Trim(k), Trim(v)))
  }

  /** The pieces' entries, in order. */
  function PairsOf(pieces: seq<string>): (r: seq<Option<(string, string)>>)
    ensures |r| == |pieces| && forall i :: 0 <= i < |r| ==> r[i] == Pair(pieces[i])
  {
    seq(|pieces|, i requires 0 <= i < |pieces| => Pair(pieces[i]))
  }

  /** The map after inserting the present entries from first to last. */
  function Insertions<K, V>(entries: seq<Option<(K, V)>>): map<K, V>
    decreases |entries|
  {
    if |entries| == 0 then map[]
    else
      var m := Insertions(entries[..|entries| - 1]);
      match entries[|entries| - 1]
      case None => m
      case Some((k, v)) => m[k := v]
  }

  /** What `parse_key_value_pairs(input)` returns. */
  function KeyValuePairs(input: string): map<string, string> {
    Insertions(PairsOf(Split(input, ',')))
  }

  /** `parse_key_value_pairs`: the loop over the comma-separated pieces. */
  method ParseKeyValuePairs(input: string) returns (m: map<string, string>)
    ensures m == KeyValuePairs(input)
  {
    var pieces := Split(input, ',');
    m := map[];
    var i := 0;
    while i < |pieces|
      invariant i <= |pieces|
      invariant m == Insertions(PairsOf(pieces[..i]))
    {
      ghost var entries := PairsOf(pieces[..i + 1]);
      assert entries[..i] == PairsOf(pieces[..i]);
      assert entries[i] == Pair(pieces[i]);
      var entry := Pair(pieces[i]);
      if entry.Some? {
        m := m[entry.value.0 := entry.value.1];
      }
      assert m == Insertions(entries);
      i := i + 1;
    }
    assert pieces[..|pieces|] == pieces;
  }

  /** The entry defines key k. */
  predicate Defines<K(==), V>(e: Option<(K, V)>, k: K) {
    e.Some? && e.value.0 == k
  }

  /** A key is in the map exactly when some entry defines it. */
  lemma {:induction false} InsertionsDomain<K, V>(entries: seq<Option<(K, V)>>, k: K)
    ensures k in Insertions(entries) <==> exists j :: 0 <= j < |entries| && Defines(entries[j], k)
    decreases |entries|
  {
    if |entries| > 0 {
      var n := |entries| - 1;
      var init := entries[..n];
      InsertionsDomain(init, k);
      assert forall j :: 0 <= j < n ==> init[j] == entries[j];
      match entries[n] {
        case None =>
          assert Insertions(entries) == Insertions(init);
        case Some((k', v)) =>
          assert Insertions(entries) == Insertions(init)[k' := v];
      }
    }
  }

  /** The value of a key is that of the last entry defining it: later
      duplicates win. */
  lemma {:induction false} InsertionsLastWins<K, V>(entries: seq<Option<(K, V)>>, k: K)
    requires k in Insertions(entries)
    ensures exists j :: (0 <= j < |entries| && entries[j] == Some((k, Insertions(entries)[k]))
      && forall j' :: j < j' < |entries| ==> !Defines(entries[j'], k))
    decreases |entries|
  {
    var n := |entries| - 1;
    var init := entries[..n];
    assert forall j :: 0 <= j < n ==> init[j] == entries[j];
    match entries[n] {
      case None =>
        assert Insertions(entries) == Insertions(init);
        InsertionsLastWins(init, k);
      case Some((k', v)) =>
        assert Insertions(entries) == Insertions(init)[k' := v];
        if k' != k {
          InsertionsLastWins(init, k);
        }
    }
  }

  /** The map built from some pieces holds exactly the keys of the pieces
      that hold '=', trimmed. */
  lemma PiecesDomain(pieces: seq<string>, k: string)
    ensures k in Insertions(PairsOf(pieces)) <==> exists j :: 0 <= j < |pieces| && Defines(Pair(pieces[j]), k)
  {
    var entries := PairsOf(pieces);
    InsertionsDomain(entries, k);
    if exists j :: 0 <= j < |pieces| && Defines(Pair(pieces[j]), k) {
      var j :| 0 <= j < |pieces| && Defines(Pair(pieces[j]), k);
      assert Defines(entries[j], k);
    }
  }

  /** `parse_key_value_pairs` keeps exactly the keys of the pieces that
      hold '=', trimmed. */
  lemma KeyValuePairsDomain(input: string, k: string)
    ensures k in KeyValuePairs(input) ==>
      exists j :: 0 <= j < |Split(input, ',')| && Defines(Pair(Split(input, ',')[j]), k)
    ensures (exists j :: 0 <= j < |Split(input, ',')| && Defines(Pair(Split(input, ',')[j]), k)) ==>
      k in KeyValuePairs(input)
  {
    var pieces := Split(input, ',');
    PiecesDomain(pieces, k);
  }

  /** Each kept key has the trimmed value of the last piece defining it. */
  lemma KeyValuePairsLastWins(input: string, k: string)
    requires k in KeyValuePairs(input)
    ensures exists j :: (0 <= j < |Split(input, ',')|
      && Pair(Split(input, ',')[j]) == Some((k, KeyValuePairs(input)[k]))
      && forall j' :: j < j' < |Split(input, ',')| ==> !Defines(Pair(Split(input, ',')[j']), k))
  {
    var pieces := Split(input, ',');
    var entries := PairsOf(pieces);
    InsertionsLastWins(entries, k);
    var j :| 0 <= j < |entries| && entries[j] == Some((k, Insertions(entries)[k]))
      && forall j' :: j < j' < |entries| ==> !Defines(entries[j'], k);
    assert Pair(pieces[j]) == Some((k, KeyValuePairs(input)[k]));
  }

  /** A piece without '=' is dropped; one with '=' contributes its
      trimmed key and trimmed value. */
  lemma PairOfPiece(piece: string)
    ensures '=' !in piece ==> Pair(piece).None?
    ensures '=' in piece ==>
      (exists k, v :: piece == k + "=" + v && '=' !in k && Pair(piece) == Some((Trim(k), Trim(v))))
  {
    if '=' in piece {
      var (k, v) := SplitOnce(piece, '=').value;
      assert piece == k + "=" + v && '=' !in k && Pair(piece) == Some((Trim(k), Trim(v)));
    }
  }

  // ------------------------------------------------------------ sections

  /** The replica count a replicas key leaves: its value when it parses as
      a u32, otherwise the current count. */
  function ReplicasAfter(configs: map<string, string>, key: string, current: nat): (n: nat)
    ensures key in configs && ParseU32(configs[key]).Some? ==> n == ParseU32(configs[key]).value < U32_LIMIT
    ensures !(key in configs && ParseU32(configs[key]).Some?) ==> n == current
  {
    if key in configs && ParseU32(configs[key]).Some? then ParseU32(configs[key]).value else current
  }

  /** True when some key of lines 53-112 is present. */
  predicate TouchesStorage(configs: map<string, string>) {
    KEY_STORAGE_CLASS in configs || KEY_MASTER_SIZE in configs
    || KEY_WORKER_SIZE in configs || KEY_STORAGE_SIZE in configs
  }

  /** Lines 53-112: the storage keys. A missing storage section is created
      with class "standard" (or the given class); the role size keys set
      their size; the shared size key fills only sizes still absent. */
  /** What the storage keys make of the storage section. */
  predicate StorageOverridden(configs: map<string, string>, storage: Option<StorageConfig>,
                              r: Option<StorageConfig>) {
    && (r.Some? <==> storage.Some? || TouchesStorage(configs))
    && (!TouchesStorage(configs) ==> r == storage)
    && (r.Some? ==>
      && r.value.storageClass == Lookup(configs, KEY_STORAGE_CLASS).GetOr(
           if storage.Some? then storage.value.storageClass else "standard")
      && r.value.masterStorageClass == (if storage.Some? then storage.value.masterStorageClass else None)
      && r.value.workerStorageClass == (if storage.Some? then storage.value.workerStorageClass else None)
      && r.value.masterSize == OrElse(OrElse(Lookup(configs, KEY_MASTER_SIZE),
           if storage.Some? then storage.value.masterSize else None), Lookup(configs, KEY_STORAGE_SIZE))
      && r.value.workerSize == OrElse(OrElse(Lookup(configs, KEY_WORKER_SIZE),
           if storage.Some? then storage.value.workerSize else None), Lookup(configs, KEY_STORAGE_SIZE)))
  }

  method ApplyStorage(configs: map<string, string>, storage: Option<StorageConfig>) returns (r: Option<StorageConfig>)
    ensures StorageOverridden(configs, storage, r)
  {
    r := storage;
    if KEY_STORAGE_CLASS in configs {
      var cls := configs[KEY_STORAGE_CLASS];
      if r.None? {
        r := Some(StorageConfig(cls, None, None, None, None));
      } else {
        r := Some(r.value.(storageClass := cls));
      }
    }
    if KEY_MASTER_SIZE in configs {
      var size := configs[KEY_MASTER_SIZE];
      if r.None? {
        r := Some(StorageConfig("standard", None, None, Some(size), None));
      } else {
        r := Some(r.value.(masterSize := Some(size)));
      }
    }
    if KEY_WORKER_SIZE in configs {
      var size := configs[KEY_WORKER_SIZE];
      if r.None? {
        r := Some(StorageConfig("standard", None, None, None, Some(size)));
      } else {
        r := Some(r.value.(workerSize := Some(size)));
      }
    }
    if KEY_STORAGE_SIZE in configs {
      var size := configs[KEY_STORAGE_SIZE];
      if r.None? {
        r := Some(StorageConfig("standard", None, None, Some(size), Some(size)));
      } else {
        if r.value.masterSize.None? {
          r := Some(r.value.(masterSize := Some(size)));
        }
        if r.value.workerSize.None? {
          r := Some(r.value.(workerSize := Some(size)));
        }
      }
    }
  }

  const MASTER_DEFAULT_RESOURCES := ResourceRequirements(
    Some(map["cpu" := "1000m", "memory" := "2Gi"]), Some(map["cpu" := "1000m", "memory" := "2Gi"]))
  const WORKER_DEFAULT_RESOURCES := ResourceRequirements(
    Some(map["cpu" := "500m", "memory" := "1Gi"]), Some(map["cpu" := "500m", "memory" := "1Gi"]))

  /** Lines 132-160 / 178-188 (master) and 190-218 / 236-246 (worker):
      absent resources get the role's defaults, then a memory key sets the
      "memory" entry of both requests and limits to the raw string,
      creating either map if it is absent; other entries stay. */
  /** The resources of a role after the defaults and its memory key. */
  predicate ResourcesOverridden(current: Option<ResourceRequirements>, defaults: ResourceRequirements,
                                memory: Option<string>, r: ResourceRequirements) {
    && (memory.None? ==> r == current.GetOr(defaults))
    && (memory.Some? ==>
      var base := current.GetOr(defaults);
      && r.requests.Some? && r.limits.Some?
      && "memory" in r.requests.value && r.requests.value["memory"] == memory.value
      && "memory" in r.limits.value && r.limits.value["memory"] == memory.value
      && r.requests.value - {"memory"} == base.requests.GetOr(map[]) - {"memory"}
      && r.limits.value - {"memory"} == base.limits.GetOr(map[]) - {"memory"})
  }

  method ApplyRoleResources(current: Option<ResourceRequirements>, defaults: ResourceRequirements,
                            memory: Option<string>)
    returns (r: ResourceRequirements)
    ensures ResourcesOverridden(current, defaults, memory, r)
  {
    r := if current.None? then defaults else current.value;
    if memory.Some? {
      var requests := r.requests.GetOr(map[]);
      var limits := r.limits.GetOr(map[]);
      r := r.(requests := Some(requests["memory" := memory.value]),
              limits := Some(limits["memory" := memory.value]));
    }
  }

  /** Lines 248-288: node selector (replaced only by a non-empty parsed
      map), labels and annotations (merged, the parsed entries winning),
      and service account, for one role. */
  method ApplyRoleMaps(configs: map<string, string>, selectorKey: string, labelsKey: string,
                       annotationsKey: string, accountKey: string,
                       nodeSelector: Option<StringMap>, labels: StringMap, annotations: StringMap,
                       serviceAccount: Option<string>)
    returns (nodeSelector': Option<StringMap>, labels': StringMap, annotations': StringMap,
             serviceAccount': Option<string>)
    ensures nodeSelector' ==
      if selectorKey in configs && |KeyValuePairs(configs[selectorKey])| > 0
      then Some(KeyValuePairs(configs[selectorKey])) else nodeSelector
    ensures labels' == if labelsKey in configs then labels + KeyValuePairs(configs[labelsKey]) else labels
    ensures annotations' ==
      if annotationsKey in configs then annotations + KeyValuePairs(configs[annotationsKey]) else annotations
    ensures serviceAccount' == OrElse(Lookup(configs, accountKey), serviceAccount)
  {
    nodeSelector', labels', annotations', serviceAccount' := nodeSelector, labels, annotations, serviceAccount;
    if selectorKey in configs {
      var selectors := ParseKeyValuePairs(configs[selectorKey]);
      if |selectors| > 0 {
        nodeSelector' := Some(selectors);
      }
    }
    if labelsKey in configs {
      var parsed := ParseKeyValuePairs(configs[labelsKey]);
      labels' := labels' + parsed;
    }
    if annotationsKey in configs {
      var parsed := ParseKeyValuePairs(configs[annotationsKey]);
      annotations' := annotations' + parsed;
    }
    if accountKey in configs {
      serviceAccount' := Some(configs[accountKey]);
    }
  }

  /** The variable names the keys in `keys` starting with `prefix` carry. */
  function EnvNames(keys: set<string>, prefix: string): set<string> {
    set k | k in keys && StartsWith(k, prefix) :: k[|prefix|..]
  }

  /** The env vars set by those keys of `keys` that start with `prefix`:
      the rest of the key names the variable. */
  function EnvOverrides(configs: map<string, string>, prefix: string, keys: set<string>): map<string, string> {
    map x | x in EnvNames(keys, prefix) && prefix + x in keys && prefix + x in configs :: configs[prefix + x]
  }

  lemma PrefixPlus(prefix: string, x: string)
    ensures StartsWith(prefix + x, prefix) && (prefix + x)[|prefix|..] == x
  {
    assert (prefix + x)[..|prefix|] == prefix;
  }

  lemma StripPrefix(k: string, prefix: string)
    requires StartsWith(k, prefix)
    ensures prefix + k[|prefix|..] == k
  {
    assert k == k[..|prefix|] + k[|prefix|..];
  }

  /** A variable is set exactly when `prefix + x` is one of the keys. */
  lemma EnvOverridesDomain(configs: map<string, string>, prefix: string, keys: set<string>, x: string)
    ensures x in EnvOverrides(configs, prefix, keys) <==> prefix + x in keys && prefix + x in configs
  {
    if prefix + x in keys {
      PrefixPlus(prefix, x);
      assert x in EnvNames(keys, prefix);
    }
  }

  /** Every key `prefix + x` sets variable x to its value, and no other
      variable is set. */
  lemma EnvOverridesIff(configs: map<string, string>, prefix: string, x: string)
    ensures x in EnvOverrides(configs, prefix, configs.Keys) <==> prefix + x in configs
    ensures prefix + x in configs ==> EnvOverrides(configs, prefix, configs.Keys)[x] == configs[prefix + x]
  {
    EnvOverridesDomain(configs, prefix, configs.Keys, x);
  }

  /** Adding one more key to the processed set adds its override. */
  lemma EnvOverridesStep(configs: map<string, string>, prefix: string, done: set<string>, k: string)
    requires k in configs
    ensures StartsWith(k, prefix) ==>
      EnvOverrides(configs, prefix, done + {k}) == EnvOverrides(configs, prefix, done)[k[|prefix|..] := configs[k]]
    ensures !StartsWith(k, prefix) ==>
      EnvOverrides(configs, prefix, done + {k}) == EnvOverrides(configs, prefix, done)
  {
    var before := EnvOverrides(configs, prefix, done);
    var after := EnvOverrides(configs, prefix, done + {k});
    if StartsWith(k, prefix) {
      var x := k[|prefix|..];
      StripPrefix(k, prefix);
      forall y
        ensures y in after <==> y in before[x := configs[k]]
      {
        EnvOverridesDomain(configs, prefix, done + {k}, y);
        EnvOverridesDomain(configs, prefix, done, y);
      }
      assert after == before[x := configs[k]];
    } else {
      forall y
        ensures y in after <==> y in before
      {
        EnvOverridesDomain(configs, prefix, done + {k}, y);
        EnvOverridesDomain(configs, prefix, done, y);
        PrefixPlus(prefix, y);
      }
      assert after == before;
    }
  }

  /** One turn of the env loop keeps the env equal to the base env
      overlaid with the overrides of the keys processed so far. */
  lemma EnvLoopStep(configs: map<string, string>, prefix: string, done: set<string>, key: string,
                    base: StringMap, env: StringMap)
    requires key in configs && env == base + EnvOverrides(configs, prefix, done)
    ensures (if StartsWith(key, prefix) then env[key[|prefix|..] := configs[key]] else env)
            == base + EnvOverrides(configs, prefix, done + {key})
  {
    EnvOverridesStep(configs, prefix, done, key);
  }

  /** Lines 290-305: every `kubernetes.master.env.X` key sets master env
      var X, every `kubernetes.worker.env.X` key sets worker env var X. */
  method ApplyEnv(configs: map<string, string>, masterEnv: StringMap, workerEnv: StringMap)
    returns (masterEnv': StringMap, workerEnv': StringMap)
    ensures masterEnv' == masterEnv + EnvOverrides(configs, MASTER_ENV_PREFIX, configs.Keys)
    ensures workerEnv' == workerEnv + EnvOverrides(configs, WORKER_ENV_PREFIX, configs.Keys)
  {
    masterEnv', workerEnv' := masterEnv, workerEnv;
    var remaining := configs.Keys;
    ghost var done: set<string> := {};
    while remaining != {}
      invariant done + remaining == configs.Keys && done !! remaining
      invariant masterEnv' == masterEnv + EnvOverrides(configs, MASTER_ENV_PREFIX, done)
      invariant workerEnv' == workerEnv + EnvOverrides(configs, WORKER_ENV_PREFIX, done)
      decreases |remaining|
    {
      var key :| key in remaining;
      EnvLoopStep(configs, MASTER_ENV_PREFIX, done, key, masterEnv, masterEnv');
      EnvLoopStep(configs, WORKER_ENV_PREFIX, done, key, workerEnv, workerEnv');
      if StartsWith(key, MASTER_ENV_PREFIX) {
        masterEnv' := masterEnv'[key[|MASTER_ENV_PREFIX|..] := configs[key]];
      }
      if StartsWith(key, WORKER_ENV_PREFIX) {
        workerEnv' := workerEnv'[key[|WORKER_ENV_PREFIX|..] := configs[key]];
      }
      remaining := remaining - {key};
      done := done + {key};
    }
  }

  /** `s.split(',').map(|s| s.trim())`: one entry per comma-separated
      piece, in order, each trimmed and free of commas. */
  function TrimmedPieces(s: string): (r: seq<string>)
    ensures |r| == |Split(s, ',')| >= 1
    ensures forall i :: 0 <= i < |r| ==> r[i] == Trim(Split(s, ',')[i]) && ',' !in r[i]
  {
    var pieces := Split(s, ',');
    seq(|pieces|, i requires 0 <= i < |pieces| => Trim(pieces[i]))
  }

  /** What the overrides make of the master settings, env vars aside: a
      role image key beats the shared image key, replicas change only on a
      u32, resources are always present, a role priority key beats the
      shared one, and the fields no key names stay. */
  predicate MasterOverridden(configs: map<string, string>, m: MasterConfig, m': MasterConfig) {
    && m'.replicas == ReplicasAfter(configs, KEY_MASTER_REPLICAS, m.replicas)
    && m'.image == OrElse(Lookup(configs, KEY_MASTER_IMAGE), Lookup(configs, KEY_CONTAINER_IMAGE)).GetOr(m.image)
    && m'.resources.Some?
    && ResourcesOverridden(m.resources, MASTER_DEFAULT_RESOURCES, Lookup(configs, KEY_MASTER_MEMORY), m'.resources.value)
    && m'.nodeSelector ==
         (if KEY_MASTER_NODE_SELECTOR in configs && |KeyValuePairs(configs[KEY_MASTER_NODE_SELECTOR])| > 0
          then Some(KeyValuePairs(configs[KEY_MASTER_NODE_SELECTOR])) else m.nodeSelector)
    && m'.affinity == m.affinity
    && m'.podTemplate == OrElse(Lookup(configs, KEY_MASTER_POD_TEMPLATE), m.podTemplate)
    && m'.gracefulShutdown == m.gracefulShutdown
    && m'.labels == (if KEY_MASTER_LABELS in configs then m.labels + KeyValuePairs(configs[KEY_MASTER_LABELS]) else m.labels)
    && m'.annotations ==
         (if KEY_MASTER_ANNOTATIONS in configs then m.annotations + KeyValuePairs(configs[KEY_MASTER_ANNOTATIONS])
          else m.annotations)
    && m'.tolerations == m.tolerations
    && m'.serviceAccount == OrElse(Lookup(configs, KEY_MASTER_SERVICE_ACCOUNT), m.serviceAccount)
    && m'.dnsPolicy == OrElse(Lookup(configs, KEY_POD_DNS_POLICY), m.dnsPolicy)
    && m'.priorityClass ==
         OrElse(Lookup(configs, KEY_MASTER_PRIORITY), OrElse(Lookup(configs, KEY_POD_PRIORITY), m.priorityClass))
  }

  /** The same for the worker settings, which also take a storage class. */
  predicate WorkerOverridden(configs: map<string, string>, w: WorkerConfig, w': WorkerConfig) {
    && w'.replicas == ReplicasAfter(configs, KEY_WORKER_REPLICAS, w.replicas)
    && w'.image == OrElse(Lookup(configs, KEY_WORKER_IMAGE), Lookup(configs, KEY_CONTAINER_IMAGE)).GetOr(w.image)
    && w'.resources.Some?
    && ResourcesOverridden(w.resources, WORKER_DEFAULT_RESOURCES, Lookup(configs, KEY_WORKER_MEMORY), w'.resources.value)
    && w'.nodeSelector ==
         (if KEY_WORKER_NODE_SELECTOR in configs && |KeyValuePairs(configs[KEY_WORKER_NODE_SELECTOR])| > 0
          then Some(KeyValuePairs(configs[KEY_WORKER_NODE_SELECTOR])) else w.nodeSelector)
    && w'.antiAffinity == w.antiAffinity
    && w'.podTemplate == OrElse(Lookup(configs, KEY_WORKER_POD_TEMPLATE), w.podTemplate)
    && w'.storageClass == OrElse(Lookup(configs, KEY_WORKER_STORAGE_CLASS), w.storageClass)
    && w'.gracefulShutdown == w.gracefulShutdown
    && w'.hostNetwork == w.hostNetwork
    && w'.initContainer == w.initContainer
    && w'.hostPathStorage == w.hostPathStorage
    && w'.labels == (if KEY_WORKER_LABELS in configs then w.labels + KeyValuePairs(configs[KEY_WORKER_LABELS]) else w.labels)
    && w'.annotations ==
         (if KEY_WORKER_ANNOTATIONS in configs then w.annotations + KeyValuePairs(configs[KEY_WORKER_ANNOTATIONS])
          else w.annotations)
    && w'.tolerations == w.tolerations
    && w'.serviceAccount == OrElse(Lookup(configs, KEY_WORKER_SERVICE_ACCOUNT), w.serviceAccount)
    && w'.dnsPolicy == OrElse(Lookup(configs, KEY_POD_DNS_POLICY), w.dnsPolicy)
    && w'.priorityClass ==
         OrElse(Lookup(configs, KEY_WORKER_PRIORITY), OrElse(Lookup(configs, KEY_POD_PRIORITY), w.priorityClass))
  }

  /** What the overrides make of the service settings; an unknown service
      type is skipped. */
  predicate ServiceOverridden(configs: map<string, string>, s: ServiceConfig, s': ServiceConfig) {
    && (if KEY_SERVICE_TYPE in configs && ParseServiceType(configs[KEY_SERVICE_TYPE]).Ok?
        then ServiceTypeName(s'.serviceType) == configs[KEY_SERVICE_TYPE]
        else s'.serviceType == s.serviceType)
    && s'.annotations ==
         (if KEY_SERVICE_ANNOTATIONS in configs
          then s.annotations + KeyValuePairs(configs[KEY_SERVICE_ANNOTATIONS]) else s.annotations)
    && s'.sessionAffinity == s.sessionAffinity
    && s'.externalIps ==
         (if KEY_SERVICE_EXTERNAL_IPS in configs then TrimmedPieces(configs[KEY_SERVICE_EXTERNAL_IPS])
          else s.externalIps)
    && s'.loadBalancerSourceRanges == s.loadBalancerSourceRanges
  }

  /** `if let Some(v) = configs.get(key) { field = Some(v.clone()) }`,
      the shape of most keys. */
  method SetIfPresent(configs: map<string, string>, key: string, current: Option<string>)
    returns (r: Option<string>)
    ensures r == OrElse(Lookup(configs, key), current)
  {
    r := current;
    if key in configs {
      r := Some(configs[key]);
    }
  }

  /** `if let Some(v) = configs.get(key) { field = v.clone() }`, for the
      fields that are plain strings. */
  method ReplaceIfPresent(configs: map<string, string>, key: string, current: string) returns (r: string)
    ensures r == Lookup(configs, key).GetOr(current)
  {
    r := current;
    if key in configs {
      r := configs[key];
    }
  }

  /** Lines 20-31 for one role: the role image key beats the shared one. */
  method RoleImage(configs: map<string, string>, roleKey: string, image: string) returns (image': string)
    ensures image' == OrElse(Lookup(configs, roleKey), Lookup(configs, KEY_CONTAINER_IMAGE)).GetOr(image)
  {
    image' := image;
    if KEY_CONTAINER_IMAGE in configs {
      image' := configs[KEY_CONTAINER_IMAGE];
    }
    if roleKey in configs {
      image' := configs[roleKey];
    }
  }

  /** Lines 41-51 for one role: skipped silently when not a u32. */
  method RoleReplicas(configs: map<string, string>, key: string, replicas: nat) returns (replicas': nat)
    ensures replicas' == ReplicasAfter(configs, key, replicas)
  {
    replicas' := replicas;
    if key in configs {
      match ParseU32(configs[key]) {
        case Some(n) => replicas' := n;
        case None =>
      }
    }
  }

  /** Lines 312-323 for one role: the role priority key beats the shared
      pod key. */
  method RolePriority(configs: map<string, string>, roleKey: string, priority: Option<string>)
    returns (priority': Option<string>)
    ensures priority' == OrElse(Lookup(configs, roleKey), OrElse(Lookup(configs, KEY_POD_PRIORITY), priority))
  {
    priority' := priority;
    if KEY_POD_PRIORITY in configs {
      priority' := Some(configs[KEY_POD_PRIORITY]);
    }
    if roleKey in configs {
      priority' := Some(configs[roleKey]);
    }
  }

  /** The master half of lines 20-323, in the source's order; the env vars
      are those the env loop produced. */
  method ApplyMasterOverrides(configs: map<string, string>, m: MasterConfig, env: StringMap)
    returns (m': MasterConfig)
    ensures MasterOverridden(configs, m, m') && m'.envVars == env
  {
    var image := RoleImage(configs, KEY_MASTER_IMAGE, m.image);
    var replicas := RoleReplicas(configs, KEY_MASTER_REPLICAS, m.replicas);
    var template := SetIfPresent(configs, KEY_MASTER_POD_TEMPLATE, m.podTemplate);
    var resources := ApplyRoleResources(m.resources, MASTER_DEFAULT_RESOURCES, Lookup(configs, KEY_MASTER_MEMORY));
    var selector, labels, annotations, account := ApplyRoleMaps(configs,
      KEY_MASTER_NODE_SELECTOR, KEY_MASTER_LABELS, KEY_MASTER_ANNOTATIONS, KEY_MASTER_SERVICE_ACCOUNT,
      m.nodeSelector, m.labels, m.annotations, m.serviceAccount);
    var dns := SetIfPresent(configs, KEY_POD_DNS_POLICY, m.dnsPolicy);
    var priority := RolePriority(configs, KEY_MASTER_PRIORITY, m.priorityClass);
    m' := MasterConfig(replicas, image, Some(resources), selector, m.affinity, template, m.gracefulShutdown,
                       labels, annotations, m.tolerations, account, env, dns, priority);
  }

  /** The worker half of lines 20-323. */
  method ApplyWorkerOverrides(configs: map<string, string>, w: WorkerConfig, env: StringMap)
    returns (w': WorkerConfig)
    ensures WorkerOverridden(configs, w, w') && w'.envVars == env
  {
    var image := RoleImage(configs, KEY_WORKER_IMAGE, w.image);
    var replicas := RoleReplicas(configs, KEY_WORKER_REPLICAS, w.replicas);
    var storageClass := SetIfPresent(configs, KEY_WORKER_STORAGE_CLASS, w.storageClass);
    var template := SetIfPresent(configs, KEY_WORKER_POD_TEMPLATE, w.podTemplate);
    var resources := ApplyRoleResources(w.resources, WORKER_DEFAULT_RESOURCES, Lookup(configs, KEY_WORKER_MEMORY));
    var selector, labels, annotations, account := ApplyRoleMaps(configs,
      KEY_WORKER_NODE_SELECTOR, KEY_WORKER_LABELS, KEY_WORKER_ANNOTATIONS, KEY_WORKER_SERVICE_ACCOUNT,
      w.nodeSelector, w.labels, w.annotations, w.serviceAccount);
    var dns := SetIfPresent(configs, KEY_POD_DNS_POLICY, w.dnsPolicy);
    var priority := RolePriority(configs, KEY_WORKER_PRIORITY, w.priorityClass);
    w' := WorkerConfig(replicas, image, Some(resources), selector, w.antiAffinity, template, storageClass,
                       w.gracefulShutdown, w.hostNetwork, w.initContainer, w.hostPathStorage,
                       labels, annotations, w.tolerations, account, env, dns, priority);
  }

  /** Lines 126-130 and 325-336: service type (skipped silently when it
      does not parse), annotations (merged) and external IPs. */
  method ApplyServiceOverrides(configs: map<string, string>, s: ServiceConfig) returns (s': ServiceConfig)
    ensures ServiceOverridden(configs, s, s')
  {
    var serviceType := s.serviceType;
    if KEY_SERVICE_TYPE in configs {
      match ParseServiceType(configs[KEY_SERVICE_TYPE]) {
        case Ok(st) => serviceType := st;
        case Err(_) =>
      }
    }
    var annotations := s.annotations;
    if KEY_SERVICE_ANNOTATIONS in configs {
      var parsed := ParseKeyValuePairs(configs[KEY_SERVICE_ANNOTATIONS]);
      annotations := annotations + parsed;
    }
    var externalIps := s.externalIps;
    if KEY_SERVICE_EXTERNAL_IPS in configs {
      externalIps := TrimmedPieces(configs[KEY_SERVICE_EXTERNAL_IPS]);
    }
    s' := ServiceConfig(serviceType, annotations, s.sessionAffinity, externalIps, s.loadBalancerSourceRanges);
  }

  /** What the overrides make of a whole configuration: each part as
      above, the env vars overlaid with the env keys, the pull policy and
      cluster domain replaced by their keys, and the identity fields kept. */
  predicate KubeConfigOverridden(configs: map<string, string>, kc: KubernetesConfig, r: KubernetesConfig) {
    && MasterOverridden(configs, kc.master, r.master)
    && r.master.envVars == kc.master.envVars + EnvOverrides(configs, MASTER_ENV_PREFIX, configs.Keys)
    && WorkerOverridden(configs, kc.worker, r.worker)
    && r.worker.envVars == kc.worker.envVars + EnvOverrides(configs, WORKER_ENV_PREFIX, configs.Keys)
    && StorageOverridden(configs, kc.storage, r.storage)
    && ServiceOverridden(configs, kc.service, r.service)
    && r.imagePullPolicy == Lookup(configs, KEY_PULL_POLICY).GetOr(kc.imagePullPolicy)
    && r.clusterDomain == Lookup(configs, KEY_CLUSTER_DOMAIN).GetOr(kc.clusterDomain)
    && r.clusterId == kc.clusterId && r.namespace == kc.namespace && r.imagePullSecrets == kc.imagePullSecrets
  }

  /** `apply_to_kube_config`: every key of the table applied to the
      configuration; the CPU keys are not modelled. */
  method ApplyToKubeConfig(configs: map<string, string>, kc: KubernetesConfig) returns (r: KubernetesConfig)
    ensures KubeConfigOverridden(configs, kc, r)
  {
    var policy := ReplaceIfPresent(configs, KEY_PULL_POLICY, kc.imagePullPolicy);
    var domain := ReplaceIfPresent(configs, KEY_CLUSTER_DOMAIN, kc.clusterDomain);
    var storage := ApplyStorage(configs, kc.storage);
    var masterEnv, workerEnv := ApplyEnv(configs, kc.master.envVars, kc.worker.envVars);
    var m := ApplyMasterOverrides(configs, kc.master, masterEnv);
    var w := ApplyWorkerOverrides(configs, kc.worker, workerEnv);
    var service := ApplyServiceOverrides(configs, kc.service);
    r := KubernetesConfig(kc.clusterId, kc.namespace, m, w, service, storage, policy, kc.imagePullSecrets, domain);
  }
}
