# curvine-kube resource composition, modelled in Dafny

This project models the core of curvine-kube: the engine behind the
`cv k8s` command that deploys, updates, lists, reports and deletes Curvine
clusters on Kubernetes. It covers the following stages:

- **Configuration.** The cluster configuration file is built and rendered
  (`curvine.rs`), and the Kubernetes-side settings are held in
  `kubernetes.rs`. Command-line `key=value` overrides are applied on top of
  both (`dynamic.rs`, `k8s.rs`).
- **Validation.** `validator.rs` checks the resolved settings.
- **Manifests.** The manifests are composed from them: the cluster
  ConfigMap, the master and worker StatefulSets, the master Service and the
  headless Service. These use the label, lifecycle and environment
  builders, and the user's pod template is merged in field by field
  (`merger.rs`, `template.rs`, `template_utils.rs`).
- **Orchestration.** `descriptor.rs` orchestrates the cluster:
  - it applies the ConfigMap first and makes it the controlling owner of
    every other object through owner references;
  - it applies the rest;
  - it waits for readiness by polling pods and replica counts;
  - it reports status, lists clusters and deletes them.
- **Platform client.** The client (`client.rs`) is modelled as a class
  `KubeStore.Store`. Its fields are maps from object name to object, one per
  kind, in one namespace. Its methods create or patch, guard claim
  templates, keep assigned cluster IPs, and delete on a best-effort basis.

Modules follow the source files: one module per core file, plus
`Wrappers` (Option/Result), `Strings` (trimming, splitting, ASCII case,
decimal printing and parsing), `K8s` (the Kubernetes object records the
core reads and writes) and `Constants`. Pure code is modelled as functions
and lemmas. Code that updates state or loops is modelled as methods with
loop invariants, each proved against a specification function.

## Model

| member | source | states |
|---|---|---|
| ManifestCommon.OwnerReferences | src/infrastructure/kubernetes/resources/statefulset/master.rs:122-135 | With no uid there is no owner reference; with one there is exactly one, to the ConfigMap `{id}-config` (v1), carrying that uid and marked as controller and as blocking the owner's deletion |
| ManifestCommon.ConfigMountMatchesVolume | src/infrastructure/kubernetes/resources/statefulset/master.rs:268-317 | The configuration mount names the configuration volume; the volume projects one key of the ConfigMap `{id}-config`; the mount's sub-path is that key's path and its mount path ends in the configuration file name |
| ManifestCommon.FallbackClass | src/infrastructure/kubernetes/resources/statefulset/master.rs:339-347 | A role's own storage class wins; without one the shared class is used, and no class is set exactly when the shared class is empty |
| ManifestCommon.LoadTemplate | src/infrastructure/kubernetes/resources/statefulset/master.rs:92-99 | No template path means no template; with a path the loader's error propagates unchanged, else its pod is the template |
| Labels.ResourceLabels | src/infrastructure/kubernetes/resources/pod/builders/traits.rs:22-28 | Exactly the keys app, component and type, holding the cluster id, the component and the fixed type value |
| Labels.SelectorLabels | src/infrastructure/kubernetes/resources/pod/builders/traits.rs:30-35 | Exactly the keys app and component |
| Labels.SelectorWithinLabels | src/infrastructure/kubernetes/resources/pod/builders/traits.rs:22-35 | The selector is the resource labels without the type key, so every object labelled by a builder is matched by its selector |
| Labels.SelectorsDistinguish | src/infrastructure/kubernetes/resources/pod/builders/traits.rs:30-35 | Two selectors are equal if and only if they are for the same cluster and the same component |
| PodLifecycle.GracefulShutdown | src/infrastructure/kubernetes/resources/pod/builders/lifecycle.rs:20-43 | No lifecycle hook exactly when graceful shutdown is off; otherwise only a pre-stop hook of three command words |
| PodLifecycle.GracefulShutdownCommand | src/infrastructure/kubernetes/resources/pod/builders/lifecycle.rs:20-50 | The hook runs `/bin/sh -c`, its script sleeps the delay first and ends with `stop \|\| true`; the default hook is the one with the default delay |
| EnvBuilder.WithCustomVars | src/infrastructure/kubernetes/resources/pod/builders/env.rs:48-51 | The custom variables become the union of the old and new maps, new entries winning and old ones otherwise kept; nothing else in the builder changes |
| EnvBuilder.CustomEnvVars | src/infrastructure/kubernetes/resources/pod/builders/env.rs:189-198 | One variable per entry of the map, in the given iteration order |
| EnvBuilder.BuildLayout | src/infrastructure/kubernetes/resources/pod/builders/env.rs:53-117 | The variables are the four base ones, then the three Kubernetes ones, then the component's (two for a master, three for a worker, none otherwise), then the custom ones |
| EnvBuilder.CustomVarsExactlyOnce | src/infrastructure/kubernetes/resources/pod/builders/env.rs:189-198 | Every custom entry appears as a literal variable, no name appears twice, and nothing else appears |
| EnvBuilder.WorkerFindsFirstMaster | src/infrastructure/kubernetes/resources/pod/builders/env.rs:119-187 | A worker's master hostname is the stable name of master pod 0; a master's is its own pod name under the same master service, namespace and domain |
| TemplateUtils.ByteUnitIsLargest | src/infrastructure/kubernetes/resources/pod/template_utils.rs:97-114 | The unit chosen is the largest power of 1024 (up to Ti) not above the value, so the printed quotient is at least 1 and, below Ti, under 1024 |
| TemplateUtils.FormatBytesTruncates | src/infrastructure/kubernetes/resources/pod/template_utils.rs:97-114 | The printed number is the floor of the value divided by the unit |
| TemplateUtils.CheckTemplate | src/infrastructure/kubernetes/resources/pod/template_utils.rs:49-80 | A pod without a spec is a configuration error; one without a container of the expected name is a validation error listing the names found; otherwise the pod is split around that container |
| TemplateUtils.CheckedTemplateMain | src/infrastructure/kubernetes/resources/pod/template_utils.rs:57-80 | After the check, the main container taken out is one of the template's containers and has the expected name |
| TemplateUtils.ResolvePodTemplatePath | src/infrastructure/kubernetes/resources/pod/template_utils.rs:83-95 | An absolute path is kept as it is; a relative one is resolved by the given outcome, whose failure is a configuration error |
| PodTemplate.NewCurvinePod | src/infrastructure/kubernetes/resources/pod/template.rs:24-52 | The loop yields the pod without the main container and the last container of that name, or a default one named after it |
| PodTemplate.OthersContents | src/infrastructure/kubernetes/resources/pod/template.rs:29-35 | The remaining containers are exactly the pod's containers not bearing the main name |
| PodTemplate.OthersUnnamed | src/infrastructure/kubernetes/resources/pod/template.rs:29-35 | When no container bears the main name, the containers are kept unchanged |
| PodTemplate.LastNamedIsLast | src/infrastructure/kubernetes/resources/pod/template.rs:29-35 | The main container found is the last one bearing the name, and there is none exactly when no container bears it |
| PodTemplate.NewCurvinePodShape | src/infrastructure/kubernetes/resources/pod/template.rs:24-52 | The split pod always has a spec (the default one when the pod had none), keeps the pod's metadata, holds no container with the main name, and the main container bears the name |
| PodTemplate.SplitThenBuild | src/infrastructure/kubernetes/resources/pod/template.rs:24-77 | Splitting a pod whose main container is its last and only one of that name, then rebuilding it, gives back the pod |
| PodTemplate.BuildThenSplit | src/infrastructure/kubernetes/resources/pod/template.rs:24-77 | Rebuilding a split pod and splitting it again gives back both halves |
| PodTemplate.NewBuilder | src/infrastructure/kubernetes/resources/pod/template.rs:96-109 | A new builder starts from an empty pod and the default container |
| PodTemplate.BuilderProperties | src/infrastructure/kubernetes/resources/pod/template.rs:81-147 | Each builder setter replaces only its own half; building from a split pod gives it back; an empty builder builds a default spec and container |
| CurvineConf.FromStrName | src/domain/config/curvine.rs:117-126 | The tier is the one whose name equals the lower-cased input whenever there is one, and Disk otherwise |
| CurvineConf.FromStrNameTierName | src/domain/config/curvine.rs:117-126 | Reading back a tier's own name gives that tier |
| CurvineConf.FromStrNameIgnoresCase | src/domain/config/curvine.rs:117-126 | Upper-casing the input does not change the tier it names |
| CurvineConf.SizeUnit | src/domain/config/curvine.rs:673-685 | The number part is a prefix of the upper-cased text and the unit is 1 TiB, 1 GiB, 1 MiB, 1 KiB or 1 |
| CurvineConf.ParseSizeStringAsWritten | src/domain/config/curvine.rs:670-693 | The size as the code computes it: a 64-bit unsigned product, so every result is below 2^64 |
| CurvineConf.ParseSizeString | src/domain/config/curvine.rs:670-693 | The size with an overflowing product rejected; whenever it succeeds it agrees with the code as written |
| CurvineConf.ParseSizeOfSpelling | src/domain/config/curvine.rs:670-693 | Digits followed by a unit spelled in any letter case parse to the number times the unit when that fits in 64 bits, fail otherwise, and wrap modulo 2^64 as written |
| CurvineConf.ParseSizeOfNumberAndUnit | src/domain/config/curvine.rs:670-693 | A printed number followed by an upper- or lower-case unit parses to the number times the unit |
| CurvineConf.SizeOverflowWrapsToZero | src/domain/config/curvine.rs:692 | `16777216TB` is 2^64 bytes: the code as written returns 0, the corrected parse rejects it |
| CurvineConf.ParseSizeRejectsOutOfRange | src/domain/config/curvine.rs:687-690 | A digit string whose value is 2^64 or more, followed by a unit in any letter case, is rejected by both parses before any multiplication |
| CurvineConf.ParseSizeOfPrinted | src/domain/config/curvine.rs:670-693 | A printed 64-bit value parses back to itself |
| CurvineConf.MatchBracketed | src/domain/config/curvine.rs:141-152 | A match splits the text into a bracketed prefix and the path after it |
| CurvineConf.MatchBracketedOf | src/domain/config/curvine.rs:141-152 | A bracketed prefix of word characters and colons followed by a non-empty single-line path is matched with exactly that prefix and path |
| CurvineConf.ParseDataDir | src/domain/config/curvine.rs:138-185 | Every parsed capacity fits in 64 bits |
| CurvineConf.ParseDataDirUnbracketed | src/domain/config/curvine.rs:142-151 | Text that does not match the pattern is a Disk directory of capacity 0 at that very path |
| CurvineConf.ParseDataDirEmptyPrefix | src/domain/config/curvine.rs:157-163 | An empty prefix gives a Disk directory of capacity 0 whose path keeps the brackets |
| CurvineConf.ParseDataDirTierAndCapacity | src/domain/config/curvine.rs:173-184 | `[tier:capacity]path` gives that tier, the parsed capacity and the path, or fails exactly when the capacity does not parse |
| CurvineConf.ParseDataDirTierOnly | src/domain/config/curvine.rs:165-168 | An alphabetic prefix alone is a tier with capacity 0 |
| CurvineConf.ParseDataDirCapacityOnly | src/domain/config/curvine.rs:169-172 | A non-alphabetic prefix alone is a Disk capacity, failing when it does not parse |
| CurvineConf.ParseDataDirTooManyParts | src/domain/config/curvine.rs:176-177 | A prefix of three or more colon-separated parts is rejected |
| CurvineConf.ParseFormatDataDir | src/domain/config/curvine.rs:138-185 | Printing a directory as `[tier:capacity]path` and parsing it gives the directory back |
| KubeConfig.ParseServiceType | src/domain/config/kubernetes.rs:105-115 | A parsed service type prints back to the input; anything else is a configuration error naming the input |
| KubeConfig.ServiceTypeRoundTrip | src/domain/config/kubernetes.rs:93-115 | Parsing a type's name gives the type; a text that is no type's name is rejected |
| KubeConfig.ValidK8sNameIff | src/domain/config/kubernetes.rs:240-254 | A valid name has 1 to 253 characters, all lower-case letters, digits or dashes, and neither starts nor ends with a dash |
| KubeConfig.Validate | src/domain/config/kubernetes.rs:195-237 | Every rejection is a configuration error |
| KubeConfig.ValidateOkIff | src/domain/config/kubernetes.rs:195-237 | The configuration passes exactly when the cluster id is a valid name of at most 45 characters, the master count is odd, there is a worker and the pull policy is Always, IfNotPresent or Never |
| KubeConfig.ValidateReportsFirstFailure | src/domain/config/kubernetes.rs:195-237 | The error reported is the one of the first check, in source order, that fails |
| KubeConfig.ResolvePath | src/domain/config/kubernetes.rs:185-191 | The result is absolute; an absolute path is kept and a relative one is put under the installation directory |
| KubeConfig.ResolvePathIdempotent | src/domain/config/kubernetes.rs:185-191 | Resolving twice is resolving once |
| KubeConfig.MasterHostnames | src/domain/config/kubernetes.rs:140-183 | One stable hostname per master replica, the i-th being master pod i's |
| KubeConfig.MasterHostnameInjective | src/domain/config/kubernetes.rs:140-183 | Distinct master ordinals give distinct hostnames |
| KubeConfig.BuildClusterSideConfig | src/domain/config/kubernetes.rs:140-183 | The journal peers and client master addresses have one entry per master replica: peer i has id i+1, master i's hostname and the journal port, address i the same hostname and the RPC port; the rest of the configuration is kept |
| KubeConfig.ClusterSidePeersDistinct | src/domain/config/kubernetes.rs:140-183 | Distinct peers have distinct ids and hostnames, and peer i and client address i name the same host |
| Validator.CheckDataDir | src/domain/cluster/validator.rs:94-117 | One worker data directory is rejected exactly when it does not parse, or when it is a memory-tier directory whose capacity is below the block size; otherwise it passes |
| Validator.ValidateWorkerMemSize | src/domain/cluster/validator.rs:86-120 | The method's loop returns the first failing directory's error, or the block-size error, and otherwise Ok, agreeing with the specification function for every configuration |
| Validator.WorkerMemSizeOk | src/domain/cluster/validator.rs:86-120 | The check passes exactly when the block size resolves and every data directory parses without a too-small memory tier; on failure the reported error belongs to the first failing directory |
| Validator.BlockSizeChoice | src/domain/cluster/validator.rs:87-92 | A positive numeric block size is used as is; otherwise the textual block size is parsed, and a parse error becomes the check's error |
| Validator.ProbeChoice | src/domain/cluster/validator.rs:29-56 | Without storage nothing is probed; an update probes only the shared class; a deployment probes the master's own class when set and non-empty, else the shared class, and then the worker's |
| Validator.ProbeAllOk | src/domain/cluster/validator.rs:128-160 | Probing a list of StorageClass names succeeds exactly when every name is among the cluster's classes |
| Validator.ValidateDeploymentOk | src/domain/cluster/validator.rs:29-56 | A deployment passes exactly when the worker memory check passes and every probed StorageClass exists |
| Validator.ValidateUpdateOrder | src/domain/cluster/validator.rs:58-84 | An invalid pull policy is reported first, then a zero worker replica count; past those an update passes exactly when there is no storage or its class exists; master settings do not affect the outcome |
| Validator.GetDefaultStorageClass | src/domain/cluster/validator.rs:184-212 | The scan returns the name of the first StorageClass marked default, or none |
| Validator.DefaultClassNameIsFirst | src/domain/cluster/validator.rs:193-207 | With no default class the result is none; otherwise it is the name of the first class carrying the default annotation |
| DynamicConfig.ParseKeyValuePairs | src/domain/config/dynamic.rs:339-348 | The loop over comma-separated pieces builds exactly the map the specification function gives: each piece holding an '=' adds its trimmed key and value, later pieces overwriting earlier ones |
| DynamicConfig.KeyValuePairsDomain | src/domain/config/dynamic.rs:339-348 | A key is in the parsed map exactly when some piece of the input splits at its first '=' into that (trimmed) key |
| DynamicConfig.KeyValuePairsLastWins | src/domain/config/dynamic.rs:339-348 | The value stored for a key is the one given by the last piece that defines that key |
| DynamicConfig.PairOfPiece | src/domain/config/dynamic.rs:341-345 | A piece without '=' contributes nothing; a piece with one splits at its first '=', the key holding no '=' and both halves trimmed |
| DynamicConfig.ReplicasAfter | src/domain/config/dynamic.rs:41-52 | A replica key changes the count only when its value parses as a u32 (the new count is below 2^32); any other value, or no key, keeps the current count |
| DynamicConfig.ApplyStorage | src/domain/config/dynamic.rs:53-112 | A storage section exists afterwards exactly when one existed or some storage key is given; the class key replaces the class (a new section defaults to "standard"); the role size keys set their sizes and the shared size key fills only sizes still absent; the role classes stay |
| DynamicConfig.ApplyRoleResources | src/domain/config/dynamic.rs:176-200 | Without a memory key the resources are the existing ones or the role defaults; with one, both the requests and the limits hold that memory and keep every other entry |
| DynamicConfig.ApplyEnv | src/domain/config/dynamic.rs:290-305 | Each role's env vars are overlaid with every key under that role's env prefix, the prefix stripped and the value kept |
| DynamicConfig.EnvOverridesIff | src/domain/config/dynamic.rs:290-305 | A name is overridden exactly when the prefixed key is given, and then it takes that key's value |
| DynamicConfig.TrimmedPieces | src/domain/config/dynamic.rs:330-336 | The external IPs are the comma-separated pieces of the value, as many as there are pieces (at least one), each trimmed and comma-free |
| DynamicConfig.RoleImage | src/domain/config/dynamic.rs:20-32 | A role image key beats the shared container image key, which beats the existing image |
| DynamicConfig.RoleReplicas | src/domain/config/dynamic.rs:41-52 | The role's replica count becomes the count the replica key gives, per ReplicasAfter |
| DynamicConfig.RolePriority | src/domain/config/dynamic.rs:312-323 | A role priority key beats the pod-wide priority key, which beats the existing priority class |
| DynamicConfig.ApplyMasterOverrides | src/domain/config/dynamic.rs:20-323 | The master settings after the override: image, replicas, memory, node selector (only when it parses non-empty), labels and annotations merged, template, service account, DNS policy and priority, and every field no key names unchanged |
| DynamicConfig.ApplyWorkerOverrides | src/domain/config/dynamic.rs:20-323 | The same for the worker, which also takes its own storage class key |
| DynamicConfig.ApplyServiceOverrides | src/domain/config/dynamic.rs:126-336 | A service type key changes the type only when it names a known type; the annotations key merges into the annotations, the external-IPs key replaces the list, and the other service fields stay |
| DynamicConfig.ApplyToKubeConfig | src/domain/config/dynamic.rs:19-337 | The whole configuration after the overrides: each part as above, the pull policy and cluster domain replaced by their keys, and cluster id, namespace and pull secrets kept |
| Cli.ParseDynamicConfigs | src/cli/k8s.rs:786-809 | The loop over the --config arguments yields exactly the map (or first error) the specification function gives |
| Cli.ConfigEntrySplit | src/cli/k8s.rs:786-809 | An argument without '=' is an invalid-format error; otherwise it splits at its first '=', a blank trimmed key is an empty-key error, and else the trimmed key and value are accepted |
| Cli.InsertAllOk | src/cli/k8s.rs:786-809 | Collecting entries succeeds exactly when every entry is accepted, and then the map is the entries inserted in order |
| Cli.InsertAllFirstError | src/cli/k8s.rs:786-809 | A failed collection reports the error of the first rejected entry, every entry before it being accepted |
| Cli.DynamicConfigsOk | src/cli/k8s.rs:786-809 | Parsing the --config arguments succeeds exactly when every argument is a valid key=value pair |
| Cli.DynamicConfigsFirstError | src/cli/k8s.rs:786-809 | A failed parse reports the first invalid argument's error |
| Cli.DynamicConfigsKeys | src/cli/k8s.rs:786-809 | A key is in the parsed map exactly when some argument defines it, and it holds the value of the last argument defining it |
| Cli.DeploySpecErrors | src/cli/k8s.rs:216-243 | Deploy fails with a missing-cluster-id error when neither the command line nor the file gives one; otherwise it fails exactly when the chosen service type name (command line, else file, else default) names no service type |
| Cli.DeployIdentity | src/cli/k8s.rs:216-236 | The cluster id comes from the command line, else the file; a namespace other than "" and "default" on the command line wins, else the file's namespace is used |
| Cli.DeployPlaceholders | src/cli/k8s.rs:245-294 | A command-line value different from its default (3 replicas, the default image) wins; a default value yields to the file's setting, and without a file the default stays |
| Cli.DeployStoragePresence | src/cli/k8s.rs:295-320 | A storage section exists exactly when some class or size is given on the command line or in the file, and its class and sizes follow the command line first, then the file |
| Cli.Deploy | src/cli/k8s.rs:186-406 | Deploy reports the --config error first, then the argument error; otherwise it returns the configuration built from the arguments with the dynamic overrides applied |
| Cli.UpdateSpecErrors | src/cli/k8s.rs:496-522 | Update fails with a missing-cluster-id error without a cluster id; otherwise it fails exactly when a service type name is given (command line, else file) and names no service type |
| Cli.UpdateCounts | src/cli/k8s.rs:524-600 | The master replica count always comes from the file (1 without one); the worker count from the command line, else the file, else 3; the storage section and the worker class come from the file's storage |
| Cli.Update | src/cli/k8s.rs:437-642 | Asking to change the master replicas is refused before anything else; then the --config error, then the argument error; otherwise the configuration built with the overrides applied |
| PodMerger.MergedLabelsWin | src/infrastructure/kubernetes/resources/pod/merger.rs:50-57 | After the merge every builder label holds the builder's value, every other template label keeps its value, and no other key appears |
| PodMerger.MergeVolumes | src/infrastructure/kubernetes/resources/pod/merger.rs:60-73 | The loop keeps the template's volumes and appends, in order, the builder volumes whose names the template does not use |
| PodMerger.NewVolumesContents | src/infrastructure/kubernetes/resources/pod/merger.rs:66-73 | A builder volume is appended exactly when its name is not among the template's volume names |
| PodMerger.MergeMounts | src/infrastructure/kubernetes/resources/pod/merger.rs:75-90 | The loop keeps the template's mounts and appends, in order, the builder mounts whose paths the template does not use |
| PodMerger.NewMountsContents | src/infrastructure/kubernetes/resources/pod/merger.rs:83-90 | A builder mount is appended exactly when its mount path is not among the template's mount paths |
| PodMerger.ValidateVolumeMounts | src/infrastructure/kubernetes/resources/pod/merger.rs:177-221 | The check's loop returns exactly the first error the specification function gives over the template's mounts |
| PodMerger.ExpectedPathIsLast | src/infrastructure/kubernetes/resources/pod/merger.rs:177-221 | The expected path for a mount name is that of the last builder mount with that name |
| PodMerger.MountsValidIff | src/infrastructure/kubernetes/resources/pod/merger.rs:177-221 | Validation passes exactly when every template mount whose name the builder also mounts uses the builder's path; on failure the message names such a mismatching mount, its path and the expected one |
| PodMerger.MergeEnv | src/infrastructure/kubernetes/resources/pod/merger.rs:92-114 | The env loop computes the specification function over the builder's variables |
| PodMerger.MergedEnvLayout | src/infrastructure/kubernetes/resources/pod/merger.rs:92-114 | The merged env is the template's variables in order, each of whose first occurrence takes the last builder variable of that name, followed by the builder variables whose names the template lacks |
| PodMerger.FilledKeepsTemplate | src/infrastructure/kubernetes/resources/pod/merger.rs:119-150 | Working dir, args, probes and lifecycle come from the builder container only where the template leaves them unset; resources only where the template has none or an empty set |
| PodMerger.MergeWithTemplateImpl | src/infrastructure/kubernetes/resources/pod/merger.rs:40-161 | The method builds exactly the merged pod of the specification function |
| PodMerger.ApplyBuilderOnlySetsVolumes | src/infrastructure/kubernetes/resources/pod/merger.rs:163-175 | Without a template only the pod's volumes and the first container's mounts are replaced; every other container and field is kept |
| PodMerger.MergePodLabels | src/infrastructure/kubernetes/resources/pod/merger.rs:20-38 | With a template the pod's labels are the merged labels; without one the builder pod's metadata is kept |
| PodMerger.MergePodWithTemplate | src/infrastructure/kubernetes/resources/pod/merger.rs:20-38 | With a template the merge of the template is returned; without one the builder pod with its volumes and mounts applied |
| PodMerger.MergeWithTemplateShape | src/infrastructure/kubernetes/resources/pod/merger.rs:40-161 | The merge fails exactly when mount validation fails; on success the template's other containers come first and the main container last, with merged labels, volumes, mounts and env |
| MasterStatefulSet.MasterVolumes | src/infrastructure/kubernetes/resources/statefulset/master.rs:268-287 | The master pod has exactly one volume of its own: the configuration volume, backed by the ConfigMap `{id}-config` |
| MasterStatefulSet.MasterContainerShape | src/infrastructure/kubernetes/resources/statefulset/master.rs:173-222 | The master container: its name, args ["master"], working dir, image and pull policy from the configuration, a TCP liveness probe on the RPC port and no readiness probe, a lifecycle hook exactly when graceful shutdown is on, the configured resources, and four ports with distinct numbers and names, the RPC and journal ports first |
| MasterStatefulSet.MasterEnvLayout | src/infrastructure/kubernetes/resources/statefulset/master.rs:164-171 | The master env is the nine fixed variables followed by the custom variables, one per configured key |
| MasterStatefulSet.MasterPodLabelsWin | src/infrastructure/kubernetes/resources/statefulset/master.rs:224-263 | The pod labels are the selector labels overlaid with the configured labels; annotations and tolerations are set exactly when configured ones exist |
| MasterStatefulSet.MasterMountsShape | src/infrastructure/kubernetes/resources/statefulset/master.rs:289-325 | Three mounts: the configuration, then the meta and journal directories, writable, at the configured paths made absolute under the Curvine home |
| MasterStatefulSet.MasterClaimsShape | src/infrastructure/kubernetes/resources/statefulset/master.rs:327-402 | Two claim templates, meta and journal, with one shared spec: the default access mode and the master size (the role's size if set, else the default) |
| MasterStatefulSet.MasterMountsBacked | src/infrastructure/kubernetes/resources/statefulset/master.rs:268-402 | Every master mount is backed by a pod volume or a claim template, and no claim template reuses a volume's name |
| MasterStatefulSet.BuildWithOwnerErrors | src/infrastructure/kubernetes/resources/statefulset/master.rs:91-113 | Without a template the build succeeds; a template load error propagates unchanged; with a template the build fails exactly when its mounts clash with the master's |
| MasterStatefulSet.BuildWithOwnerPod | src/infrastructure/kubernetes/resources/statefulset/master.rs:91-113 | A successful build merges the loaded template (if any) with the base pod, the master's volumes, mounts and labels |
| MasterStatefulSet.BuildWithOwnerShape | src/infrastructure/kubernetes/resources/statefulset/master.rs:115-160 | The StatefulSet `{id}-master` in the cluster namespace, with the resource labels and the owner reference; replicas are left unset exactly in update mode, and otherwise the configured count |
| MasterStatefulSet.BuildWithoutTemplate | src/infrastructure/kubernetes/resources/statefulset/master.rs:91-161 | Without a template the pod has just the configuration volume and one master container carrying the master's mounts |
| MasterStatefulSet.BuiltPodLabels | src/infrastructure/kubernetes/resources/statefulset/master.rs:107-150 | The pod template's labels are the template's labels overlaid with the resource labels, or without a template the master pod labels |
| MasterStatefulSet.SelectorMatchesPods | src/infrastructure/kubernetes/resources/statefulset/master.rs:145-152 | The StatefulSet's selector matches the labels of the pods it creates, provided the configured labels do not override the app and component keys when no template is used |
| WorkerStatefulSet.ParseDataDirs | src/infrastructure/kubernetes/resources/statefulset/worker.rs:258-273 | The loop parses every data directory in order, stopping at the first failure, as the specification function does |
| WorkerStatefulSet.ParsedDirsOk | src/infrastructure/kubernetes/resources/statefulset/worker.rs:258-273 | Parsing succeeds exactly when every directory parses, and the i-th parsed directory is the i-th input's parse |
| WorkerStatefulSet.ParsedDirsFirstError | src/infrastructure/kubernetes/resources/statefulset/worker.rs:258-273 | A failed parse reports the first malformed directory with its own parse error, every earlier directory parsing |
| WorkerStatefulSet.BuildClaimTemplates | src/infrastructure/kubernetes/resources/statefulset/worker.rs:275-336 | The claim-template method returns the specification function's templates |
| WorkerStatefulSet.WorkerClaimsContents | src/infrastructure/kubernetes/resources/statefulset/worker.rs:279-300 | Every non-memory data directory i gets a claim template `data-dir-i` of the worker size and class and nothing else does; there are none exactly when every directory is a memory tier |
| WorkerStatefulSet.DataVolume | src/infrastructure/kubernetes/resources/statefulset/worker.rs:359-405 | A host path configured for the directory's path wins; otherwise only a memory tier gets a volume, an in-memory emptyDir whose size limit is set exactly when the capacity is positive |
| WorkerStatefulSet.BuildVolumes | src/infrastructure/kubernetes/resources/statefulset/worker.rs:338-407 | The volume method returns the configuration volume followed by the data volumes |
| WorkerStatefulSet.DataVolumesContents | src/infrastructure/kubernetes/resources/statefulset/worker.rs:359-405 | The data volumes are exactly the volumes the directories produce |
| WorkerStatefulSet.BuildMounts | src/infrastructure/kubernetes/resources/statefulset/worker.rs:409-435 | The mount method returns the configuration mount followed by one mount per data directory |
| WorkerStatefulSet.DataMountsAt | src/infrastructure/kubernetes/resources/statefulset/worker.rs:423-433 | The i-th data mount belongs to the i-th data directory |
| WorkerStatefulSet.DataMountsBacked | src/infrastructure/kubernetes/resources/statefulset/worker.rs:338-435 | Each data mount `data-dir-i` is backed by a pod volume or a claim template; a host-path disk directory gets both |
| WorkerStatefulSet.MountsNameVolumesOrClaims | src/infrastructure/kubernetes/resources/statefulset/worker.rs:275-435 | Every worker mount, the configuration mount included, names a pod volume or a claim template |
| WorkerStatefulSet.WorkerMountsBacked | src/infrastructure/kubernetes/resources/statefulset/worker.rs:275-435 | With parseable data directories the mounts, volumes and claims all build, there is one mount per directory plus the configuration mount, and every mount is backed |
| WorkerStatefulSet.WorkerAffinity | src/infrastructure/kubernetes/resources/statefulset/worker.rs:453-488 | Anti-affinity is set exactly when configured |
| WorkerStatefulSet.AffinityMatchesWorkers | src/infrastructure/kubernetes/resources/statefulset/worker.rs:453-488 | The preferred anti-affinity (weight 100, per host) matches exactly the worker selector labels, each with the In operator and the label's value |
| WorkerStatefulSet.WorkerInitContainers | src/infrastructure/kubernetes/resources/statefulset/worker.rs:491-512 | An init container exists exactly when configured, one container on the fixed wait image |
| WorkerStatefulSet.InitContainerWaitsForMaster | src/infrastructure/kubernetes/resources/statefulset/worker.rs:491-512 | The init container's shell loop waits until the master's headless service name answers on the master RPC port |
| WorkerStatefulSet.WorkerDnsPolicy | src/infrastructure/kubernetes/resources/statefulset/worker.rs:215-221 | A configured DNS policy wins; otherwise host networking implies ClusterFirstWithHostNet and no policy is set without it |
| WorkerStatefulSet.BaseWorkerPodShape | src/infrastructure/kubernetes/resources/statefulset/worker.rs:158-256 | The worker container runs privileged as "worker" with its ports and no probes, a lifecycle hook exactly when graceful shutdown is on; the pod carries host networking, the DNS policy, init containers and affinity as configured, and labels overlaid as for the master |
| WorkerStatefulSet.BuildWithOwner | src/infrastructure/kubernetes/resources/statefulset/worker.rs:85-156 | The method builds exactly the specification function's StatefulSet |
| WorkerStatefulSet.WorkerBuildErrors | src/infrastructure/kubernetes/resources/statefulset/worker.rs:85-156 | A template load error propagates unchanged; a malformed data directory is reported next; with no template and valid directories the build succeeds |
| WorkerStatefulSet.WorkerBuildShape | src/infrastructure/kubernetes/resources/statefulset/worker.rs:85-156 | The StatefulSet `{id}-worker` with the resource labels, the owner reference, the configured replicas, the worker selector, and claim templates absent exactly when every data directory is a memory tier |
| MasterService.NewServiceBuilder | src/infrastructure/kubernetes/resources/service.rs:43-58 | A new builder keeps the cluster id, namespace, type and annotations, with no session affinity, external IPs or source ranges |
| MasterService.CreateServicePort | src/infrastructure/kubernetes/resources/service.rs:159-167 | A TCP port with the given name and number whose target port is the same number |
| MasterService.ServiceLabels | src/infrastructure/kubernetes/resources/service.rs:169-175 | Exactly the app, component and type labels: the cluster id, "master" and the fixed type value |
| MasterService.BuildWithOwner | src/infrastructure/kubernetes/resources/service.rs:84-157 | The Service built from the builder with the four master ports followed by the worker port |
| MasterService.ServicePortsShape | src/infrastructure/kubernetes/resources/service.rs:87-91 | Five TCP ports, the master's RPC, journal, web and web1 ports then the worker's, with distinct numbers and names, each targeting itself |
| MasterService.ServiceShape | src/infrastructure/kubernetes/resources/service.rs:107-154 | The Service `{id}-master` selects the master pods, has the configured type, sets clusterIP "None" exactly when the type is not ClusterIP, sets annotations, external IPs and source ranges only when non-empty, and carries the owner reference |
| MasterService.ServiceSelectsMasters | src/infrastructure/kubernetes/resources/service.rs:93-95 | The selector is the master selector, and every label it selects on is one the Service itself carries with the same value |
| HeadlessService.HeadlessLabels | src/infrastructure/kubernetes/resources/headless_service.rs:102-109 | The resource labels of the master plus service-type "headless", and no other key |
| HeadlessService.HeadlessShape | src/infrastructure/kubernetes/resources/headless_service.rs:46-90 | The build always succeeds: the Service `{id}-master-headless`, ClusterIP type with clusterIP "None", publishing not-ready addresses, selecting the master pods, with the owner reference and the four master ports |
| HeadlessService.HeadlessMatchesService | src/infrastructure/kubernetes/resources/headless_service.rs:46-90 | The headless Service selects the same pods as the master Service under a different name, and exposes the master Service's first four ports |
| ConfigMapResource.SyntheticKubeConfig | src/infrastructure/kubernetes/resources/configmap.rs:66-125 | The configuration used to render the cluster file keeps the cluster id, namespace and master replica count, and fixes the cluster domain to cluster.local |
| ConfigMapResource.ConfigMapShape | src/infrastructure/kubernetes/resources/configmap.rs:44-64 | The ConfigMap `{id}-config` in the cluster namespace, labelled as the config component, holding one key, the cluster file, whose journal and client master lists hold one entry per master replica, numbered from 1 and naming that master's stable host |
| ConfigMapResource.ConfigMapFeedsVolume | src/infrastructure/kubernetes/resources/configmap.rs:44-64 | The configuration volume of the pods names this ConfigMap and projects a key it holds |
| ConfigMapResource.ConfigMapDomainIsFixed | src/infrastructure/kubernetes/resources/configmap.rs:120 | The first master address in the cluster file matches the worker's master hostname for a cluster domain exactly when that domain is cluster.local |
| KubeStore.ClaimChangeIff | src/infrastructure/kubernetes/client.rs:242-281 | Comparing one claim template with its replacement reports nothing exactly when they are compatible (same name; where both have specs, the same class, access modes and, where both have requests, storage size); otherwise it names the template index and one of the four fields |
| KubeStore.CheckClaimTemplates | src/infrastructure/kubernetes/client.rs:242-282 | The zipped loop reports the first template whose replacement changes a guarded field |
| KubeStore.TemplateGuardIff | src/infrastructure/kubernetes/client.rs:231-284 | An update passes the guard exactly when a spec or a template list is missing on either side, or both have the same number of templates, each compatible with its replacement; a refusal with equal counts names the first incompatible template |
| KubeStore.TemplateGuardAcceptsSame | src/infrastructure/kubernetes/client.rs:231-284 | Re-applying the same claim templates always passes the guard |
| KubeStore.PatchedService | src/infrastructure/kubernetes/client.rs:198-211 | A patched Service keeps the existing uid and, when both have a spec, the existing cluster IP and cluster IPs; the rest is the new Service |
| KubeStore.ClaimsLeft | src/infrastructure/kubernetes/client.rs:459-474 | After the cluster's claims are deleted, exactly the claims not labelled with the cluster id, or whose deletion was refused, remain, unchanged |
| KubeStore.Store.GetConfigMap | src/infrastructure/kubernetes/client.rs:373-386 | Found exactly when the name is stored, returning the stored ConfigMap; otherwise a NotFound error naming it |
| KubeStore.Store.GetStatefulSet | src/infrastructure/kubernetes/client.rs:328-341 | Found exactly when the name is stored, returning the stored StatefulSet; otherwise a NotFound error naming it |
| KubeStore.Store.GetService | src/infrastructure/kubernetes/client.rs:358-371 | Found exactly when the name is stored, returning the stored Service; otherwise a NotFound error naming it |
| KubeStore.Store.ApplyConfigMap | src/infrastructure/kubernetes/client.rs:162-186 | A nameless ConfigMap is refused; a refused write changes nothing; otherwise an existing ConfigMap is replaced keeping its uid and a new one is created with a fresh uid, no other object changing |
| KubeStore.Store.ApplyService | src/infrastructure/kubernetes/client.rs:188-220 | As for ConfigMaps, and a patch keeps the existing cluster IPs |
| KubeStore.Store.ApplyStatefulSet | src/infrastructure/kubernetes/client.rs:222-300 | A nameless StatefulSet is refused; replacing an existing one first runs the claim-template guard, whose refusal is returned with nothing changed; otherwise the StatefulSet is created with a fresh uid, or replaced keeping its uid and status |
| KubeStore.Store.DeleteStatefulSet | src/infrastructure/kubernetes/client.rs:419-425 | Succeeds exactly when the StatefulSet exists and the deletion is not refused, removing only it |
| KubeStore.Store.DeleteService | src/infrastructure/kubernetes/client.rs:435-441 | Succeeds exactly when the Service exists and the deletion is not refused, removing only it |
| KubeStore.Store.DeleteConfigMap | src/infrastructure/kubernetes/client.rs:443-449 | Succeeds exactly when the ConfigMap exists and the deletion is not refused, removing only it |
| KubeStore.Store.DeletePvcsForCluster | src/infrastructure/kubernetes/client.rs:459-474 | Always succeeds; the claims labelled with the cluster id are deleted, refusals ignored, and nothing else changes |
| KubeStore.Store.DeleteClusterObjects | src/infrastructure/kubernetes/client.rs:493-499 | The best-effort deletions remove both StatefulSets, both Services and the ConfigMap, except those whose deletion is refused, and leave the claims |
| KubeStore.Store.DeleteWithoutConfigMap | src/infrastructure/kubernetes/client.rs:483-499 | Without a ConfigMap the cleanup fails with NotFound, changing nothing, exactly when neither StatefulSet exists; otherwise the best-effort deletions run |
| KubeStore.Store.StopAndCleanupCluster | src/infrastructure/kubernetes/client.rs:476-509 | Nothing found is NotFound with nothing changed; an existing ConfigMap is the only object deleted and a refusal of that deletion is returned; without it the best-effort deletions run; on success the cluster's claims are deleted when asked |
| ClusterDescriptor.AsU32 | src/domain/cluster/descriptor.rs:350 | The cast of a reported i32 count to u32: a count in [0, 2^32) is kept, a negative i32 count becomes count + 2^32, and every result is below 2^32 and congruent to the count modulo 2^32 |
| ClusterDescriptor.PodFailureIff | src/domain/cluster/descriptor.rs:288-337 | A pod is reported as failing exactly when it has a status and some container waits in CrashLoopBackOff, ImagePullBackOff or ErrImagePull or has restarted more than 5 times, or its phase is Failed |
| ClusterDescriptor.ScanPods | src/domain/cluster/descriptor.rs:289-339 | The pod scan returns the first failure in pod order, container checks before the phase check, and returns none exactly when no pod is fatal |
| ClusterDescriptor.WaitForClusterReady | src/domain/cluster/descriptor.rs:273-398 | The loop over waited = 0, 5, …, 295 yields exactly the outcome the specification function gives for the sequence of checks it sees |
| ClusterDescriptor.WaitOkIff | src/domain/cluster/descriptor.rs:282-381 | The wait succeeds exactly when some check finds no fatal pod and finds the master and then the worker ready, every earlier check having found neither a fatal pod nor readiness |
| ClusterDescriptor.WaitTimesOut | src/domain/cluster/descriptor.rs:343-397 | When no check succeeds or finds a fatal pod, the wait ends in the timeout error, whose message carries the last master ready count read by any check and the last worker ready count read after a ready master (the starting values when none was read) |
| ClusterDescriptor.MasterCounts | src/domain/cluster/descriptor.rs:343-350 | One master ready count per check, as that check reads it |
| ClusterDescriptor.WorkerCounts | src/domain/cluster/descriptor.rs:352-360 | One worker ready count per check, read only when that check found the master ready |
| ClusterDescriptor.LastReportedNone | src/domain/cluster/descriptor.rs:350 | With no count read, the last-seen value stays at its starting value |
| ClusterDescriptor.LastReportedAt | src/domain/cluster/descriptor.rs:350 | The last-seen value is the u32 cast of the count at the last check that read one |
| ClusterDescriptor.LastReportedCons | src/domain/cluster/descriptor.rs:350 | Reading a count first and then the rest gives the same last-seen value as starting the rest from that count |
| ClusterDescriptor.WaitStopsAtFirstFailure | src/domain/cluster/descriptor.rs:284-340 | When the first eventful check finds a fatal pod, the wait returns that pod's error |
| ClusterDescriptor.NoPodScanBeforeThirtySeconds | src/domain/cluster/descriptor.rs:284 | No check in the first 30 seconds reports a pod failure |
| ClusterDescriptor.EarlyPodsIgnored | src/domain/cluster/descriptor.rs:284 | The pods seen in the first 30 seconds do not affect the outcome |
| ClusterDescriptor.ApplyConfigMapStep | src/domain/cluster/descriptor.rs:190-209 | The ConfigMap built for the cluster is applied and read back; the step succeeds with its uid exactly when the write is accepted and the stored ConfigMap has a uid, and otherwise reports the refusal or "ConfigMap UID not found"; nothing else is written |
| ClusterDescriptor.ApplyMasterStep | src/domain/cluster/descriptor.rs:211-220 | A template load error is returned before any write; on success only the master StatefulSet is written, labelled and owned by the ConfigMap with that uid |
| ClusterDescriptor.BuildMaster | src/domain/cluster/descriptor.rs:211-218 | The master StatefulSet built with the ConfigMap's uid as owner, or the template load error |
| ClusterDescriptor.ApplyWorkerStep | src/domain/cluster/descriptor.rs:223-249 | A template load or data-directory error is returned before any write; on success only the worker StatefulSet is written, owned by the ConfigMap |
| ClusterDescriptor.BuildWorker | src/domain/cluster/descriptor.rs:223-229 | The worker StatefulSet built with the ConfigMap's uid as owner, or the template load or data-directory error |
| ClusterDescriptor.ApplyServicesStep | src/domain/cluster/descriptor.rs:231-255 | The headless Service is applied, then the master Service; it succeeds exactly when neither is refused, and both are then owned by the ConfigMap |
| ClusterDescriptor.ApplyObjects | src/domain/cluster/descriptor.rs:190-255 | The objects are applied in the order ConfigMap, uid read, master, worker, headless Service, Service; every early failure leaves the later objects unwritten; success means all four objects exist owned by the ConfigMap |
| ClusterDescriptor.ApplyClusterInternal | src/domain/cluster/descriptor.rs:130-271 | As ApplyObjects, with the ConfigMap listing the master count of the running master StatefulSet when updating (the configured count when it cannot be read); a first deployment then succeeds only if the readiness wait does |
| ClusterDescriptor.DeployCluster | src/domain/cluster/descriptor.rs:54-92 | A validation error is returned with nothing written; an existing master StatefulSet is refused with the "already exists" message and nothing written; success means a fresh cluster applied, owned by its ConfigMap and ready |
| ClusterDescriptor.UpdateCluster | src/domain/cluster/descriptor.rs:94-128 | A validation error is returned with nothing written; a missing master StatefulSet is refused with the "not found" message; success means the cluster re-applied, with the ConfigMap listing the running master count |
| ClusterDescriptor.GetClusterStatus | src/domain/cluster/descriptor.rs:400-487 | The status reports the master StatefulSet, the master Service and the ConfigMap where they exist, and never a worker |
| ClusterDescriptor.StatusParts | src/domain/cluster/descriptor.rs:400-487 | In the intended status each part is present exactly when its object exists, and the reported status is the intended one without its worker |
| ClusterDescriptor.StatusMissesWorker | src/domain/cluster/descriptor.rs:432-457 | For a cluster the descriptor applied, the worker StatefulSet exists, yet the reported status has no worker |
| ClusterDescriptor.IntendedStatusReportsWorker | src/domain/cluster/descriptor.rs:432-457 | For a cluster the descriptor applied, the intended status reports all four objects and the worker StatefulSet's counts |
| ClusterDescriptor.DeleteCluster | src/domain/cluster/descriptor.rs:489-497 | Deleting a cluster that does not exist is NotFound with nothing changed; for an applied cluster only its ConfigMap is deleted, and the StatefulSets and Services that stay name that ConfigMap as their owner |
| ClusterDescriptor.ClusterIdOf | src/domain/cluster/descriptor.rs:509-510 | A ConfigMap yields a cluster id exactly when its name ends in "-config", and that id's ConfigMap name is the ConfigMap's own name |
| ClusterDescriptor.ClusterIdOfConfigMap | src/domain/cluster/descriptor.rs:509-510 | The ConfigMap of cluster id yields that id |
| ClusterDescriptor.ListClusters | src/domain/cluster/descriptor.rs:504-563 | A failed ConfigMap query is returned; otherwise the loop yields one row per listed ConfigMap named "…-config", in order |
| ClusterDescriptor.ClusterInfosContents | src/domain/cluster/descriptor.rs:508-559 | Every row comes from a listed ConfigMap of that cluster and carries the counts of its StatefulSets; every listed "…-config" ConfigMap yields its row |
| ClusterDescriptor.ListsAppliedCluster | src/domain/cluster/descriptor.rs:504-563 | A cluster the descriptor applied is listed once its ConfigMap is returned, with its master's replica count and its worker's ready count |

## Left out

- **Platform transport.**
  - Client construction, kubeconfig loading and the HTTP calls are not modelled. The client is `KubeStore.Store`, an abstract map per object kind.
  - An API error other than "not found" is modelled only as a name in `rejected`: an apply or delete of such a name fails with `Rejected`.
  - Server-side apply field merging is not modelled. A patch replaces the stored object and keeps its uid; a Service patch also keeps its cluster IPs. So in update mode a master StatefulSet whose replicas are absent is stored with absent replicas.
  - Uid generation is a creation counter (`uid-<n>`).
  - The server's own validation of objects is not modelled. Garbage collection of owned objects after the ConfigMap is deleted is not modelled either: the store keeps them.
  - The Deployment operations of the client (`create_deployment`, `get_deployment`, `apply_deployment`) are not modelled. No object the core builds is a Deployment, so the store holds none and every Deployment read is "not found".
- **File and parser I/O.**
  - TOML reading and writing, YAML template parsing, file-existence checks and path canonicalisation are not modelled.
  - The cluster file is a structured record, `CurvineConf.ClusterConf`.
  - A loaded pod template arrives as a `Result` parameter. Only the checks made on the parsed pod are modelled.
  - `ConfigMapResource.SyntheticKubeConfig`: the serialisation failure of the cluster file inside the ConfigMap builder is not modelled.
- **Regular expression.** The `[prefix]rest` data-dir grammar is written out directly, with word characters restricted to ASCII letters, digits and `_`.
- **Floating point.** The CPU override keys of the dynamic-override applier parse and convert floating-point numbers, so they are not modelled. The CPU quantities stay as they were.
- **Letter case.** Upper- and lower-casing cover ASCII only. Unicode case mapping is not modelled.
- **Iteration order.**
  - Hash-map iteration fixes the order of custom environment variables. The model takes that order as a parameter (`EnvBuilder.IsKeyOrder`).
  - Labels, annotations and node selectors are maps, so their order is not represented.
- **Timing.** The readiness wait's `sleep` and elapsed time become a sequence of polls, one per check. A pod list that could not be read is a poll whose pods are `None`.
- **Listing inputs.**
  - The label query of `list_configmaps` is taken as the `listed` parameter of `ClusterDescriptor.ListClusters`.
  - `list_storage_classes` is taken as a sequence parameter.
- **Printing.** All console output is not modelled: the table, colour and icon helpers, and the messages printed about the default StorageClass in `apply_cluster_internal`.
- **Integer widths.** u32 and i32 fields are unbounded integers, except the `as u32` casts of reported counts (`ClusterDescriptor.AsU32`) and the u64 arithmetic of `parse_size_string`.
- CurvineConf.ParseDataDir: uses the checked size parse (`CurvineConf.ParseSizeString`), which rejects a capacity of 2^64 bytes or more. The source multiplies without a check, so in a release build such a capacity wraps modulo 2^64 (see "## Findings"). For example, `[MEM:16777216TB]/d` comes out with capacity 0. It then passes validation and yields a memory emptyDir with no size limit. `CurvineConf.ParseSizeStringAsWritten` and `CurvineConf.SizeOverflowWrapsToZero` model that wrap.
- CurvineConf.ParseDataDirTierAndCapacity: fails on an overflowing capacity, where the source yields the wrapped capacity. The reason is the same as for `CurvineConf.ParseDataDir`.
- CurvineConf.ParseDataDirCapacityOnly: fails on an overflowing capacity, where the source yields the wrapped capacity. The reason is the same as for `CurvineConf.ParseDataDir`.
- Validator.CheckDataDir: rejects a directory whose capacity overflows, where the source compares the wrapped capacity with the block size. The reason is the same as for `CurvineConf.ParseDataDir`.
- Validator.WorkerMemSizeOk: fails on an overflowing block size or capacity, where the source goes on with the wrapped value. The reason is the same as for `CurvineConf.ParseDataDir`.
- Validator.BlockSizeChoice: a textual block size of 2^64 bytes or more is a parse error here. In the source it wraps: `16777216TB` gives a block size of 0. The reason is the same as for `CurvineConf.ParseDataDir`.
- **Pod names.** Every pod in the model has a name. So the `"unknown"` name that failure messages use for a pod without one is not modelled.
- **Relative template paths.** `TemplateUtils.ResolvePodTemplatePath` models only the absolute-path case. Turning a relative path into an absolute one depends on the working directory, so it is not modelled.
- **Wiring.** Command-line argument definitions, the binary entry point and build tooling are not modelled.

## Findings

| source | as written | input that shows it | evidently intended | confidence | as-written member | corrected member |
|---|---|---|---|---|---|---|
| src/domain/config/curvine.rs:692 | The parsed number is multiplied by the unit as a u64 with no overflow check. The product wraps modulo 2^64 in a release build and panics in a debug build. | `"16777216TB"`, which is 2^24 · 2^40 = 2^64 bytes: the size comes out as 0 | A size too large for a u64 is reported as an invalid size string | high; not executed | CurvineConf.SizeOverflowWrapsToZero | CurvineConf.ParseSizeString |
| src/domain/cluster/descriptor.rs:432-457 | `get_cluster_status` looks up the worker as the Deployment `{id}-worker`. The descriptor never creates a Deployment, so the worker is never reported. | Any cluster the descriptor applied: its worker is the StatefulSet `{id}-worker`, and the status has no worker | The status reports the worker StatefulSet, the same way it reports the master | high; not executed | ClusterDescriptor.StatusMissesWorker | ClusterDescriptor.IntendedStatusReportsWorker |
