/** Merging a user's pod template with the pod the builders produce
    (src/infrastructure/kubernetes/resources/pod/merger.rs). The builder
    supplies what the cluster needs; the template keeps what it sets. */
module PodMerger {
  import opened Wrappers
  import opened K8s
  import opened PodTemplate

  // -------------------------------------------------------------- labels

  /** Template labels overwritten by builder labels on shared keys; the
      builder labels alone when the template has none. */
  function MergedLabels(template: Option<StringMap>, builder: StringMap): StringMap {
    if template.Some? then template.value + builder else builder
  }

  lemma MergedLabelsWin(template: Option<StringMap>, builder: StringMap)
    ensures forall k :: k in builder ==> k in MergedLabels(template, builder) && MergedLabels(template, builder)[k] == builder[k]
    ensures forall k :: template.Some? && k in template.value && k !in builder ==>
      k in MergedLabels(template, builder) && MergedLabels(template, builder)[k] == template.value[k]
    ensures forall k :: k in MergedLabels(template, builder) ==> k in builder || (template.Some? && k in template.value)
  {
  }

  // ------------------------------------------------------------- volumes

  function VolumeNames(vs: seq<Volume>): set<string> {
    set v | v in vs :: v.name
  }

  /** The builder volumes whose name is not taken, in order. */
  function NewVolumes(bv: seq<Volume>, taken: set<string>): seq<Volume> {
    if |bv| == 0 then []
    else NewVolumes(bv[..|bv| - 1], taken) + (if bv[|bv| - 1].name in taken then [] else [bv[|bv| - 1]])
  }

  /** Template volumes first, then the builder volumes with a fresh name. */
  function MergedVolumes(tv: seq<Volume>, bv: seq<Volume>): seq<Volume> {
    tv + NewVolumes(bv, VolumeNames(tv))
  }

  /** The volume loop of `merge_with_template_impl`. */
  method MergeVolumes(tv: seq<Volume>, bv: seq<Volume>) returns (merged: seq<Volume>)
    ensures merged == MergedVolumes(tv, bv)
  {
    merged := tv;
    var existing := VolumeNames(tv);
    var i := 0;
    while i < |bv|
      invariant i <= |bv|
      invariant merged == tv + NewVolumes(bv[..i], existing)
    {
      assert bv[..i + 1][..i] == bv[..i];
      if bv[i].name !in existing {
        merged := merged + [bv[i]];
      }
      i := i + 1;
    }
    assert bv[..i] == bv;
  }

  /** A builder volume is added exactly when no template volume has its
      name; nothing else is added. */
  lemma {:induction false} NewVolumesContents(bv: seq<Volume>, taken: set<string>)
    ensures forall v :: v in NewVolumes(bv, taken) <==> v in bv && v.name !in taken
  {
    if |bv| > 0 {
      NewVolumesContents(bv[..|bv| - 1], taken);
      assert bv == bv[..|bv| - 1] + [bv[|bv| - 1]];
    }
  }

  // -------------------------------------------------------------- mounts

  function MountPaths(ms: seq<VolumeMount>): set<string> {
    set m | m in ms :: m.mountPath
  }

  /** The builder mounts whose path is not taken, in order. */
  function NewMounts(bm: seq<VolumeMount>, taken: set<string>): seq<VolumeMount> {
    if |bm| == 0 then []
    else NewMounts(bm[..|bm| - 1], taken) + (if bm[|bm| - 1].mountPath in taken then [] else [bm[|bm| - 1]])
  }

  function MergedMounts(tm: seq<VolumeMount>, bm: seq<VolumeMount>): seq<VolumeMount> {
    tm + NewMounts(bm, MountPaths(tm))
  }

  /** The mount loop of `merge_with_template_impl`. */
  method MergeMounts(tm: seq<VolumeMount>, bm: seq<VolumeMount>) returns (merged: seq<VolumeMount>)
    ensures merged == MergedMounts(tm, bm)
  {
    merged := tm;
    var existing := MountPaths(tm);
    var i := 0;
    while i < |bm|
      invariant i <= |bm|
      invariant merged == tm + NewMounts(bm[..i], existing)
    {
      assert bm[..i + 1][..i] == bm[..i];
      if bm[i].mountPath !in existing {
        merged := merged + [bm[i]];
      }
      i := i + 1;
    }
    assert bm[..i] == bm;
  }

  /** A builder mount is added exactly when no template mount uses its
      path. */
  lemma {:induction false} NewMountsContents(bm: seq<VolumeMount>, taken: set<string>)
    ensures forall m :: m in NewMounts(bm, taken) <==> m in bm && m.mountPath !in taken
  {
    if |bm| > 0 {
      NewMountsContents(bm[..|bm| - 1], taken);
      assert bm == bm[..|bm| - 1] + [bm[|bm| - 1]];
    }
  }

  // ------------------------------------------------- mount validation

  /** Name to path of the builder mounts; a later mount of the same name
      wins, as when collecting into a hash map. */
  function ExpectedPaths(bm: seq<VolumeMount>): (r: map<string, string>)
    ensures r.Keys == set m | m in bm :: m.name
  {
    if |bm| == 0 then map[]
    else
      var init := bm[..|bm| - 1];
      assert bm == init + [bm[|bm| - 1]];
      ExpectedPaths(init)[bm[|bm| - 1].name := bm[|bm| - 1].mountPath]
  }

  const MISMATCH_HEAD := "\n Volume mount path mismatch in Pod template\n\n  Volume Name: '"
  const MISMATCH_TEMPLATE := "'\nPod Template mountPath: '"
  const MISMATCH_REQUIRED := "'\nRequired mountPath: '"
  const MISMATCH_OPTION1 := "'\n\n This volume mount path is determined by your curvine-cluster.toml configuration.\n\n To fix this issue, you have two options:\n\n  Option 1: Update your Pod template to use the correct mountPath:\n\n    volumeMounts:\n- name: "
  const MISMATCH_PATH := "\nmountPath: "
  const MISMATCH_OPTION2 := "  # Must match configuration\n\n  Option 2: Update your curvine-cluster.toml to match your Pod template:\n\n    [master]\nmeta_dir = \""
  const MISMATCH_TAIL := "\"  # Or appropriate config path\n\n  The mountPath must match the directory paths in curvine-cluster.toml:\n- master.meta_dir\n- journal.journal_dir\n- worker.data_dir (without [DISK] prefix)\n"

  function MismatchMessage(name: string, templatePath: string, requiredPath: string): string {
    MISMATCH_HEAD + name + MISMATCH_TEMPLATE + templatePath + MISMATCH_REQUIRED + requiredPath
    + MISMATCH_OPTION1 + name + MISMATCH_PATH + requiredPath + MISMATCH_OPTION2 + templatePath + MISMATCH_TAIL
  }

  /** A template mount that reuses a builder mount's name at another path. */
  function MountError(m: VolumeMount, expected: map<string, string>): Option<KubeError> {
    if m.name in expected && m.mountPath != expected[m.name] then
      Some(ValidationError(MismatchMessage(m.name, m.mountPath, expected[m.name])))
    else None
  }

  function MountErrors(tm: seq<VolumeMount>, expected: map<string, string>): (r: seq<Option<KubeError>>)
    ensures |r| == |tm| && forall i :: 0 <= i < |tm| ==> r[i] == MountError(tm[i], expected)
  {
    seq(|tm|, i requires 0 <= i < |tm| => MountError(tm[i], expected))
  }

  /** What `validate_volume_mounts` returns. */
  function MountsValid(tm: seq<VolumeMount>, bm: seq<VolumeMount>): Result<(), KubeError> {
    var e := FirstError(MountErrors(tm, ExpectedPaths(bm)), 0);
    if e.Some? then Err(e.value) else Ok(())
  }

  /** `validate_volume_mounts`: the first template mount whose path differs
      from the builder's path for the same name is reported. */
  method ValidateVolumeMounts(tm: seq<VolumeMount>, bm: seq<VolumeMount>) returns (r: Result<(), KubeError>)
    ensures r == MountsValid(tm, bm)
  {
    var expected := ExpectedPaths(bm);
    ghost var errors := MountErrors(tm, expected);
    var i := 0;
    while i < |tm|
      invariant i <= |tm|
      invariant FirstError(errors, 0) == FirstError(errors, i)
    {
      FirstErrorStep(errors, i);
      if tm[i].name in expected && tm[i].mountPath != expected[tm[i].name] {
        return Err(ValidationError(MismatchMessage(tm[i].name, tm[i].mountPath, expected[tm[i].name])));
      }
      i := i + 1;
    }
    r := Ok(());
  }

  /** The path the builder requires for a name is that of its last mount of
      that name. */
  lemma {:induction false} ExpectedPathIsLast(bm: seq<VolumeMount>, j: nat)
    requires j < |bm|
    requires forall k :: j < k < |bm| ==> bm[k].name != bm[j].name
    ensures ExpectedPaths(bm)[bm[j].name] == bm[j].mountPath
  {
    if j < |bm| - 1 {
      ExpectedPathIsLast(bm[..|bm| - 1], j);
    }
  }

  /** Validation passes exactly when every template mount that shares a
      name with a builder mount uses the path the builder requires. */
  lemma MountsValidIff(tm: seq<VolumeMount>, bm: seq<VolumeMount>)
    ensures MountsValid(tm, bm).Ok? <==>
      forall i :: 0 <= i < |tm| && tm[i].name in ExpectedPaths(bm) ==> tm[i].mountPath == ExpectedPaths(bm)[tm[i].name]
    ensures MountsValid(tm, bm).Err? ==>
      exists i :: 0 <= i < |tm| && tm[i].name in ExpectedPaths(bm) && tm[i].mountPath != ExpectedPaths(bm)[tm[i].name]
        && MountsValid(tm, bm).error == ValidationError(MismatchMessage(tm[i].name, tm[i].mountPath, ExpectedPaths(bm)[tm[i].name]))
  {
    FirstErrorIsFirst(MountErrors(tm, ExpectedPaths(bm)), 0);
  }

  // ----------------------------------------------------------------- env

  function EnvNames(es: seq<EnvVar>): set<string> {
    set e | e in es :: e.name
  }

  /** The first entry named like `v` replaced by `v`. */
  function ReplaceFirst(es: seq<EnvVar>, v: EnvVar): (r: seq<EnvVar>)
    ensures |r| == |es|
  {
    if |es| == 0 then []
    else if es[0].name == v.name then [v] + es[1..]
    else [es[0]] + ReplaceFirst(es[1..], v)
  }

  /** One builder variable merged in: it overwrites the first entry of the
      same name if the template had that name, and is appended otherwise. */
  function EnvStep(merged: seq<EnvVar>, v: EnvVar, templateNames: set<string>): seq<EnvVar> {
    if v.name in templateNames then ReplaceFirst(merged, v) else merged + [v]
  }

  function MergedEnv(te: seq<EnvVar>, be: seq<EnvVar>): seq<EnvVar> {
    if |be| == 0 then te
    else EnvStep(MergedEnv(te, be[..|be| - 1]), be[|be| - 1], EnvNames(te))
  }

  /** The env loop of `merge_with_template_impl`. */
  method MergeEnv(te: seq<EnvVar>, be: seq<EnvVar>) returns (merged: seq<EnvVar>)
    ensures merged == MergedEnv(te, be)
  {
    merged := te;
    var existing := EnvNames(te);
    var i := 0;
    while i < |be|
      invariant i <= |be|
      invariant merged == MergedEnv(te, be[..i])
    {
      assert be[..i + 1][..i] == be[..i];
      if be[i].name in existing {
        merged := ReplaceFirst(merged, be[i]);
      } else {
        merged := merged + [be[i]];
      }
      i := i + 1;
    }
    assert be[..i] == be;
  }

  /** The last variable of that name, if any. */
  function LastEnvNamed(be: seq<EnvVar>, name: string): Option<EnvVar> {
    if |be| == 0 then None
    else if be[|be| - 1].name == name then Some(be[|be| - 1])
    else LastEnvNamed(be[..|be| - 1], name)
  }

  predicate FirstOfName(es: seq<EnvVar>, i: nat)
    requires i < |es|
  {
    forall j :: 0 <= j < i ==> es[j].name != es[i].name
  }

  /** The template entries, each first entry of a name overwritten by the
      builder's last variable of that name. */
  function Overlaid(te: seq<EnvVar>, be: seq<EnvVar>): (r: seq<EnvVar>)
    ensures |r| == |te|
  {
    seq(|te|, i requires 0 <= i < |te| =>
      if FirstOfName(te, i) && LastEnvNamed(be, te[i].name).Some? then LastEnvNamed(be, te[i].name).value else te[i])
  }

  /** The builder variables whose name the template lacks, in order. */
  function Unclaimed(be: seq<EnvVar>, templateNames: set<string>): seq<EnvVar> {
    if |be| == 0 then []
    else Unclaimed(be[..|be| - 1], templateNames) + (if be[|be| - 1].name in templateNames then [] else [be[|be| - 1]])
  }

  lemma {:induction false} LastEnvNamedHasName(be: seq<EnvVar>, name: string)
    ensures LastEnvNamed(be, name).Some? ==> LastEnvNamed(be, name).value.name == name
  {
    if |be| > 0 && be[|be| - 1].name != name {
      LastEnvNamedHasName(be[..|be| - 1], name);
    }
  }

  /** Replacing the first entry of a name touches only that position. */
  lemma {:induction false} ReplaceFirstAt(es: seq<EnvVar>, v: EnvVar)
    ensures forall i :: 0 <= i < |es| ==>
      ReplaceFirst(es, v)[i] == (if es[i].name == v.name && FirstOfName(es, i) then v else es[i])
  {
    if |es| > 0 && es[0].name != v.name {
      var tail := es[1..];
      ReplaceFirstAt(tail, v);
      forall i | 0 < i < |es|
        ensures ReplaceFirst(es, v)[i] == (if es[i].name == v.name && FirstOfName(es, i) then v else es[i])
      {
        assert ReplaceFirst(es, v)[i] == ReplaceFirst(tail, v)[i - 1];
        assert tail[i - 1] == es[i];
        if es[i].name == v.name {
          assert FirstOfName(es, i) <==> FirstOfName(tail, i - 1) by {
            if FirstOfName(tail, i - 1) {
              forall j | 0 <= j < i ensures es[j].name != es[i].name {
                if j > 0 { assert es[j] == tail[j - 1]; }
              }
            }
            if FirstOfName(es, i) {
              forall j | 0 <= j < i - 1 ensures tail[j].name != tail[i - 1].name {
                assert tail[j] == es[j + 1];
              }
            }
          }
        }
      }
    }
  }

  /** Replacing within the front part of a sequence leaves the back part. */
  lemma {:induction false} ReplaceFirstFront(a: seq<EnvVar>, b: seq<EnvVar>, v: EnvVar)
    requires v.name in EnvNames(a)
    ensures ReplaceFirst(a + b, v) == ReplaceFirst(a, v) + b
  {
    assert |a| > 0;
    if a[0].name != v.name {
      assert (a + b)[1..] == a[1..] + b;
      assert v.name in EnvNames(a[1..]) by {
        var e :| e in a && e.name == v.name;
        var k :| 0 <= k < |a| && a[k] == e;
        assert k != 0;
        assert a[1..][k - 1] == e;
      }
      ReplaceFirstFront(a[1..], b, v);
    } else {
      assert (a + b)[1..] == a[1..] + b;
    }
  }

  /** Overwriting keeps every entry's name. */
  lemma OverlaidNames(te: seq<EnvVar>, be: seq<EnvVar>)
    ensures forall i :: 0 <= i < |te| ==> Overlaid(te, be)[i].name == te[i].name
  {
    forall i | 0 <= i < |te| ensures Overlaid(te, be)[i].name == te[i].name {
      LastEnvNamedHasName(be, te[i].name);
    }
  }

  /** A builder variable whose name the template has overwrites the first
      entry of that name. */
  lemma OverlaidClaimed(te: seq<EnvVar>, be: seq<EnvVar>, v: EnvVar)
    requires v.name in EnvNames(te)
    ensures ReplaceFirst(Overlaid(te, be), v) == Overlaid(te, be + [v])
  {
    var ov := Overlaid(te, be);
    var bv := be + [v];
    assert bv[..|bv| - 1] == be;
    OverlaidNames(te, be);
    ReplaceFirstAt(ov, v);
    forall i | 0 <= i < |te| ensures ReplaceFirst(ov, v)[i] == Overlaid(te, bv)[i] {
      assert FirstOfName(ov, i) <==> FirstOfName(te, i);
    }
  }

  /** A builder variable whose name the template lacks changes no template
      entry. */
  lemma OverlaidUnclaimed(te: seq<EnvVar>, be: seq<EnvVar>, v: EnvVar)
    requires v.name !in EnvNames(te)
    ensures Overlaid(te, be) == Overlaid(te, be + [v])
  {
    var bv := be + [v];
    assert bv[..|bv| - 1] == be;
    forall i | 0 <= i < |te| ensures Overlaid(te, be)[i] == Overlaid(te, bv)[i] {
      assert te[i] in te;
    }
  }

  /** One merge step on the reference form: a claimed name overwrites its
      first template entry, an unclaimed one is appended. */
  lemma MergedEnvLayoutStep(te: seq<EnvVar>, be: seq<EnvVar>, v: EnvVar)
    ensures EnvStep(Overlaid(te, be) + Unclaimed(be, EnvNames(te)), v, EnvNames(te))
         == Overlaid(te, be + [v]) + Unclaimed(be + [v], EnvNames(te))
  {
    var names := EnvNames(te);
    var bv := be + [v];
    assert bv[..|bv| - 1] == be;
    var ov := Overlaid(te, be);
    if v.name in names {
      var k :| 0 <= k < |te| && te[k].name == v.name;
      OverlaidNames(te, be);
      assert ov[k] in ov;
      ReplaceFirstFront(ov, Unclaimed(be, names), v);
      OverlaidClaimed(te, be, v);
    } else {
      OverlaidUnclaimed(te, be, v);
    }
  }

  /** The merged environment is the template's entries, each overwritten by
      the builder's last variable of its name (at its first position only),
      followed by the builder variables whose name the template lacks. */
  lemma {:induction false} MergedEnvLayout(te: seq<EnvVar>, be: seq<EnvVar>)
    ensures MergedEnv(te, be) == Overlaid(te, be) + Unclaimed(be, EnvNames(te))
  {
    if |be| == 0 {
      assert Overlaid(te, be) == te;
    } else {
      var init := be[..|be| - 1];
      MergedEnvLayout(te, init);
      MergedEnvLayoutStep(te, init, be[|be| - 1]);
      assert init + [be[|be| - 1]] == be;
    }
  }

  // ------------------------------------------------------ main container

  /** The first container of the builder pod, where its settings live. */
  function BuilderContainer(pod: Pod): Option<Container> {
    if pod.spec.Some? && |pod.spec.value.containers| > 0 then Some(pod.spec.value.containers[0]) else None
  }

  function BuilderEnv(pod: Pod): seq<EnvVar> {
    var c := BuilderContainer(pod);
    if c.Some? then c.value.env.GetOr([]) else []
  }

  /** Resources the template leaves open: absent, or with neither requests
      nor limits. */
  predicate ResourcesOpen(r: Option<ResourceRequirements>) {
    r.None? || (r.value.requests.None? && r.value.limits.None?)
  }

  /** The template main container with the settings it leaves open taken
      from the builder's container. */
  function Filled(main: Container, b: Option<Container>): (r: Container)
    ensures r.name == main.name && r.image == main.image && r.env == main.env && r.volumeMounts == main.volumeMounts
    ensures r.command == main.command && r.ports == main.ports
  {
    main.(
      workingDir := if main.workingDir.None? then (if b.Some? then b.value.workingDir else None) else main.workingDir,
      args := if main.args.None? then (if b.Some? then b.value.args else None) else main.args,
      resources := if ResourcesOpen(main.resources) then (if b.Some? then b.value.resources else None) else main.resources,
      livenessProbe := if main.livenessProbe.None? then (if b.Some? then b.value.livenessProbe else None) else main.livenessProbe,
      readinessProbe := if main.readinessProbe.None? then (if b.Some? then b.value.readinessProbe else None) else main.readinessProbe,
      lifecycle := if main.lifecycle.None? then (if b.Some? then b.value.lifecycle else None) else main.lifecycle)
  }

  /** The template wins wherever it sets something: a set working dir,
      args, probes, lifecycle or constrained resources are kept, and only
      open ones come from the builder. */
  lemma FilledKeepsTemplate(main: Container, b: Container)
    ensures main.workingDir.Some? ==> Filled(main, Some(b)).workingDir == main.workingDir
    ensures main.workingDir.None? ==> Filled(main, Some(b)).workingDir == b.workingDir
    ensures main.args.Some? ==> Filled(main, Some(b)).args == main.args
    ensures main.args.None? ==> Filled(main, Some(b)).args == b.args
    ensures !ResourcesOpen(main.resources) ==> Filled(main, Some(b)).resources == main.resources
    ensures ResourcesOpen(main.resources) ==> Filled(main, Some(b)).resources == b.resources
    ensures main.livenessProbe.Some? ==> Filled(main, Some(b)).livenessProbe == main.livenessProbe
    ensures main.readinessProbe.Some? ==> Filled(main, Some(b)).readinessProbe == main.readinessProbe
    ensures main.lifecycle.Some? ==> Filled(main, Some(b)).lifecycle == main.lifecycle
    ensures main.lifecycle.None? ==> Filled(main, Some(b)).lifecycle == b.lifecycle
  {
  }

  // --------------------------------------------------------------- merge

  function TemplateVolumes(pod: Pod): seq<Volume> {
    if pod.spec.Some? then pod.spec.value.volumes.GetOr([]) else []
  }

  /** The final pod: the merged volumes, and the main container after the
      template's other containers. */
  function Assemble(pod: Pod, volumes: seq<Volume>, main: Container): Pod {
    if pod.spec.Some? then
      pod.(spec := Some(pod.spec.value.(volumes := Some(volumes), containers := pod.spec.value.containers + [main])))
    else pod
  }

  /** What `merge_with_template_impl` returns. */
  function MergeWithTemplate(template: CurvinePod, builderPod: Pod, bv: seq<Volume>, bm: seq<VolumeMount>,
                             labels: StringMap): Result<Pod, KubeError>
  {
    var tpod := template.podWithoutMain;
    var tmain := template.mainContainer;
    var tmounts := tmain.volumeMounts.GetOr([]);
    match MountsValid(tmounts, bm)
    case Err(e) => Err(e)
    case Ok(_) =>
      var meta := tpod.metadata.(labels := Some(MergedLabels(tpod.metadata.labels, labels)));
      var volumes := MergedVolumes(TemplateVolumes(tpod), bv);
      var env := MergedEnv(tmain.env.GetOr([]), BuilderEnv(builderPod));
      var main := Filled(tmain.(env := Some(env), volumeMounts := Some(MergedMounts(tmounts, bm))), BuilderContainer(builderPod));
      Ok(Assemble(tpod.(metadata := meta), volumes, main))
  }

  /** `merge_with_template_impl` */
  method MergeWithTemplateImpl(template: CurvinePod, builderPod: Pod, bv: seq<Volume>, bm: seq<VolumeMount>,
                               labels: StringMap) returns (r: Result<Pod, KubeError>)
    ensures r == MergeWithTemplate(template, builderPod, bv, bm, labels)
  {
    var tpod := template.podWithoutMain;
    var main := template.mainContainer;
    var meta := tpod.metadata.(labels := Some(MergedLabels(tpod.metadata.labels, labels)));
    tpod := tpod.(metadata := meta);
    var volumes := MergeVolumes(TemplateVolumes(tpod), bv);
    var tmounts := main.volumeMounts.GetOr([]);
    var valid := ValidateVolumeMounts(tmounts, bm);
    if valid.Err? {
      return Err(valid.error);
    }
    var mounts := MergeMounts(tmounts, bm);
    var env := MergeEnv(main.env.GetOr([]), BuilderEnv(builderPod));
    main := main.(env := Some(env), volumeMounts := Some(mounts));
    main := Filled(main, BuilderContainer(builderPod));
    r := Ok(Assemble(tpod, volumes, main));
  }

  /** `apply_builder_to_pod`: the volumes and the first container's mounts
      replaced. */
  function ApplyBuilderToPod(pod: Pod, volumes: seq<Volume>, mounts: seq<VolumeMount>): (r: Pod)
    ensures r.metadata == pod.metadata && r.spec.Some? == pod.spec.Some?
  {
    if pod.spec.None? then pod
    else
      var spec := pod.spec.value;
      var cs := if |spec.containers| > 0 then [spec.containers[0].(volumeMounts := Some(mounts))] + spec.containers[1..]
                else spec.containers;
      pod.(spec := Some(spec.(volumes := Some(volumes), containers := cs)))
  }

  /** Without a template the builder pod only gains the volumes and the
      first container's mounts; every other container and setting is
      unchanged. */
  lemma ApplyBuilderOnlySetsVolumes(pod: Pod, volumes: seq<Volume>, mounts: seq<VolumeMount>)
    requires pod.spec.Some?
    ensures var r := ApplyBuilderToPod(pod, volumes, mounts).spec.value;
      && r.volumes == Some(volumes)
      && |r.containers| == |pod.spec.value.containers|
      && (|r.containers| > 0 ==> r.containers[0] == pod.spec.value.containers[0].(volumeMounts := Some(mounts)))
      && (forall i :: 1 <= i < |r.containers| ==> r.containers[i] == pod.spec.value.containers[i])
      && r.(volumes := pod.spec.value.volumes, containers := pod.spec.value.containers) == pod.spec.value
  {
  }

  /** What `merge_pod_with_template` returns: the template merge when there
      is a template, else the builder pod with its volumes and mounts. */
  function MergePod(template: Option<CurvinePod>, builderPod: Pod, bv: seq<Volume>,
                    bm: seq<VolumeMount>, labels: StringMap): Result<Pod, KubeError>
  {
    if template.Some? then MergeWithTemplate(template.value, builderPod, bv, bm, labels)
    else Ok(ApplyBuilderToPod(builderPod, bv, bm))
  }

  /** The merged pod's labels: the template's overwritten by the builder's
      labels with a template, the builder pod's own without one. */
  lemma MergePodLabels(template: Option<CurvinePod>, builderPod: Pod, bv: seq<Volume>,
                       bm: seq<VolumeMount>, labels: StringMap)
    requires MergePod(template, builderPod, bv, bm, labels).Ok?
    ensures template.Some? ==> MergePod(template, builderPod, bv, bm, labels).value.metadata.labels
                               == Some(MergedLabels(template.value.podWithoutMain.metadata.labels, labels))
    ensures template.None? ==> MergePod(template, builderPod, bv, bm, labels).value.metadata == builderPod.metadata
  {
  }

  /** `merge_pod_with_template` */
  method MergePodWithTemplate(template: Option<CurvinePod>, builderPod: Pod, bv: seq<Volume>,
                              bm: seq<VolumeMount>, labels: StringMap) returns (r: Result<Pod, KubeError>)
    ensures template.Some? ==> r == MergeWithTemplate(template.value, builderPod, bv, bm, labels)
    ensures template.None? ==> r == Ok(ApplyBuilderToPod(builderPod, bv, bm))
    ensures r == MergePod(template, builderPod, bv, bm, labels)
  {
    if template.Some? {
      r := MergeWithTemplateImpl(template.value, builderPod, bv, bm, labels);
    } else {
      r := Ok(ApplyBuilderToPod(builderPod, bv, bm));
    }
  }

  /** A merge fails exactly when the mount check fails, before anything is
      merged; when it succeeds, the labels, volumes, mounts and environment
      are the merged ones and the main container comes last. */
  lemma MergeWithTemplateShape(template: CurvinePod, builderPod: Pod, bv: seq<Volume>, bm: seq<VolumeMount>,
                               labels: StringMap)
    requires template.podWithoutMain.spec.Some?
    ensures var tmounts := template.mainContainer.volumeMounts.GetOr([]);
      MergeWithTemplate(template, builderPod, bv, bm, labels).Err? <==> MountsValid(tmounts, bm).Err?
    ensures var r := MergeWithTemplate(template, builderPod, bv, bm, labels);
      var tpod := template.podWithoutMain;
      var tmain := template.mainContainer;
      r.Ok? ==>
        && r.value.metadata.labels == Some(MergedLabels(tpod.metadata.labels, labels))
        && r.value.spec.Some?
        && r.value.spec.value.volumes == Some(MergedVolumes(TemplateVolumes(tpod), bv))
        && var cs := r.value.spec.value.containers;
        && |cs| == |tpod.spec.value.containers| + 1
        && cs[..|cs| - 1] == tpod.spec.value.containers
        && cs[|cs| - 1].name == tmain.name
        && cs[|cs| - 1].volumeMounts == Some(MergedMounts(tmain.volumeMounts.GetOr([]), bm))
        && cs[|cs| - 1].env == Some(Overlaid(tmain.env.GetOr([]), BuilderEnv(builderPod))
                                    + Unclaimed(BuilderEnv(builderPod), EnvNames(tmain.env.GetOr([]))))
  {
    MergedEnvLayout(template.mainContainer.env.GetOr([]), BuilderEnv(builderPod));
  }
}
