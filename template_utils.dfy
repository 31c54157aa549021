/** Checks on a parsed pod template, and byte-size formatting
    (src/infrastructure/kubernetes/resources/pod/template_utils.rs). */
module TemplateUtils {
  import opened Wrappers
  import opened Strings
  import opened K8s
  import opened PodTemplate

  // -------------------------------------------------------- byte sizes

  const KI: nat := 1024
  const MI: nat := KI * 1024
  const GI: nat := MI * 1024
  const TI: nat := GI * 1024

  /** The unit `format_bytes` chooses and its suffix: the largest binary
      unit not above the value, or bytes without a suffix. */
  function ByteUnit(bytes: nat): (r: (nat, string))
    ensures r.0 in {1, KI, MI, GI, TI}
  {
    if bytes >= TI then (TI, "Ti")
    else if bytes >= GI then (GI, "Gi")
    else if bytes >= MI then (MI, "Mi")
    else if bytes >= KI then (KI, "Ki")
    else (1, "")
  }

  /** `format_bytes`: the floor quotient by the chosen unit, then its suffix. */
  function FormatBytes(bytes: nat): string {
    var (unit, suffix) := ByteUnit(bytes);
    NatToString(bytes / unit) + suffix
  }

  /** The unit chosen is the largest that fits: the value is at least one
      unit (or below a kibibyte, printed as is), and below the next unit
      up; so the printed number is at least 1 and below 1024 unless the
      value is at least a tebibyte. */
  lemma ByteUnitIsLargest(bytes: nat)
    ensures ByteUnit(bytes).0 == 1 <==> bytes < KI
    ensures ByteUnit(bytes).0 <= bytes || bytes == 0
    ensures ByteUnit(bytes).0 != TI ==> bytes < ByteUnit(bytes).0 * 1024
    ensures bytes > 0 ==> bytes / ByteUnit(bytes).0 >= 1
    ensures ByteUnit(bytes).0 != TI ==> bytes / ByteUnit(bytes).0 < 1024
  {
  }

  /** The printed number is the floor quotient: it drops the remainder. */
  lemma FormatBytesTruncates(bytes: nat)
    ensures var unit := ByteUnit(bytes).0;
      (bytes / unit) * unit <= bytes < (bytes / unit + 1) * unit
  {
  }

  /** 1536 bytes print as one kibibyte. */
  lemma FormatBytesExample()
    ensures FormatBytes(1536) == "1Ki"
    ensures FormatBytes(1023) == "1023"
  {
    assert NatToString(1) == "1";
    assert NatToString(1023) == NatToString(102) + [DigitChar(3)];
  }

  // ------------------------------------------------- template checks

  function ContainerNames(cs: seq<Container>): (r: seq<string>)
    ensures |r| == |cs| && forall i :: 0 <= i < |cs| ==> r[i] == cs[i].name
  {
    seq(|cs|, i requires 0 <= i < |cs| => cs[i].name)
  }

  function MissingSpecMessage(path: string): string {
    "Pod template file " + path + " is missing spec section"
  }

  /** Joined with ", " as the message lists them. */
  function JoinComma(names: seq<string>): string {
    if |names| == 0 then ""
    else if |names| == 1 then names[0]
    else names[0] + ", " + JoinComma(names[1..])
  }

  const NAME_MISMATCH_HEAD := "\n Container name mismatch in Pod template\n\n  Expected container name: '"
  const NAME_MISMATCH_FOUND := "'\nFound container names: "
  const NAME_MISMATCH_MUST := "\n\n The Pod template must contain a container named '"
  const NAME_MISMATCH_FIX := "'.\n\n To fix this issue, update your Pod template:\n\n  containers:\n- name: "
  const NAME_MISMATCH_TAIL := "  # Must match expected name\n# ... rest of container spec\n\n  File: "

  function NameMismatchMessage(name: string, found: seq<string>, path: string): string {
    NAME_MISMATCH_HEAD + name + NAME_MISMATCH_FOUND + JoinComma(found) + NAME_MISMATCH_MUST + name
    + NAME_MISMATCH_FIX + name + NAME_MISMATCH_TAIL + path
  }

  /** The checks `load_pod_from_template_file` makes on a parsed template at
      `path`, then the split around the main container. */
  method CheckTemplate(pod: Pod, name: string, path: string) returns (r: Result<CurvinePod, KubeError>)
    ensures pod.spec.None? ==> r == Err(ConfigError(MissingSpecMessage(path)))
    ensures pod.spec.Some? && name !in ContainerNames(pod.spec.value.containers) ==>
      r == Err(ValidationError(NameMismatchMessage(name, ContainerNames(pod.spec.value.containers), path)))
    ensures pod.spec.Some? && name in ContainerNames(pod.spec.value.containers) ==>
      r == Ok(CurvinePod(WithoutMain(pod, name), MainOf(pod, name)))
  {
    if pod.spec.None? {
      return Err(ConfigError(MissingSpecMessage(path)));
    }
    var names := ContainerNames(pod.spec.value.containers);
    if name !in names {
      return Err(ValidationError(NameMismatchMessage(name, names, path)));
    }
    var cp := NewCurvinePod(pod, name);
    r := Ok(cp);
  }

  /** A template that passes the checks supplies its own main container:
      one of its containers with that name, never the default. */
  lemma CheckedTemplateMain(pod: Pod, name: string)
    requires pod.spec.Some? && name in ContainerNames(pod.spec.value.containers)
    ensures MainOf(pod, name) in pod.spec.value.containers
    ensures MainOf(pod, name).name == name
  {
    var cs := pod.spec.value.containers;
    LastNamedIsLast(cs, name);
    var i :| 0 <= i < |cs| && ContainerNames(cs)[i] == name;
    assert cs[i].name == name;
    var j :| 0 <= j < |cs| && cs[j] == LastNamed(cs, name).value && cs[j].name == name
             && forall k :: j < k < |cs| ==> cs[k].name != name;
  }

  /** `resolve_pod_template_path`: an absolute path as it is; a relative
      one is resolved against the working directory by the file system,
      whose answer is the parameter `resolved`. */
  function ResolvePodTemplatePath(path: string, resolved: Result<string, string>): (r: Result<string, KubeError>)
    ensures StartsWith(path, "/") ==> r == Ok(path)
  {
    if StartsWith(path, "/") then Ok(path)
    else match resolved
      case Ok(p) => Ok(p)
      case Err(e) => Err(ConfigError("Cannot resolve template path: " + e))
  }
}
