/** The environment every Curvine container starts with
    (src/infrastructure/kubernetes/resources/pod/builders/env.rs). */
module EnvBuilder {
  import opened Wrappers
  import opened K8s
  import opened Constants

  /** `EnvironmentBuilder` */
  datatype EnvironmentBuilder = EnvironmentBuilder(
    component: string, clusterId: string, namespace: string, clusterDomain: string,
    customVars: StringMap)

  function NewEnvBuilder(component: string, clusterId: string, namespace: string, clusterDomain: string): EnvironmentBuilder {
    EnvironmentBuilder(component, clusterId, namespace, clusterDomain, map[])
  }

  /** `with_custom_vars`: the new map merged in, its entries winning. */
  function WithCustomVars(b: EnvironmentBuilder, vars: StringMap): (r: EnvironmentBuilder)
    ensures r.customVars.Keys == b.customVars.Keys + vars.Keys
    ensures forall k :: k in vars ==> r.customVars[k] == vars[k]
    ensures forall k :: k in b.customVars && k !in vars ==> r.customVars[k] == b.customVars[k]
    ensures r.(customVars := b.customVars) == b
  {
    b.(customVars := b.customVars + vars)
  }

  function Literal(name: string, value: string): EnvVar { EnvVar(name, Some(value), None) }
  function FieldRef(name: string, path: string): EnvVar { EnvVar(name, None, Some(path)) }

  /** The four fixed locations. */
  const BaseEnvVars: seq<EnvVar> := [
    Literal("APP_HOME", APP_HOME), Literal("CURVINE_HOME", CURVINE_HOME),
    Literal("CURVINE_CONF_FILE", CURVINE_CONF_FILE), Literal("ORPC_BIND_HOSTNAME", ORPC_BIND_HOSTNAME)]

  /** The pod's address and namespace, read from the pod, and the domain. */
  function K8sEnvVars(clusterDomain: string): seq<EnvVar> {
    [FieldRef("POD_IP", "status.podIP"), FieldRef("POD_NAMESPACE", "metadata.namespace"),
     Literal("POD_CLUSTER_DOMAIN", clusterDomain)]
  }

  /** The stable DNS name of master pod `ordinal`'s peers: `{pod}.{id}-master.{ns}.svc.{domain}`. */
  function MasterFqdn(pod: string, clusterId: string, namespace: string, clusterDomain: string): string {
    pod + "." + clusterId + "-master." + namespace + ".svc." + clusterDomain
  }

  function WorkerFqdn(pod: string, clusterId: string, namespace: string, clusterDomain: string): string {
    pod + "." + clusterId + "-worker." + namespace + ".svc." + clusterDomain
  }

  /** What each component adds: its own pod name and host names. */
  function ComponentEnvVars(b: EnvironmentBuilder): seq<EnvVar> {
    if b.component == COMPONENT_MASTER then
      [FieldRef("POD_NAME", "metadata.name"),
       Literal("CURVINE_MASTER_HOSTNAME", MasterFqdn("$(POD_NAME)", b.clusterId, b.namespace, b.clusterDomain))]
    else if b.component == COMPONENT_WORKER then
      [FieldRef("POD_NAME", "metadata.name"),
       Literal("CURVINE_MASTER_HOSTNAME", MasterFqdn(b.clusterId + "-master-0", b.clusterId, b.namespace, b.clusterDomain)),
       Literal("CURVINE_WORKER_HOSTNAME", WorkerFqdn("$(POD_NAME)", b.clusterId, b.namespace, b.clusterDomain))]
    else []
  }

  /** `keys` lists every key of `m` once: the order a hash map happens to
      iterate in. */
  predicate IsKeyOrder(keys: seq<string>, m: StringMap) {
    (forall i :: 0 <= i < |keys| ==> keys[i] in m)
    && (forall k :: k in m ==> k in keys)
    && (forall i, j :: 0 <= i < j < |keys| ==> keys[i] != keys[j])
  }

  /** One literal variable per custom entry, in iteration order. */
  function CustomEnvVars(vars: StringMap, keys: seq<string>): (r: seq<EnvVar>)
    requires IsKeyOrder(keys, vars)
    ensures |r| == |keys|
  {
    seq(|keys|, i requires 0 <= i < |keys| => Literal(keys[i], vars[keys[i]]))
  }

  /** `build`: base, platform, component and custom variables, in that
      order. `keys` is the custom map's iteration order. */
  function Build(b: EnvironmentBuilder, keys: seq<string>): seq<EnvVar>
    requires IsKeyOrder(keys, b.customVars)
  {
    BaseEnvVars + K8sEnvVars(b.clusterDomain) + ComponentEnvVars(b) + CustomEnvVars(b.customVars, keys)
  }

  /** The four sections appear whole and in order; the fixed part has 7
      entries, the component adds 2 for the master, 3 for a worker and
      none otherwise. */
  lemma BuildLayout(b: EnvironmentBuilder, keys: seq<string>)
    requires IsKeyOrder(keys, b.customVars)
    ensures var env := Build(b, keys);
      var n := |ComponentEnvVars(b)|;
      && env[..4] == BaseEnvVars
      && env[4..7] == K8sEnvVars(b.clusterDomain)
      && env[7..7 + n] == ComponentEnvVars(b)
      && env[7 + n..] == CustomEnvVars(b.customVars, keys)
      && |env| == 7 + n + |b.customVars|
    ensures |ComponentEnvVars(b)| == (if b.component == COMPONENT_MASTER then 2 else if b.component == COMPONENT_WORKER then 3 else 0)
  {
    var env := Build(b, keys);
    var n := |ComponentEnvVars(b)|;
    assert env == BaseEnvVars + K8sEnvVars(b.clusterDomain) + ComponentEnvVars(b) + CustomEnvVars(b.customVars, keys);
    KeyOrderLength(keys, b.customVars);
  }

  /** A key order has as many entries as the map. */
  lemma {:induction false} KeyOrderLength(keys: seq<string>, m: StringMap)
    requires IsKeyOrder(keys, m)
    ensures |keys| == |m|
    decreases |keys|
  {
    if |keys| == 0 {
      assert m.Keys == {};
    } else {
      var k := keys[|keys| - 1];
      var rest := keys[..|keys| - 1];
      assert IsKeyOrder(rest, m - {k}) by {
        forall i | 0 <= i < |rest| ensures rest[i] in m - {k} {
          assert rest[i] == keys[i] && keys[i] != keys[|keys| - 1];
        }
        forall k' | k' in m - {k} ensures k' in rest {
          var i :| 0 <= i < |keys| && keys[i] == k';
          assert i < |keys| - 1;
          assert rest[i] == k';
        }
      }
      KeyOrderLength(rest, m - {k});
      assert m.Keys == (m - {k}).Keys + {k};
    }
  }

  /** Every custom entry becomes exactly one literal variable, whatever
      built-in variable it shares a name with; every custom variable comes
      from an entry. */
  lemma CustomVarsExactlyOnce(vars: StringMap, keys: seq<string>)
    requires IsKeyOrder(keys, vars)
    ensures forall k :: k in vars ==> exists i :: 0 <= i < |keys| && CustomEnvVars(vars, keys)[i] == Literal(k, vars[k])
    ensures forall i, j :: 0 <= i < j < |keys| ==> CustomEnvVars(vars, keys)[i].name != CustomEnvVars(vars, keys)[j].name
    ensures forall e :: e in CustomEnvVars(vars, keys) ==> e.name in vars && e == Literal(e.name, vars[e.name])
  {
    forall k | k in vars ensures exists i :: 0 <= i < |keys| && CustomEnvVars(vars, keys)[i] == Literal(k, vars[k]) {
      var i :| 0 <= i < |keys| && keys[i] == k;
      assert CustomEnvVars(vars, keys)[i] == Literal(k, vars[k]);
    }
  }

  /** The master and the workers agree on the first master's address: the
      name the master pod with ordinal 0 advertises. */
  lemma WorkerFindsFirstMaster(b: EnvironmentBuilder)
    requires b.component == COMPONENT_WORKER
    ensures ComponentEnvVars(b)[1].value == Some(MasterFqdn(b.clusterId + "-master-0", b.clusterId, b.namespace, b.clusterDomain))
    ensures ComponentEnvVars(b.(component := COMPONENT_MASTER))[1].value
         == Some(MasterFqdn("$(POD_NAME)", b.clusterId, b.namespace, b.clusterDomain))
  {
  }
}
