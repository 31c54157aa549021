/** The pre-stop hook that gives a component time to stop cleanly
    (src/infrastructure/kubernetes/resources/pod/builders/lifecycle.rs). */
module PodLifecycle {
  import opened Wrappers
  import opened Strings
  import opened K8s
  import opened Constants

  function StopCommand(component: string, delay: nat): string {
    "sleep " + NatToString(delay) + " && /app/curvine/bin/cv " + component + " stop || true"
  }

  /** `build_graceful_shutdown` */
  function GracefulShutdown(component: string, graceful: bool, delay: nat): (r: Option<Lifecycle>)
    ensures r.None? <==> !graceful
    ensures r.Some? ==> r.value.postStart.None? && r.value.preStop.Some? && |r.value.preStop.value| == 3
  {
    if !graceful then None
    else Some(Lifecycle(Some(["/bin/sh", "-c", StopCommand(component, delay)]), None))
  }

  /** `build_default_graceful_shutdown`: the default delay. */
  function DefaultGracefulShutdown(component: string, graceful: bool): Option<Lifecycle> {
    GracefulShutdown(component, graceful, 10)
  }

  /** The hook runs a shell that sleeps for the delay, then stops the
      component and never fails; the default delay is the shared shutdown
      delay. */
  lemma GracefulShutdownCommand(component: string, graceful: bool, delay: nat)
    requires graceful
    ensures GracefulShutdown(component, graceful, delay).value.preStop.value[..2] == ["/bin/sh", "-c"]
    ensures var cmd := GracefulShutdown(component, graceful, delay).value.preStop.value[2];
      StartsWith(cmd, "sleep " + NatToString(delay) + " && ") && EndsWith(cmd, " stop || true")
    ensures DefaultGracefulShutdown(component, graceful) == GracefulShutdown(component, graceful, GRACEFUL_SHUTDOWN_DELAY)
  {
    var head := "sleep " + NatToString(delay) + " && ";
    ConcatAffixes(head, "/app/curvine/bin/cv " + component + " stop || true");
    ConcatAffixes("sleep " + NatToString(delay) + " && /app/curvine/bin/cv " + component, " stop || true");
  }
}
