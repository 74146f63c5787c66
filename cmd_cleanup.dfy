/**
 * The `cleanup` phase: wait for the job's allocation; if it is still alive, learn the
 * probe's shell and tell the probe to stop; then deregister the job.
 */
module Cleanup {
  import opened GoErrors
  import opened NomadApi
  import opened Internals
  import opened Prepare
  import opened Run

  /** The command cleanup feeds the shell: a write to the pipe the probe blocks on. */
  const StopCommand: string := "echo > " + StopTaskFifo

  /**
   * The cleanup phase, from the environment and the scheduler's responses. A failed
   * wait or a failed discovery ends it without deregistering; the exit status of the
   * stop command is ignored; otherwise the result is the deregistration's.
   */
  method Cleanup(env: map<string, string>, s: Responses) returns (out: Outcome<Option<Error>>, effects: seq<Effect>)
    ensures "JOB_ENV_ID" !in env ==> out == Done(Some(Other(NoJobEnvID))) && effects == []
    ensures "JOB_ENV_ID" in env ==>
      var id := env["JOB_ENV_ID"];
      var (waited, waitTrace) := WaitSpec(id, s.allocations, s.allocation);
      && (waited == StillPolling ==> out == StillPolling && effects == waitTrace)
      && (waited.Done? && waited.value.err.Some? ==> out == Done(waited.value.err) && effects == waitTrace)
      && (waited.Done? && waited.value.err.None? && waited.value.dead ==>
            out == Done(s.deregister) && effects == waitTrace + [Deregister(id, false)])
      && (waited.Done? && waited.value.err.None? && !waited.value.dead ==>
            var allocID := waited.value.alloc.value.id;
            var (found, discoveryTrace) := DiscoveryPolls(allocID, "job", s.logs);
            && (found == StillPolling ==> out == StillPolling && effects == waitTrace + discoveryTrace)
            && (found.Done? && found.value.Err? ==>
                  out == Done(Some(found.value.error)) && effects == waitTrace + discoveryTrace)
            && (found.Done? && found.value.Ok? ==>
                  && out == Done(s.deregister)
                  && effects == waitTrace + discoveryTrace
                       + [Exec(allocID, "job", [found.value.value], StopCommand), Deregister(id, false)]))
  {
    effects := [];
    if "JOB_ENV_ID" !in env {
      out := Done(Some(Other(NoJobEnvID)));
      return;
    }
    var id := env["JOB_ENV_ID"];

    var waited, waitTrace := WaitForAllocation(id, s.allocations, s.allocation);
    effects := waitTrace;
    if !waited.Done? {
      out := StillPolling;
      return;
    }
    if waited.value.err.Some? {
      out := Done(waited.value.err);
      return;
    }
    var alloc := waited.value.alloc.value;

    if !waited.value.dead {
      var found, discoveryTrace := DiscoverShell(alloc.id, "job", s.logs);
      effects := effects + discoveryTrace;
      if !found.Done? {
        out := StillPolling;
        return;
      }
      if found.value.Err? {
        out := Done(Some(found.value.error));
        return;
      }
      var shell := found.value.value;
      effects := effects + [Exec(alloc.id, "job", [shell], StopCommand)];
    }

    var (call, result) := DeregisterJob(id, s.deregister);
    effects := effects + [call];
    out := Done(result);
  }
}
