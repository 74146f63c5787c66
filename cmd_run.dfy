/**
 * The `run` phase: wait for the job's allocation, learn the shell the probe found from
 * the task's stdout log, and run the stage's script with it in the stage's task.
 */
module Run {
  import opened GoErrors
  import opened GoStd
  import opened NomadApi
  import opened Gitlab
  import opened Internals
  import opened Prepare

  // ---------------------------------------------------------------- routing

  /** The task a stage's script runs in: user steps and `*_script` stages in "job", the rest in "helper". */
  function StageTarget(stage: string): (target: string)
    ensures target == "job" <==> HasPrefix(stage, "step_") || HasSuffix(stage, "_script")
    ensures target == "job" || target == "helper"
  {
    if HasPrefix(stage, "step_") || HasSuffix(stage, "_script") then "job" else "helper"
  }

  /** The stages the CI host runs to move sources, caches and artifacts. */
  const HelperStages: seq<string> := [
    "get_sources", "restore_cache", "download_artifacts", "archive_cache",
    "archive_cache_on_failure", "upload_artifacts_on_success", "upload_artifacts_on_failure",
    "cleanup_file_variables"]

  /** The stages the CI host runs the job's own scripts in. */
  const ScriptStages: seq<string> := ["prepare_script", "build_script", "after_script"]

  /** The CI host's stages that move sources, caches and artifacts run in the helper task. */
  lemma HelperStagesRunInHelper(k: nat)
    requires k < |HelperStages|
    ensures StageTarget(HelperStages[k]) == "helper"
  {
    var stage := HelperStages[k];
    assert stage[0] != 's' && stage[|stage| - 1] != 't';
  }

  /** The CI host's script stages and every user step run in the job task. */
  lemma ScriptStagesRunInJob(stage: string)
    requires stage in ScriptStages || HasPrefix(stage, "step_")
    ensures StageTarget(stage) == "job"
  {
  }

  // ---------------------------------------------------------------- shell discovery

  /** One pass of the discovery loop: a one-second sleep, then a read of the task's stdout log. */
  function DiscoveryStep(allocID: string, task: string): seq<Effect> {
    [Sleep(1000), Cat(allocID, LogPath(task, "stdout"))]
  }

  /**
   * The shell-discovery loop of `run` and `cleanup`, one scripted log text per read:
   * a read error ends it, an empty log retries, and the first non-empty log, trimmed of
   * spaces, newlines, tabs and carriage returns, is the shell.
   */
  function DiscoveryPolls(allocID: string, task: string, logs: seq<Result<string>>)
    : (r: (Outcome<Result<string>>, seq<Effect>))
    ensures !r.0.Panicked?
  {
    if logs == [] then (StillPolling, [])
    else
      match logs[0]
      case Err(e) => (Done(Err(e)), DiscoveryStep(allocID, task))
      case Ok(text) =>
        if text != "" then (Done(Ok(Trim(text, Whitespace))), DiscoveryStep(allocID, task))
        else
          var (o, rest) := DiscoveryPolls(allocID, task, logs[1..]);
          (o, DiscoveryStep(allocID, task) + rest)
  }

  /**
   * The discovery loop in closed form: one sleep and read per leading empty log, then
   * one more whose answer decides.
   */
  lemma {:induction false} DiscoveryClosedForm(allocID: string, task: string, logs: seq<Result<string>>)
    ensures var k := LeadingRun(logs, Ok(""));
      var waits := Repeat(DiscoveryStep(allocID, task), k);
      DiscoveryPolls(allocID, task, logs) ==
        if k == |logs| then (StillPolling, waits)
        else if logs[k].Err? then (Done(Err(logs[k].error)), waits + DiscoveryStep(allocID, task))
        else (Done(Ok(Trim(logs[k].value, Whitespace))), waits + DiscoveryStep(allocID, task))
  {
    var step := DiscoveryStep(allocID, task);
    if logs != [] && logs[0] == Ok("") {
      DiscoveryClosedForm(allocID, task, logs[1..]);
      var k := LeadingRun(logs[1..], Ok(""));
      assert LeadingRun(logs, Ok("")) == k + 1;
      assert k < |logs[1..]| ==> logs[1..][k] == logs[k + 1];
      assert step + (Repeat(step, k) + step) == Repeat(step, k + 1) + step;
    } else {
      assert Repeat(step, 0) + step == step;
    }
  }

  /**
   * One read of the discovery loop, with `effects` the trace of the reads before i: an
   * error or a non-empty log ends it, an empty log goes on.
   */
  lemma DiscoveryPollsStep(allocID: string, task: string, logs: seq<Result<string>>, i: nat, effects: seq<Effect>)
    requires i < |logs|
    requires DiscoveryPolls(allocID, task, logs) ==
      (DiscoveryPolls(allocID, task, logs[i..]).0, effects + DiscoveryPolls(allocID, task, logs[i..]).1)
    ensures logs[i].Err? ==>
      DiscoveryPolls(allocID, task, logs) == (Done(Err(logs[i].error)), effects + DiscoveryStep(allocID, task))
    ensures logs[i].Ok? && logs[i].value != "" ==>
      DiscoveryPolls(allocID, task, logs) ==
        (Done(Ok(Trim(logs[i].value, Whitespace))), effects + DiscoveryStep(allocID, task))
    ensures logs[i] == Ok("") ==>
      var later := DiscoveryPolls(allocID, task, logs[i + 1..]);
      DiscoveryPolls(allocID, task, logs) == (later.0, effects + DiscoveryStep(allocID, task) + later.1)
  {
    assert logs[i..][0] == logs[i];
    var step := DiscoveryStep(allocID, task);
    if logs[i] == Ok("") {
      assert logs[i..][1..] == logs[i + 1..];
      var later := DiscoveryPolls(allocID, task, logs[i + 1..]);
      assert DiscoveryPolls(allocID, task, logs[i..]) == (later.0, step + later.1);
      assert effects + (step + later.1) == effects + step + later.1;
    }
  }

  /** The discovery loop: sleep, read the stdout log, stop at the first error or text. */
  method DiscoverShell(allocID: string, task: string, logs: seq<Result<string>>)
    returns (out: Outcome<Result<string>>, effects: seq<Effect>)
    ensures (out, effects) == DiscoveryPolls(allocID, task, logs)
  {
    effects := [];
    var i := 0;
    assert logs[i..] == logs;
    assert effects + DiscoveryPolls(allocID, task, logs).1 == DiscoveryPolls(allocID, task, logs).1;
    while i < |logs|
      invariant 0 <= i <= |logs|
      invariant DiscoveryPolls(allocID, task, logs) ==
        (DiscoveryPolls(allocID, task, logs[i..]).0, effects + DiscoveryPolls(allocID, task, logs[i..]).1)
    {
      DiscoveryPollsStep(allocID, task, logs, i, effects);
      effects := effects + [Sleep(1000), Cat(allocID, LogPath(task, "stdout"))];
      if logs[i].Err? {
        out := Done(Err(logs[i].error));
        return;
      }
      if logs[i].value != "" {
        out := Done(Ok(Trim(logs[i].value, Whitespace)));
        return;
      }
      i := i + 1;
    }
    assert logs[i..] == [] && effects + [] == effects;
    out := StillPolling;
  }

  // ---------------------------------------------------------------- what discovery finds

  /** Every candidate shell is an absolute path ending in "sh". */
  lemma CandidateShape(k: nat)
    requires k < |ShellCandidates|
    ensures var c := ShellCandidates[k];
      |c| >= 2 && c[0] == '/' && c[|c| - 1] == 'h'
  {
  }

  /** A line of text that neither starts nor ends with whitespace is read back without its newline. */
  lemma TrimmedLine(line: string)
    requires line != [] && line[0] !in Whitespace && line[|line| - 1] !in Whitespace
    ensures Trim(line + "\n", Whitespace) == line
  {
    TrimSurrounded("", line, "\n", Whitespace);
    assert "" + line + "\n" == line + "\n";
  }

  /** A candidate shell printed on a line of its own is read back as that shell. */
  lemma CandidateLine(k: nat)
    requires k < |ShellCandidates|
    ensures Trim(ShellCandidates[k] + "\n", Whitespace) == ShellCandidates[k]
  {
    CandidateShape(k);
    TrimmedLine(ShellCandidates[k]);
  }

  /**
   * Once the probe has printed the shell it found, and every earlier read found the log
   * still empty, discovery yields that shell without its newline.
   */
  lemma DiscoveryFindsProbedShell(
    allocID: string, task: string, logs: seq<Result<string>>, executable: set<string>, stopped: bool)
    requires logs != [] && forall j :: 0 <= j < |logs| - 1 ==> logs[j] == Ok("")
    requires logs[|logs| - 1] == Ok(Probe(executable, stopped).stdout)
    requires FirstExecutable(executable, ShellCandidates) < |ShellCandidates|
    ensures DiscoveryPolls(allocID, task, logs).0 ==
      Done(Ok(ShellCandidates[FirstExecutable(executable, ShellCandidates)]))
  {
    var k := FirstExecutable(executable, ShellCandidates);
    assert Probe(executable, stopped).stdout == ShellCandidates[k] + "\n";
    assert LeadingRun(logs, Ok("")) == |logs| - 1;
    DiscoveryClosedForm(allocID, task, logs);
    CandidateLine(k);
  }

  /** The probe's failure message is no candidate shell. */
  lemma NoShellMessageIsNoCandidate()
    ensures NoShellMessage !in ShellCandidates
  {
    forall k | 0 <= k < |ShellCandidates|
      ensures ShellCandidates[k] != NoShellMessage
    {
      CandidateShape(k);
      assert NoShellMessage[0] == 'C';
    }
  }

  /**
   * As written, an image without any candidate shell makes the probe print its failure
   * message on stdout; once that output is the stdout log discovery reads, discovery
   * takes the message, which is no candidate, for the shell.
   */
  lemma NoShellMessageTakenAsShell(allocID: string, task: string, executable: set<string>, stopped: bool)
    requires FirstExecutable(executable, ShellCandidates) == |ShellCandidates|
    ensures DiscoveryPolls(allocID, task, [Ok(Probe(executable, stopped).stdout)]).0 == Done(Ok(NoShellMessage))
    ensures NoShellMessage !in ShellCandidates
  {
    assert Probe(executable, stopped).stdout == NoShellMessage + "\n";
    assert NoShellMessage[0] == 'C' && NoShellMessage[|NoShellMessage| - 1] == 'l';
    TrimmedLine(NoShellMessage);
    NoShellMessageIsNoCandidate();
  }

  /**
   * With the probe as intended, whatever the stdout log shows at each read, the empty
   * log or the probe's whole output, discovery can only yield a candidate shell.
   */
  lemma DiscoveryYieldsCandidate(
    allocID: string, task: string, logs: seq<Result<string>>, executable: set<string>, stopped: bool)
    requires forall j :: 0 <= j < |logs| ==> logs[j].Ok? ==>
      logs[j].value == "" || logs[j].value == ProbeIntended(executable, stopped).stdout
    ensures var found := DiscoveryPolls(allocID, task, logs).0;
      found.Done? && found.value.Ok? ==> found.value.value in ShellCandidates
  {
    DiscoveryClosedForm(allocID, task, logs);
    var k := LeadingRun(logs, Ok(""));
    if k < |logs| && logs[k].Ok? {
      var c := FirstExecutable(executable, ShellCandidates);
      assert logs[k].value == ProbeIntended(executable, stopped).stdout;
      if c < |ShellCandidates| {
        assert logs[k].value == ShellCandidates[c] + "\n";
        CandidateLine(c);
      }
    }
  }

  // ---------------------------------------------------------------- the phase

  /** How the script's execution ends the phase: its error, success on status 0, else a build error with the status. */
  function ExecVerdict(exec: Result<int>): (r: Option<Error>)
    ensures r.None? <==> exec == Ok(0)
    ensures exec.Err? ==> r == Some(exec.error)
    ensures exec.Ok? && exec.value != 0 ==> r == Some(GitlabBuildError(exec.value))
  {
    match exec
    case Err(e) => Some(e)
    case Ok(code) => if code != 0 then Some(GitlabBuildError(code)) else None
  }

  /**
   * The run phase, from the environment, the script file's contents (or the error
   * reading it), the stage name and the scheduler's responses.
   */
  method Run(env: map<string, string>, scriptFile: Result<string>, stage: string, s: Responses)
    returns (out: Outcome<Option<Error>>, effects: seq<Effect>)
    ensures "JOB_ENV_ID" !in env ==> out == Done(Some(Other(NoJobEnvID))) && effects == []
    ensures "JOB_ENV_ID" in env && scriptFile.Err? ==> out == Done(Some(scriptFile.error)) && effects == []
    ensures "JOB_ENV_ID" in env && scriptFile.Ok? ==>
      var (waited, waitTrace) := WaitSpec(env["JOB_ENV_ID"], s.allocations, s.allocation);
      && (AllocationVerdict(waited) != Done(None) ==> out == AllocationVerdict(waited) && effects == waitTrace)
      && (AllocationVerdict(waited) == Done(None) ==>
            var allocID := waited.value.alloc.value.id;
            var target := StageTarget(stage);
            var (found, discoveryTrace) := DiscoveryPolls(allocID, target, s.logs);
            && (found == StillPolling ==> out == StillPolling && effects == waitTrace + discoveryTrace)
            && (found.Done? && found.value.Err? ==>
                  out == Done(Some(found.value.error)) && effects == waitTrace + discoveryTrace)
            && (found.Done? && found.value.Ok? ==>
                  && out == Done(ExecVerdict(s.exec))
                  && effects == waitTrace + discoveryTrace + [Exec(allocID, target, [found.value.value], scriptFile.value)]))
  {
    effects := [];
    if "JOB_ENV_ID" !in env {
      out := Done(Some(Other(NoJobEnvID)));
      return;
    }
    var id := env["JOB_ENV_ID"];
    if scriptFile.Err? {
      out := Done(Some(scriptFile.error));
      return;
    }
    var script := scriptFile.value;
    var target := StageTarget(stage);

    var waited, waitTrace := WaitForAllocation(id, s.allocations, s.allocation);
    effects := waitTrace;
    var verdict := AllocationVerdict(waited);
    if verdict != Done(None) {
      out := verdict;
      return;
    }
    var alloc := waited.value.alloc.value;

    var found, discoveryTrace := DiscoverShell(alloc.id, target, s.logs);
    effects := effects + discoveryTrace;
    if !found.Done? {
      out := StillPolling;
      return;
    }
    if found.value.Err? {
      out := Done(Some(found.value.error));
      return;
    }
    var shell := found.value.value;

    effects := effects + [Exec(alloc.id, target, [shell], script)];
    out := Done(ExecVerdict(s.exec));
  }
}
