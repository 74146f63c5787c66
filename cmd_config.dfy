/**
 * The `config` phase: the document that tells the CI host where builds and caches live
 * and which job ID the later phases find in JOB_ENV_ID.
 */
module ConfigCmd {
  import opened GoErrors
  import opened GoStd
  import opened Gitlab
  import Config

  const RunnerIDVar: string := "CUSTOM_ENV_CI_RUNNER_ID"
  const ProjectIDVar: string := "CUSTOM_ENV_CI_PROJECT_ID"
  const CIJobIDVar: string := "CUSTOM_ENV_CI_JOB_ID"
  const ProjectPathVar: string := "CUSTOM_ENV_CI_PROJECT_PATH"

  // ---------------------------------------------------------------- the job ID

  /** The fixed text around the three CI IDs in a job ID. */
  const RunnerTag: string := "runner-"
  const ProjectTag: string := "-project-"
  const JobTag: string := "-job-"

  /** The scheduler job ID for one CI job: "runner-<runner>-project-<project>-job-<job>". */
  function JobID(runner: string, project: string, job: string): (id: string)
    ensures HasPrefix(id, RunnerTag)
    ensures |id| == |RunnerTag| + |runner| + |ProjectTag| + |project| + |JobTag| + |job|
  {
    RunnerTag + (runner + (ProjectTag + (project + (JobTag + job))))
  }

  /** The job ID from the CI host's variables, each empty when unset. */
  function EnvJobID(env: map<string, string>): string {
    JobID(Getenv(env, RunnerIDVar), Getenv(env, ProjectIDVar), Getenv(env, CIJobIDVar))
  }

  /** The length of the run of decimal digits that `s` starts with. */
  function DigitRun(s: string): (n: nat)
    ensures n <= |s| && AllDigits(s[..n])
    ensures n < |s| ==> !IsDigit(s[n])
  {
    if s == [] || !IsDigit(s[0]) then 0
    else
      var n := 1 + DigitRun(s[1..]);
      assert s[..n] == [s[0]] + s[1..][..n - 1];
      n
  }

  /** The text after `tag` when `s` starts with it. */
  function After(tag: string, s: string): (r: Option<string>)
    ensures r.Some? <==> HasPrefix(s, tag)
    ensures r.Some? ==> s == tag + r.value
  {
    if tag <= s then
      assert s == s[..|tag|] + s[|tag|..];
      Some(s[|tag|..])
    else None
  }

  /**
   * Reading a job ID back into its runner, project and job IDs, each a run of digits;
   * None for any other text.
   */
  function ParseJobID(id: string): (r: Option<(string, string, string)>)
    ensures r.Some? ==> AllDigits(r.value.0) && AllDigits(r.value.1) && AllDigits(r.value.2)
  {
    match After(RunnerTag, id)
    case None => None
    case Some(a) =>
      var n := DigitRun(a);
      match After(ProjectTag, a[n..])
      case None => None
      case Some(b) =>
        var m := DigitRun(b);
        match After(JobTag, b[m..])
        case None => None
        case Some(c) => if AllDigits(c) then Some((a[..n], b[..m], c)) else None
  }

  /** Whatever ParseJobID accepts, JobID rebuilds: the parser drops no text. */
  lemma ParseJobIDInverse(id: string)
    ensures ParseJobID(id).Some? ==>
      JobID(ParseJobID(id).value.0, ParseJobID(id).value.1, ParseJobID(id).value.2) == id
  {
    if ParseJobID(id).Some? {
      var a := After(RunnerTag, id).value;
      var n := DigitRun(a);
      var b := After(ProjectTag, a[n..]).value;
      var m := DigitRun(b);
      var c := After(JobTag, b[m..]).value;
      assert ParseJobID(id) == Some((a[..n], b[..m], c));
      Rejoin(b, m, JobTag, c);
      Rejoin(a, n, ProjectTag, b);
      calc {
        JobID(a[..n], b[..m], c);
        RunnerTag + (a[..n] + (ProjectTag + (b[..m] + (JobTag + c))));
        RunnerTag + (a[..n] + (ProjectTag + b));
        RunnerTag + a;
        id;
      }
    }
  }

  /** Cutting `s` at `k` and gluing the pieces back together gives `s`. */
  lemma Rejoin(s: string, k: nat, tag: string, rest: string)
    requires k <= |s| && s[k..] == tag + rest
    ensures s[..k] + (tag + rest) == s
  {
    assert s == s[..k] + s[k..];
  }

  /** A run of digits followed by a non-digit is exactly that run. */
  lemma {:induction false} DigitRunStops(digits: string, rest: string)
    requires AllDigits(digits)
    requires rest != [] && !IsDigit(rest[0])
    ensures DigitRun(digits + rest) == |digits|
  {
    if digits != [] {
      assert (digits + rest)[1..] == digits[1..] + rest;
      DigitRunStops(digits[1..], rest);
    }
  }

  /** `tag` is exactly what After strips from `tag + rest`. */
  lemma AfterTag(tag: string, rest: string)
    ensures After(tag, tag + rest) == Some(rest)
  {
    assert tag <= tag + rest;
  }

  /** Numeric CI IDs are recovered from the job ID they form. */
  lemma JobIDRoundTrip(runner: string, project: string, job: string)
    requires AllDigits(runner) && AllDigits(project) && AllDigits(job)
    ensures ParseJobID(JobID(runner, project, job)) == Some((runner, project, job))
  {
    var b := project + (JobTag + job);
    var a := runner + (ProjectTag + b);
    AfterTag(RunnerTag, a);
    assert ProjectTag[0] == '-' && JobTag[0] == '-';
    DigitRunStops(runner, ProjectTag + b);
    assert a[..|runner|] == runner && a[|runner|..] == ProjectTag + b;
    AfterTag(ProjectTag, b);
    DigitRunStops(project, JobTag + job);
    assert b[..|project|] == project && b[|project|..] == JobTag + job;
    AfterTag(JobTag, job);
  }

  /** Two CI jobs with numeric IDs share a scheduler job ID only when all three IDs agree. */
  lemma JobIDInjective(r1: string, p1: string, j1: string, r2: string, p2: string, j2: string)
    requires AllDigits(r1) && AllDigits(p1) && AllDigits(j1)
    requires AllDigits(r2) && AllDigits(p2) && AllDigits(j2)
    requires JobID(r1, p1, j1) == JobID(r2, p2, j2)
    ensures r1 == r2 && p1 == p2 && j1 == j2
  {
    JobIDRoundTrip(r1, p1, j1);
    JobIDRoundTrip(r2, p2, j2);
  }

  // ---------------------------------------------------------------- the document

  /**
   * The `config` document: builds and caches under the allocation data directory,
   * joined (`join`, path.Join) with "builds" or "cache" and the project path, not
   * shared, and the job ID as JOB_ENV_ID; no driver, hostname or shell.
   */
  function ConfigOutput(env: map<string, string>, cfg: Config.Config, join: seq<string> -> string)
    : (out: ConfigExecOutput)
    ensures out.jobEnv == Some(map["JOB_ENV_ID" := EnvJobID(env)])
    ensures out.buildsDir == Some(join([cfg.job.allocDataDir, "builds", Getenv(env, ProjectPathVar)]))
    ensures out.cacheDir == Some(join([cfg.job.allocDataDir, "cache", Getenv(env, ProjectPathVar)]))
    ensures out.buildsDirIsShared == Some(false)
    ensures out.driver.None? && out.hostname.None? && out.shell.None?
  {
    var id := EnvJobID(env);
    var settings := map["JOB_ENV_ID" := id];
    var projectPath := Getenv(env, ProjectPathVar);
    ConfigExecOutput(
      None, None,
      Some(join([cfg.job.allocDataDir, "builds", projectPath])),
      Some(join([cfg.job.allocDataDir, "cache", projectPath])),
      Some(false),
      Some(settings),
      None)
  }

  /**
   * The JOB_ENV_ID the config phase hands to the later phases names the CI job it was
   * made for: with numeric CI IDs, it reads back as those IDs.
   */
  lemma ConfigNamesTheCIJob(env: map<string, string>, cfg: Config.Config, join: seq<string> -> string)
    requires AllDigits(Getenv(env, RunnerIDVar)) && AllDigits(Getenv(env, ProjectIDVar))
    requires AllDigits(Getenv(env, CIJobIDVar))
    ensures var jobEnv := ConfigOutput(env, cfg, join).jobEnv.value;
      && "JOB_ENV_ID" in jobEnv
      && ParseJobID(jobEnv["JOB_ENV_ID"]) ==
           Some((Getenv(env, RunnerIDVar), Getenv(env, ProjectIDVar), Getenv(env, CIJobIDVar)))
  {
    JobIDRoundTrip(Getenv(env, RunnerIDVar), Getenv(env, ProjectIDVar), Getenv(env, CIJobIDVar));
  }
}
