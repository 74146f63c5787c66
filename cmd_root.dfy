/**
 * The root command: loading the configuration file before any phase, and turning the
 * phase's error into the process exit code the CI host interprets.
 */
module Root {
  import opened GoErrors
  import opened GoStd
  import opened Gitlab
  import Run

  // ---------------------------------------------------------------- configuration file

  /** What reading the configuration file came to. */
  datatype ConfigRead = Loaded | NotFound | Failed(err: Error)

  /** The pre-run hook: a missing configuration file is ignored; any other read failure is fatal. */
  function PreRun(read: ConfigRead): (r: Option<Error>)
    ensures r.None? <==> !read.Failed?
    ensures read.Failed? ==> r == Some(Other("fatal error config file: " + ErrorText(read.err)))
  {
    match read
    case Failed(e) => Some(Other("fatal error config file: " + ErrorText(e)))
    case _ => None
  }

  // ---------------------------------------------------------------- exit codes

  /** The variables the CI host sets to tell the executor which codes mean what. */
  const SystemFailureVar: string := "SYSTEM_FAILURE_EXIT_CODE"
  const BuildFailureVar: string := "BUILD_FAILURE_EXIT_CODE"

  /** The exit code a variable names, or 1 when it is unset or not an integer. */
  function CodeFrom(env: map<string, string>, name: string): (code: int)
    ensures Atoi(Getenv(env, name)).None? ==> code == 1
    ensures Atoi(Getenv(env, name)).Some? ==> code == Atoi(Getenv(env, name)).value
  {
    match Atoi(Getenv(env, name))
    case Some(c) => c
    case None => 1
  }

  /**
   * The argument Execute passes to os.Exit, None when it returns normally. As written,
   * only an error of type *internals.BuildError selects the build failure code.
   */
  function ExitCode(err: Option<Error>, env: map<string, string>): (exit: Option<int>)
    ensures exit.None? <==> err.None?
    ensures err.Some? && !err.value.InternalsBuildErrorPtr? ==> exit == Some(CodeFrom(env, SystemFailureVar))
    ensures err.Some? && err.value.InternalsBuildErrorPtr? ==> exit == Some(CodeFrom(env, BuildFailureVar))
  {
    match err
    case None => None
    case Some(e) =>
      if e.InternalsBuildErrorPtr? then Some(CodeFrom(env, BuildFailureVar))
      else Some(CodeFrom(env, SystemFailureVar))
  }

  /** Execute after the command ran: parse the system code, re-parse for a build error, exit. */
  method Execute(err: Option<Error>, env: map<string, string>) returns (exit: Option<int>)
    ensures exit == ExitCode(err, env)
  {
    if err.None? {
      return None;
    }
    var failureCode := Atoi(Getenv(env, SystemFailureVar));
    if err.value.InternalsBuildErrorPtr? {
      failureCode := Atoi(Getenv(env, BuildFailureVar));
    }
    if failureCode.Some? {
      return Some(failureCode.value);
    }
    return Some(1);
  }

  /** Execute as intended: every build error, whichever package defines it, selects the build failure code. */
  function ExitCodeIntended(err: Option<Error>, env: map<string, string>): (exit: Option<int>)
    ensures exit.None? <==> err.None?
    ensures err.Some? && (err.value.GitlabBuildError? || err.value.InternalsBuildErrorPtr?) ==>
      exit == Some(CodeFrom(env, BuildFailureVar))
    ensures err.Some? && err.value.Other? ==> exit == Some(CodeFrom(env, SystemFailureVar))
  {
    match err
    case None => None
    case Some(e) =>
      if e.GitlabBuildError? || e.InternalsBuildErrorPtr? then Some(CodeFrom(env, BuildFailureVar))
      else Some(CodeFrom(env, SystemFailureVar))
  }

  /** The status the process ends with: 0 when Execute returns, else the low byte of os.Exit's argument. */
  function ExitStatus(exit: Option<int>): (status: int)
    ensures 0 <= status < 256
    ensures exit.None? ==> status == 0
    ensures exit.Some? && 0 <= exit.value < 256 ==> status == exit.value
    ensures exit.Some? ==> (exit.value - status) % 256 == 0
  {
    match exit
    case None => 0
    case Some(code) => code % 256
  }

  /**
   * An error never ends the process with status 0 unless the CI host asked for 0: with
   * neither variable naming a multiple of 256, every error exits non-zero, as written
   * and as intended.
   */
  lemma ErrorsNeverExitZero(err: Option<Error>, env: map<string, string>)
    requires err.Some?
    requires CodeFrom(env, SystemFailureVar) % 256 != 0 && CodeFrom(env, BuildFailureVar) % 256 != 0
    ensures ExitStatus(ExitCode(err, env)) != 0
    ensures ExitStatus(ExitCodeIntended(err, env)) != 0
  {
  }

  /**
   * As written, a script that fails with status c (run's build error) exits with the
   * system failure code: with SYSTEM_FAILURE_EXIT_CODE=1 and BUILD_FAILURE_EXIT_CODE=2,
   * a script exiting 137 ends the phase with 1 rather than 2.
   */
  lemma ScriptFailureReportedAsSystemFailure(c: int)
    requires c != 0
    ensures var env := map[SystemFailureVar := "1", BuildFailureVar := "2"];
      && ExitCode(Run.ExecVerdict(Ok(c)), env) == Some(1)
      && ExitCodeIntended(Run.ExecVerdict(Ok(c)), env) == Some(2)
  {
    var env := map[SystemFailureVar := "1", BuildFailureVar := "2"];
    assert Getenv(env, SystemFailureVar) == "1" && Getenv(env, BuildFailureVar) == "2";
    assert Atoi("1") == Some(1) by {
      assert DigitsValue("1") == DigitsValue("") * 10 + 1;
    }
    assert Atoi("2") == Some(2) by {
      assert DigitsValue("2") == DigitsValue("") * 10 + 2;
    }
  }

  /**
   * As intended, run's outcome reaches the CI host with the right code: a failing
   * script with the build failure code, a failure of the executor itself with the
   * system failure code, success with status 0.
   */
  lemma RunOutcomeClassified(exec: Result<int>, env: map<string, string>)
    ensures exec.Ok? && exec.value != 0 ==>
      ExitCodeIntended(Run.ExecVerdict(exec), env) == Some(CodeFrom(env, BuildFailureVar))
    ensures exec.Err? && exec.error.Other? ==>
      ExitCodeIntended(Run.ExecVerdict(exec), env) == Some(CodeFrom(env, SystemFailureVar))
    ensures exec == Ok(0) ==> ExitStatus(ExitCodeIntended(Run.ExecVerdict(exec), env)) == 0
  {
  }
}
