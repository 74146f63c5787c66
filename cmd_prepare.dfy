/**
 * The `prepare` phase: gather credentials, assemble the job specification, then
 * validate, register and wait for the job's allocation.
 */
module Prepare {
  import opened GoErrors
  import opened GoStd
  import opened NomadApi
  import opened Gitlab
  import Config
  import opened Internals

  // ---------------------------------------------------------------- the shell probe

  /** The shells the probe looks for, most preferred first. */
  const ShellCandidates: seq<string> := [
    "/usr/local/bin/bash", "/usr/bin/bash", "/bin/bash",
    "/usr/local/bin/sh", "/usr/bin/sh", "/bin/sh", "/busybox/sh"]

  const NoShellMessage: string := "Could not find compatible shell"

  /** The named pipe the probe blocks on until `cleanup` writes to it. */
  const StopTaskFifo: string := "/tmp/giruno/stop_task"

  /** Where each task finds the probe script at run time. */
  const ExecScriptPath: string := "${NOMAD_TASK_DIR}/exec_script.sh"

  /** The if/elif chain testing each candidate in turn, then the failure branch. */
  function ProbeBranches(candidates: seq<string>, first: bool): string {
    if candidates == [] then
      "else\n\techo \"" + NoShellMessage + "\"\n\texit 1\nfi\n"
    else
      (if first then "if" else "elif") + " [ -x " + candidates[0] + " ]; then\n"
      + "\techo \"" + candidates[0] + "\"\n"
      + ProbeBranches(candidates[1..], false)
  }

  /** The probe script: print the first executable shell, then block on the stop pipe. */
  const ExecScript: string :=
    "\n" + ProbeBranches(ShellCandidates, true)
    + "mkdir -p /tmp/giruno\nmkfifo " + StopTaskFifo + "\nread _ < " + StopTaskFifo + "\n"

  /** The template that installs the probe script into every task. */
  const ProbeTemplate: Template := Template(ExecScript, "local/exec_script.sh", "755")

  /** What the probe leaves behind: its two log streams, and its exit status once it exits. */
  datatype ProbeRun = ProbeRun(stdout: string, stderr: string, exit: Option<int>)

  /** The position of the first candidate that is executable, or |candidates|. */
  function FirstExecutable(executable: set<string>, candidates: seq<string>): (k: nat)
    ensures k <= |candidates|
    ensures k < |candidates| ==> candidates[k] in executable
    ensures forall j :: 0 <= j < k ==> candidates[j] !in executable
  {
    if candidates == [] || candidates[0] in executable then 0
    else 1 + FirstExecutable(executable, candidates[1..])
  }

  /**
   * The probe as written, for an image whose executable files are `executable` and a
   * stop pipe that has (`stopped`) or has not been written to: the first executable
   * candidate and a newline on stdout, then a wait that ends with status 0 once the
   * pipe is written; with no candidate, the failure message on stdout and status 1.
   */
  function Probe(executable: set<string>, stopped: bool): (r: ProbeRun)
    ensures r.stderr == ""
    ensures r.exit == Some(1) <==> forall k :: 0 <= k < |ShellCandidates| ==> ShellCandidates[k] !in executable
    ensures r.exit == Some(1) ==> r.stdout == NoShellMessage + "\n"
    ensures r.exit != Some(1) ==>
      && r.exit == (if stopped then Some(0) else None)
      && exists k :: (0 <= k < |ShellCandidates| && ShellCandidates[k] in executable
           && r.stdout == ShellCandidates[k] + "\n"
           && forall j :: 0 <= j < k ==> ShellCandidates[j] !in executable)
  {
    var k := FirstExecutable(executable, ShellCandidates);
    if k < |ShellCandidates| then ProbeRun(ShellCandidates[k] + "\n", "", if stopped then Some(0) else None)
    else ProbeRun(NoShellMessage + "\n", "", Some(1))
  }

  /**
   * The probe as intended: identical, except that the failure message goes to stderr,
   * so that stdout carries a shell path or nothing.
   */
  function ProbeIntended(executable: set<string>, stopped: bool): (r: ProbeRun)
    ensures r.exit == Some(1) <==> forall k :: 0 <= k < |ShellCandidates| ==> ShellCandidates[k] !in executable
    ensures r.exit == Some(1) ==> r.stdout == "" && r.stderr == NoShellMessage + "\n"
    ensures r.exit != Some(1) ==> r == Probe(executable, stopped)
  {
    var k := FirstExecutable(executable, ShellCandidates);
    if k < |ShellCandidates| then ProbeRun(ShellCandidates[k] + "\n", "", if stopped then Some(0) else None)
    else ProbeRun("", NoShellMessage + "\n", Some(1))
  }

  // ---------------------------------------------------------------- credentials

  /** One entry of the decoded Docker auth configuration, with its base64 decoding result. */
  datatype DockerAuthEntry = DockerAuthEntry(server: string, decoded: Result<string>)

  /** One write into the credential map: a domain and its credential. */
  type Write = (string, RegistryAuth)

  /** The credential map left by a sequence of writes, a later write replacing an earlier one. */
  function Merge(writes: seq<Write>): (m: map<string, RegistryAuth>)
    ensures writes != [] ==> writes[|writes| - 1].0 in m
  {
    if writes == [] then map[]
    else
      var last := writes[|writes| - 1];
      Merge(writes[..|writes| - 1])[last.0 := last.1]
  }

  /** Only written domains have a credential. */
  lemma {:induction false} MergeOnlyWritten(writes: seq<Write>, domain: string)
    requires domain in Merge(writes)
    ensures exists i :: 0 <= i < |writes| && writes[i].0 == domain
  {
    var last := writes[|writes| - 1];
    if domain != last.0 {
      MergeOnlyWritten(writes[..|writes| - 1], domain);
      var i :| 0 <= i < |writes| - 1 && writes[..|writes| - 1][i].0 == domain;
      assert writes[i].0 == domain;
    }
  }

  /** Every written domain has a credential. */
  lemma {:induction false} MergeWritten(writes: seq<Write>, i: nat)
    requires i < |writes|
    ensures writes[i].0 in Merge(writes)
  {
    if i < |writes| - 1 {
      MergeWritten(writes[..|writes| - 1], i);
    }
  }

  /** A domain maps to the credential of its last write. */
  lemma {:induction false} MergeLastWins(writes: seq<Write>, i: nat)
    requires i < |writes|
    requires forall j :: i < j < |writes| ==> writes[j].0 != writes[i].0
    ensures writes[i].0 in Merge(writes) && Merge(writes)[writes[i].0] == writes[i].1
  {
    if i < |writes| - 1 {
      MergeLastWins(writes[..|writes| - 1], i);
    }
  }

  /** A write that no later write repeats, after any earlier writes, decides its domain. */
  lemma MergeLaterWins(earlier: seq<Write>, later: seq<Write>, k: nat)
    requires k < |later|
    requires forall j :: k < j < |later| ==> later[j].0 != later[k].0
    ensures later[k].0 in Merge(earlier + later) && Merge(earlier + later)[later[k].0] == later[k].1
  {
    var writes := earlier + later;
    forall j | |earlier| + k < j < |writes|
      ensures writes[j].0 != writes[|earlier| + k].0
    {
      assert writes[j] == later[j - |earlier|];
    }
    MergeLastWins(writes, |earlier| + k);
  }

  /** One more write updates the map at its domain. */
  lemma MergeAppend(prior: seq<Write>, done: seq<Write>, w: Write)
    ensures Merge(prior + (done + [w])) == Merge(prior + done)[w.0 := w.1]
  {
    assert prior + (done + [w]) == (prior + done) + [w];
    assert ((prior + done) + [w])[..|prior + done|] == prior + done;
  }

  /** The environment variables that carry registry credentials, and the complaints about them. */
  const RegistryVar: string := "CUSTOM_ENV_CI_REGISTRY"
  const RegistryUserVar: string := "CUSTOM_ENV_CI_REGISTRY_USER"
  const RegistryPasswordVar: string := "CUSTOM_ENV_CI_REGISTRY_PASSWORD"
  const ProxyVar: string := "CUSTOM_ENV_CI_DEPENDENCY_PROXY_SERVER"
  const ProxyUserVar: string := "CUSTOM_ENV_CI_DEPENDENCY_PROXY_USER"
  const ProxyPasswordVar: string := "CUSTOM_ENV_CI_DEPENDENCY_PROXY_PASSWORD"
  const DockerAuthConfigVar: string := "CUSTOM_ENV_DOCKER_AUTH_CONFIG"
  const InvalidRegistryAuth: string := "invalid registry auth"
  const InvalidProxyAuth: string := "invalid dependency proxy auth"
  const InvalidDockerAuth: string := "invalid docker auth config"

  /**
   * The write a server variable and its user and password variables produce: none when
   * the server is unset or empty, the complaint when either credential is empty.
   */
  function EnvCredential(env: map<string, string>, serverVar: string, userVar: string, passwordVar: string, complaint: string)
    : (r: Result<seq<Write>>)
    ensures Getenv(env, serverVar) == "" ==> r == Ok([])
    ensures Getenv(env, serverVar) != "" && (Getenv(env, userVar) == "" || Getenv(env, passwordVar) == "") ==>
      r == Err(Other(complaint))
    ensures Getenv(env, serverVar) != "" && Getenv(env, userVar) != "" && Getenv(env, passwordVar) != "" ==>
      r == Ok([(Getenv(env, serverVar), RegistryAuth(Getenv(env, userVar), Getenv(env, passwordVar)))])
  {
    var server := Getenv(env, serverVar);
    if server == "" then Ok([])
    else
      var user := Getenv(env, userVar);
      var password := Getenv(env, passwordVar);
      if user == "" || password == "" then Err(Other(complaint))
      else Ok([(server, RegistryAuth(user, password))])
  }

  /** The CI registry's credential, then the dependency proxy's. */
  function EnvWrites(env: map<string, string>): Result<seq<Write>> {
    match EnvCredential(env, RegistryVar, RegistryUserVar,
                        RegistryPasswordVar, InvalidRegistryAuth)
    case Err(e) => Err(e)
    case Ok(registry) =>
      match EnvCredential(env, ProxyVar, ProxyUserVar,
                          ProxyPasswordVar, InvalidProxyAuth)
      case Err(e) => Err(e)
      case Ok(proxy) => Ok(registry + proxy)
  }

  /**
   * One Docker auth entry: its decoding error, or the decoded text split at its first
   * ':' into username and password; text without ':' is rejected.
   */
  function DockerEntryWrite(entry: DockerAuthEntry): (r: Result<Write>)
    ensures entry.decoded.Err? ==> r == Err(entry.decoded.error)
    ensures r.Ok? ==> entry.decoded.Ok? && r.value.0 == entry.server
  {
    match entry.decoded
    case Err(e) => Err(e)
    case Ok(text) =>
      var (username, password, found) := Cut(text, ':');
      if !found then Err(Other(InvalidDockerAuth))
      else Ok((entry.server, RegistryAuth(username, password)))
  }

  /**
   * A decoded entry is rejected exactly when its text has no ':'; otherwise the
   * username is the text before the first ':' and the password all after it.
   */
  lemma DockerEntrySplit(entry: DockerAuthEntry)
    requires entry.decoded.Ok?
    ensures var r := DockerEntryWrite(entry);
      && (r.Err? <==> ':' !in entry.decoded.value)
      && (r.Err? ==> r.error == Other(InvalidDockerAuth))
      && (r.Ok? ==>
            && ':' !in r.value.1.username
            && r.value.1.username + ":" + r.value.1.password == entry.decoded.value)
  {
  }

  /** The writes of all Docker auth entries in iteration order, or the first entry's failure. */
  function DockerWrites(entries: seq<DockerAuthEntry>): Result<seq<Write>> {
    if entries == [] then Ok([])
    else
      match DockerEntryWrite(entries[0])
      case Err(e) => Err(e)
      case Ok(w) =>
        match DockerWrites(entries[1..])
        case Err(e) => Err(e)
        case Ok(ws) => Ok([w] + ws)
  }

  /** When DockerWrites succeeds, it holds one write per entry, each that entry's write. */
  lemma {:induction false} DockerWritesAccepted(entries: seq<DockerAuthEntry>)
    requires DockerWrites(entries).Ok?
    ensures |DockerWrites(entries).value| == |entries|
    ensures forall i :: 0 <= i < |entries| ==> DockerEntryWrite(entries[i]) == Ok(DockerWrites(entries).value[i])
  {
    if entries != [] {
      DockerWritesAccepted(entries[1..]);
      var ws := DockerWrites(entries).value;
      assert ws[1..] == DockerWrites(entries[1..]).value;
      forall i | 1 <= i < |entries|
        ensures DockerEntryWrite(entries[i]) == Ok(ws[i])
      {
        assert entries[i] == entries[1..][i - 1];
      }
    }
  }

  /** A failure of DockerWrites is the failure of the first entry that is rejected. */
  lemma {:induction false} DockerWritesFailure(entries: seq<DockerAuthEntry>)
    requires DockerWrites(entries).Err?
    ensures exists k :: (0 <= k < |entries| && DockerEntryWrite(entries[k]) == Err(DockerWrites(entries).error)
      && forall j :: 0 <= j < k ==> DockerEntryWrite(entries[j]).Ok?)
  {
    if DockerEntryWrite(entries[0]).Ok? {
      DockerWritesFailure(entries[1..]);
      var k :| 0 <= k < |entries[1..]| && DockerEntryWrite(entries[1..][k]) == Err(DockerWrites(entries).error)
        && forall j :: 0 <= j < k ==> DockerEntryWrite(entries[1..][j]).Ok?;
      assert DockerEntryWrite(entries[k + 1]) == Err(DockerWrites(entries).error);
      assert forall j :: 1 <= j < k + 1 ==> DockerEntryWrite(entries[j]) == DockerEntryWrite(entries[1..][j - 1]);
    } else {
      assert DockerEntryWrite(entries[0]) == Err(DockerWrites(entries).error);
    }
  }

  /**
   * The credential map of the prepare phase, from the environment and, when
   * CUSTOM_ENV_DOCKER_AUTH_CONFIG is set and non-empty, its decoding
   * (`dockerAuthConfig`, entries in iteration order).
   */
  function AuthsSpec(env: map<string, string>, dockerAuthConfig: Result<seq<DockerAuthEntry>>)
    : Result<map<string, RegistryAuth>>
  {
    match EnvWrites(env)
    case Err(e) => Err(e)
    case Ok(envWrites) =>
      if Getenv(env, DockerAuthConfigVar) == "" then Ok(Merge(envWrites))
      else
        match dockerAuthConfig
        case Err(e) => Err(e)
        case Ok(entries) =>
          match DockerWrites(entries)
          case Err(e) => Err(e)
          case Ok(dockerWrites) => Ok(Merge(envWrites + dockerWrites))
  }

  /** Building the credential map one write at a time. */
  method RegistryAuths(env: map<string, string>, dockerAuthConfig: Result<seq<DockerAuthEntry>>)
    returns (r: Result<map<string, RegistryAuth>>)
    ensures r == AuthsSpec(env, dockerAuthConfig)
  {
    var auths: map<string, RegistryAuth> := map[];
    ghost var registryWrites: seq<Write> := [];
    var registry := Getenv(env, RegistryVar);
    if registry != "" {
      var user := Getenv(env, RegistryUserVar);
      var password := Getenv(env, RegistryPasswordVar);
      if user == "" || password == "" {
        assert EnvWrites(env) == Err(Other(InvalidRegistryAuth));
        return Err(Other(InvalidRegistryAuth));
      }
      auths := auths[registry := RegistryAuth(user, password)];
      registryWrites := [(registry, RegistryAuth(user, password))];
    }
    assert EnvCredential(env, RegistryVar, RegistryUserVar, RegistryPasswordVar, InvalidRegistryAuth) == Ok(registryWrites);
    assert auths == Merge(registryWrites);
    ghost var proxyWrites: seq<Write> := [];
    var proxy := Getenv(env, ProxyVar);
    if proxy != "" {
      var user := Getenv(env, ProxyUserVar);
      var password := Getenv(env, ProxyPasswordVar);
      if user == "" || password == "" {
        assert EnvWrites(env) == Err(Other(InvalidProxyAuth));
        return Err(Other(InvalidProxyAuth));
      }
      var w := (proxy, RegistryAuth(user, password));
      proxyWrites := [w];
      MergeAppend([], registryWrites, w);
      assert [] + (registryWrites + [w]) == registryWrites + proxyWrites && [] + registryWrites == registryWrites;
      auths := auths[proxy := RegistryAuth(user, password)];
    } else {
      assert registryWrites + proxyWrites == registryWrites;
    }
    assert EnvCredential(env, ProxyVar, ProxyUserVar, ProxyPasswordVar, InvalidProxyAuth) == Ok(proxyWrites);
    ghost var written := registryWrites + proxyWrites;
    assert auths == Merge(written);
    assert EnvWrites(env) == Ok(written);
    if Getenv(env, DockerAuthConfigVar) == "" {
      return Ok(auths);
    }
    if dockerAuthConfig.Err? {
      return Err(dockerAuthConfig.error);
    }
    r := AddDockerAuths(auths, dockerAuthConfig.value, written);
  }

  /** The writes `done` made before the rest of the entries, ahead of theirs. */
  function Extend(done: seq<Write>, rest: Result<seq<Write>>): Result<seq<Write>> {
    match rest
    case Err(e) => Err(e)
    case Ok(ws) => Ok(done + ws)
  }

  /** DockerWrites on a non-empty sequence: the first entry's failure, or its write ahead of the rest. */
  lemma DockerWritesUnfold(entries: seq<DockerAuthEntry>)
    requires entries != []
    ensures DockerEntryWrite(entries[0]).Err? ==> DockerWrites(entries) == Err(DockerEntryWrite(entries[0]).error)
    ensures DockerEntryWrite(entries[0]).Ok? ==>
      DockerWrites(entries) == Extend([DockerEntryWrite(entries[0]).value], DockerWrites(entries[1..]))
  {
  }

  /**
   * One step through the Docker auth entries still to do (`tail`), with `done` the
   * writes before them: a rejected first entry is the overall failure; an accepted
   * one joins `done`.
   */
  lemma DockerWritesStep(done: seq<Write>, tail: seq<DockerAuthEntry>)
    requires tail != []
    ensures DockerEntryWrite(tail[0]).Err? ==> Extend(done, DockerWrites(tail)) == Err(DockerEntryWrite(tail[0]).error)
    ensures DockerEntryWrite(tail[0]).Ok? ==>
      Extend(done, DockerWrites(tail)) == Extend(done + [DockerEntryWrite(tail[0]).value], DockerWrites(tail[1..]))
  {
    DockerWritesUnfold(tail);
    var written := DockerEntryWrite(tail[0]);
    var rest := DockerWrites(tail[1..]);
    if written.Ok? && rest.Ok? {
      assert done + ([written.value] + rest.value) == (done + [written.value]) + rest.value;
    }
  }

  /** The Docker auth part of RegistryAuths: one write per entry, stopping at the first rejected entry. */
  method AddDockerAuths(auths: map<string, RegistryAuth>, entries: seq<DockerAuthEntry>, ghost prior: seq<Write>)
    returns (r: Result<map<string, RegistryAuth>>)
    requires auths == Merge(prior)
    ensures DockerWrites(entries).Err? ==> r == Err(DockerWrites(entries).error)
    ensures DockerWrites(entries).Ok? ==> r == Ok(Merge(prior + DockerWrites(entries).value))
  {
    var current := auths;
    ghost var done: seq<Write> := [];
    assert prior + done == prior && entries[0..] == entries;
    assert DockerWrites(entries).Ok? ==> done + DockerWrites(entries).value == DockerWrites(entries).value;
    var i := 0;
    while i < |entries|
      invariant 0 <= i <= |entries|
      invariant DockerWrites(entries) == Extend(done, DockerWrites(entries[i..]))
      invariant current == Merge(prior + done)
    {
      var written := DockerEntryWrite(entries[i]);
      DockerWritesStep(done, entries[i..]);
      assert entries[i..][0] == entries[i] && entries[i..][1..] == entries[i + 1..];
      if written.Err? {
        return Err(written.error);
      }
      var w := written.value;
      MergeAppend(prior, done, w);
      current := current[w.0 := w.1];
      done := done + [w];
      i := i + 1;
    }
    assert entries[i..] == [] && done + [] == done;
    return Ok(current);
  }

  /** When every entry before k is accepted and entry k is not, entry k's error is the result. */
  lemma {:induction false} DockerWritesFailFirst(entries: seq<DockerAuthEntry>, k: nat)
    requires k < |entries|
    requires forall j :: 0 <= j < k ==> DockerEntryWrite(entries[j]).Ok?
    requires DockerEntryWrite(entries[k]).Err?
    ensures DockerWrites(entries) == Err(DockerEntryWrite(entries[k]).error)
  {
    if k > 0 {
      DockerWritesFailFirst(entries[1..], k - 1);
    }
  }

  /** When every entry is accepted, the writes are exactly the entries' writes. */
  lemma {:induction false} DockerWritesAllOk(entries: seq<DockerAuthEntry>, writes: seq<Write>)
    requires |writes| == |entries|
    requires forall j :: 0 <= j < |entries| ==> DockerEntryWrite(entries[j]) == Ok(writes[j])
    ensures DockerWrites(entries) == Ok(writes)
  {
    if entries != [] {
      var rest := entries[1..];
      forall j | 0 <= j < |rest|
        ensures DockerEntryWrite(rest[j]) == Ok(writes[1..][j])
      {
        assert rest[j] == entries[j + 1] && writes[1..][j] == writes[j + 1];
      }
      DockerWritesAllOk(rest, writes[1..]);
      DockerWritesUnfold(entries);
      assert DockerEntryWrite(entries[0]) == Ok(writes[0]);
      assert writes == [writes[0]] + writes[1..];
    }
  }

  /**
   * The CI registry, the dependency proxy and every Docker auth entry each get a
   * credential, and a Docker auth entry overrides the variables for its server: for an
   * entry whose server no later entry repeats, the map holds that entry's text split
   * at its first ':'.
   */
  lemma DockerAuthOverrides(env: map<string, string>, entries: seq<DockerAuthEntry>, k: nat)
    requires AuthsSpec(env, Ok(entries)).Ok?
    requires Getenv(env, DockerAuthConfigVar) != ""
    requires k < |entries|
    requires forall j :: k < j < |entries| ==> entries[j].server != entries[k].server
    ensures var m := AuthsSpec(env, Ok(entries)).value;
      && entries[k].decoded.Ok?
      && entries[k].server in m
      && ':' !in m[entries[k].server].username
      && m[entries[k].server].username + ":" + m[entries[k].server].password == entries[k].decoded.value
  {
    var dockerWrites := DockerWrites(entries).value;
    DockerWritesAccepted(entries);
    DockerEntrySplit(entries[k]);
    forall j | k < j < |dockerWrites|
      ensures dockerWrites[j].0 != dockerWrites[k].0
    {
      assert DockerEntryWrite(entries[j]) == Ok(dockerWrites[j]);
    }
    MergeLaterWins(EnvWrites(env).value, dockerWrites, k);
  }

  /**
   * Without Docker auth configuration, a dependency proxy on the registry's own server
   * replaces the registry's credential.
   */
  lemma ProxyOverridesRegistry(env: map<string, string>, dockerAuthConfig: Result<seq<DockerAuthEntry>>)
    requires AuthsSpec(env, dockerAuthConfig).Ok?
    requires Getenv(env, DockerAuthConfigVar) == ""
    requires Getenv(env, ProxyVar) != ""
    ensures var m := AuthsSpec(env, dockerAuthConfig).value;
      var proxy := Getenv(env, ProxyVar);
      proxy in m && m[proxy] == RegistryAuth(Getenv(env, ProxyUserVar),
                                              Getenv(env, ProxyPasswordVar))
  {
    var writes := EnvWrites(env).value;
    MergeLastWins(writes, |writes| - 1);
  }

  // ---------------------------------------------------------------- the job specification

  /** The data each task type's configuration template is rendered with. */
  datatype TaskData =
    | JobTaskData(image: string, entrypoint: seq<string>, execScript: string, auth: Option<RegistryAuth>)
    | HelperTaskData(image: string, execScript: string, auth: Option<RegistryAuth>)
    | ServiceTaskData(service: JobService, auth: Option<RegistryAuth>)

  /**
   * The credential for an image: the entry of its registry domain, absent when there is
   * none. `domainOf` is the image-reference parser: None where it panics.
   */
  function AuthFor(auths: map<string, RegistryAuth>, domainOf: string -> Option<string>, image: string)
    : (r: Outcome<Option<RegistryAuth>>)
    ensures r.Panicked? <==> domainOf(image).None?
    ensures !r.StillPolling?
    ensures r.Done? ==> (r.value.Some? <==> domainOf(image).value in auths)
    ensures r.Done? && r.value.Some? ==> r.value.value == auths[domainOf(image).value]
  {
    match domainOf(image)
    case None => Panicked
    case Some(domain) => Done(if domain in auths then Some(auths[domain]) else None)
  }

  /** A task that CreateNomadTask built from task type t and data, before its name, leader flag and templates were set. */
  predicate BuiltFrom(task: Task, t: Config.TaskType, data: TaskData, engine: Config.TemplateEngine<TaskData>) {
    Config.CreateNomadTask(t, data, engine) == Done(Ok(task.(name := "", leader := false, templates := [])))
  }

  /** The image record of the job response file: absent, undecodable, or decoded. */
  type ImageRecord = Option<Result<JobResponseImage>>

  /** The errors prepare reports about the job response file's image record. */
  const NoImageData: string := "cannot extract image data from response file"
  const ImageUnmarshalPrefix: string := "cannot unmarshal image data from response file: "

  /** The three task types prepare needs are all configured. */
  predicate AllTypesPresent(cfg: Config.Config) {
    && Config.GetTaskType(cfg.job, "job").Ok?
    && Config.GetTaskType(cfg.job, "helper").Ok?
    && Config.GetTaskType(cfg.job, "service").Ok?
  }

  /**
   * `tasks` are the CI services' tasks: one per service in order, named after its image,
   * built from the service task type with the service and its image's credential.
   */
  predicate ServiceTasksFor(
    tasks: seq<Task>, serviceType: Config.TaskType, services: seq<JobService>,
    auths: map<string, RegistryAuth>, domainOf: string -> Option<string>, engine: Config.TemplateEngine<TaskData>)
  {
    && |tasks| == |services|
    && forall j :: 0 <= j < |services| ==>
         && tasks[j].name == services[j].name && !tasks[j].leader && tasks[j].templates == []
         && AuthFor(auths, domainOf, services[j].name).Done?
         && BuiltFrom(tasks[j], serviceType,
              ServiceTaskData(services[j], AuthFor(auths, domainOf, services[j].name).value), engine)
  }

  /** The leader task "job" and the task "helper", both carrying the probe template. */
  predicate LeadTasksFor(
    jobTask: Task, helperTask: Task, cfg: Config.Config, image: string, entrypoint: seq<string>,
    auths: map<string, RegistryAuth>, domainOf: string -> Option<string>, engine: Config.TemplateEngine<TaskData>)
    requires Config.GetTaskType(cfg.job, "job").Ok? && Config.GetTaskType(cfg.job, "helper").Ok?
  {
    && jobTask.name == "job" && jobTask.leader && jobTask.templates == [ProbeTemplate]
    && helperTask.name == "helper" && !helperTask.leader && helperTask.templates == [ProbeTemplate]
    && AuthFor(auths, domainOf, image).Done?
    && BuiltFrom(jobTask, Config.GetTaskType(cfg.job, "job").value,
         JobTaskData(image, entrypoint, ExecScriptPath, AuthFor(auths, domainOf, image).value), engine)
    && AuthFor(auths, domainOf, cfg.helperImage).Done?
    && BuiltFrom(helperTask, Config.GetTaskType(cfg.job, "helper").value,
         HelperTaskData(cfg.helperImage, ExecScriptPath, AuthFor(auths, domainOf, cfg.helperImage).value), engine)
  }

  /**
   * `job` is the specification prepare builds: one group "job" that is never restarted
   * or rescheduled, holding the leader task "job" and the task "helper", then one task
   * per CI service in order; bridge networking and a sidecar binding the configured
   * upstreams exactly when there are upstreams.
   */
  predicate IsJobSpecFor(
    job: Job, id: string, cfg: Config.Config, image: string, entrypoint: seq<string>,
    services: seq<JobService>, auths: map<string, RegistryAuth>, domainOf: string -> Option<string>,
    engine: Config.TemplateEngine<TaskData>)
  {
    && AllTypesPresent(cfg)
    && job.id == id && job.jobType == "batch" && job.datacenters == cfg.job.datacenters
    && |job.taskGroups| == 1
    && var g := job.taskGroups[0];
    && g.name == "job" && g.restartAttempts == 0 && g.rescheduleAttempts == 0 && !g.rescheduleUnlimited
    && |g.tasks| >= 2
    && LeadTasksFor(g.tasks[0], g.tasks[1], cfg, image, entrypoint, auths, domainOf, engine)
    && ServiceTasksFor(g.tasks[2..], Config.GetTaskType(cfg.job, "service").value, services, auths, domainOf, engine)
    && (|cfg.job.upstreams| > 0 ==> g.networks == [NetworkResource("bridge")] && g.services == [Service(cfg.job.upstreams)])
    && (|cfg.job.upstreams| == 0 ==> g.networks == [] && g.services == [])
  }

  /** Every image name parses and every driver configuration converts. */
  ghost predicate NeverPanics(domainOf: string -> Option<string>, engine: Config.TemplateEngine<TaskData>) {
    && (forall x :: domainOf(x).Some?)
    && (forall v :: engine.convert(v).Some?)
  }

  /**
   * The task for one image: its credential, then the task type's task built with the
   * data `data` with that credential as its Auth.
   */
  function TaskForImage(
    t: Config.TaskType, image: string, data: TaskData,
    auths: map<string, RegistryAuth>, domainOf: string -> Option<string>, engine: Config.TemplateEngine<TaskData>)
    : (r: Outcome<Result<Task>>)
    ensures !r.StillPolling?
    ensures NeverPanics(domainOf, engine) ==> !r.Panicked?
    ensures r.Done? && r.value.Ok? ==>
      AuthFor(auths, domainOf, image).Done? && BuiltFrom(r.value.value, t, data.(auth := AuthFor(auths, domainOf, image).value), engine)
      && r.value.value.name == "" && !r.value.value.leader && r.value.value.templates == []
    ensures AuthFor(auths, domainOf, image).Panicked? ==> r.Panicked?
    ensures AuthFor(auths, domainOf, image).Done? ==>
      r == Config.CreateNomadTask(t, data.(auth := AuthFor(auths, domainOf, image).value), engine)
  {
    match AuthFor(auths, domainOf, image)
    case Done(auth) => Config.CreateNomadTask(t, data.(auth := auth), engine)
    case Panicked => Panicked
    case StillPolling => StillPolling
  }

  /** The leader task's creation, for the job image and its entrypoint. */
  function JobTask(
    t: Config.TaskType, image: string, entrypoint: seq<string>,
    auths: map<string, RegistryAuth>, domainOf: string -> Option<string>, engine: Config.TemplateEngine<TaskData>)
    : Outcome<Result<Task>>
  {
    TaskForImage(t, image, JobTaskData(image, entrypoint, ExecScriptPath, None), auths, domainOf, engine)
  }

  /** The helper task's creation, for the configured helper image. */
  function HelperTask(
    t: Config.TaskType, helperImage: string,
    auths: map<string, RegistryAuth>, domainOf: string -> Option<string>, engine: Config.TemplateEngine<TaskData>)
    : Outcome<Result<Task>>
  {
    TaskForImage(t, helperImage, HelperTaskData(helperImage, ExecScriptPath, None), auths, domainOf, engine)
  }

  /** One CI service's task creation, for the service's image. */
  function ServiceTask(
    t: Config.TaskType, service: JobService,
    auths: map<string, RegistryAuth>, domainOf: string -> Option<string>, engine: Config.TemplateEngine<TaskData>)
    : Outcome<Result<Task>>
  {
    TaskForImage(t, service.name, ServiceTaskData(service, None), auths, domainOf, engine)
  }

  /** A task creation that produced a task. */
  predicate Created(created: Outcome<Result<Task>>) {
    created.Done? && created.value.Ok?
  }

  /**
   * A stage of the assembly that creates a task: its error or its panic ends the
   * assembly there; a created task hands over to the stages after it (`next`).
   */
  function Then(created: Outcome<Result<Task>>, next: Outcome<Option<Error>>): Outcome<Option<Error>> {
    match created
    case Done(Ok(_)) => next
    case Done(Err(e)) => Done(Some(e))
    case Panicked => Panicked
    case StillPolling => StillPolling
  }

  /** How the loop over the CI services ends: at the first service whose task is not created, or with None. */
  function ServicesVerdict(
    t: Config.TaskType, services: seq<JobService>,
    auths: map<string, RegistryAuth>, domainOf: string -> Option<string>, engine: Config.TemplateEngine<TaskData>)
    : Outcome<Option<Error>>
  {
    if services == [] then Done(None)
    else Then(ServiceTask(t, services[0], auths, domainOf, engine), ServicesVerdict(t, services[1..], auths, domainOf, engine))
  }

  /**
   * How building the job and helper tasks ends, stage by stage in the order of the
   * source: the "job" lookup, the image record, the job task, the "helper" lookup, the
   * helper task; the first stage that fails decides, and None when none does.
   */
  function LeadVerdict(
    cfg: Config.Config, image: string, imageRecord: ImageRecord,
    auths: map<string, RegistryAuth>, domainOf: string -> Option<string>, engine: Config.TemplateEngine<TaskData>)
    : Outcome<Option<Error>>
  {
    var jobType := Config.GetTaskType(cfg.job, "job");
    var helperType := Config.GetTaskType(cfg.job, "helper");
    if jobType.Err? then Done(Some(jobType.error))
    else if imageRecord.None? then Done(Some(Other(NoImageData)))
    else if imageRecord.value.Err? then Done(Some(Other(ImageUnmarshalPrefix + ErrorText(imageRecord.value.error))))
    else
      Then(JobTask(jobType.value, image, imageRecord.value.value.entrypoint, auths, domainOf, engine),
        if helperType.Err? then Done(Some(helperType.error))
        else Then(HelperTask(helperType.value, cfg.helperImage, auths, domainOf, engine), Done(None)))
  }

  /** How assembling the job specification ends: the lead tasks, the "service" lookup, then the services. */
  function AssemblyVerdict(
    cfg: Config.Config, image: string, imageRecord: ImageRecord, services: seq<JobService>,
    auths: map<string, RegistryAuth>, domainOf: string -> Option<string>, engine: Config.TemplateEngine<TaskData>)
    : Outcome<Option<Error>>
  {
    var serviceType := Config.GetTaskType(cfg.job, "service");
    match LeadVerdict(cfg, image, imageRecord, auths, domainOf, engine)
    case Done(None) =>
      if serviceType.Err? then Done(Some(serviceType.error))
      else ServicesVerdict(serviceType.value, services, auths, domainOf, engine)
    case other => other
  }

  /** Once the "job" type and the image record are in hand, the job task, the "helper" lookup and the helper task decide in turn. */
  lemma LeadStages(
    cfg: Config.Config, image: string, imageRecord: ImageRecord,
    auths: map<string, RegistryAuth>, domainOf: string -> Option<string>, engine: Config.TemplateEngine<TaskData>)
    ensures var jobType := Config.GetTaskType(cfg.job, "job");
      var helperType := Config.GetTaskType(cfg.job, "helper");
      var v := LeadVerdict(cfg, image, imageRecord, auths, domainOf, engine);
      jobType.Ok? && imageRecord.Some? && imageRecord.value.Ok? ==>
        var jobTask := JobTask(jobType.value, image, imageRecord.value.value.entrypoint, auths, domainOf, engine);
        && (!Created(jobTask) ==> v == Then(jobTask, Done(None)))
        && (Created(jobTask) && helperType.Err? ==> v == Done(Some(helperType.error)))
        && (Created(jobTask) && helperType.Ok? ==>
              v == Then(HelperTask(helperType.value, cfg.helperImage, auths, domainOf, engine), Done(None)))
  {
  }

  /** The created job and helper tasks, named, flagged and given the probe template, are the lead tasks. */
  lemma LeadTasksBuilt(
    cfg: Config.Config, image: string, entrypoint: seq<string>,
    auths: map<string, RegistryAuth>, domainOf: string -> Option<string>, engine: Config.TemplateEngine<TaskData>)
    requires Config.GetTaskType(cfg.job, "job").Ok? && Config.GetTaskType(cfg.job, "helper").Ok?
    requires Created(JobTask(Config.GetTaskType(cfg.job, "job").value, image, entrypoint, auths, domainOf, engine))
    requires Created(HelperTask(Config.GetTaskType(cfg.job, "helper").value, cfg.helperImage, auths, domainOf, engine))
    ensures LeadTasksFor(
      JobTask(Config.GetTaskType(cfg.job, "job").value, image, entrypoint, auths, domainOf, engine).value.value
        .(name := "job", leader := true, templates := [ProbeTemplate]),
      HelperTask(Config.GetTaskType(cfg.job, "helper").value, cfg.helperImage, auths, domainOf, engine).value.value
        .(name := "helper", templates := [ProbeTemplate]),
      cfg, image, entrypoint, auths, domainOf, engine)
  {
  }

  /** Assembly ends as the lead tasks do, unless they get through; then the "service" lookup and the services decide. */
  lemma AssemblyAfterLead(
    cfg: Config.Config, image: string, imageRecord: ImageRecord, services: seq<JobService>,
    auths: map<string, RegistryAuth>, domainOf: string -> Option<string>, engine: Config.TemplateEngine<TaskData>)
    ensures var lead := LeadVerdict(cfg, image, imageRecord, auths, domainOf, engine);
      var serviceType := Config.GetTaskType(cfg.job, "service");
      var v := AssemblyVerdict(cfg, image, imageRecord, services, auths, domainOf, engine);
      && (lead != Done(None) ==> v == lead)
      && (lead == Done(None) && serviceType.Err? ==> v == Done(Some(serviceType.error)))
      && (lead == Done(None) && serviceType.Ok? ==> v == ServicesVerdict(serviceType.value, services, auths, domainOf, engine))
  {
  }

  /** The loop over the CI services gets through exactly when every service's task is created. */
  lemma {:induction false} ServicesVerdictAllCreated(
    t: Config.TaskType, services: seq<JobService>,
    auths: map<string, RegistryAuth>, domainOf: string -> Option<string>, engine: Config.TemplateEngine<TaskData>)
    ensures ServicesVerdict(t, services, auths, domainOf, engine) == Done(None) <==>
      forall j :: 0 <= j < |services| ==> Created(ServiceTask(t, services[j], auths, domainOf, engine))
  {
    if services != [] {
      ServicesVerdictAllCreated(t, services[1..], auths, domainOf, engine);
      assert forall j :: 1 <= j < |services| ==> services[j] == services[1..][j - 1];
    }
  }

  /**
   * When the services before k all get their tasks and service k does not, the loop
   * ends with service k's error, or panics with it.
   */
  lemma {:induction false} ServicesVerdictFirstFailure(
    t: Config.TaskType, services: seq<JobService>, k: nat,
    auths: map<string, RegistryAuth>, domainOf: string -> Option<string>, engine: Config.TemplateEngine<TaskData>)
    requires k < |services|
    requires forall j :: 0 <= j < k ==> Created(ServiceTask(t, services[j], auths, domainOf, engine))
    requires !Created(ServiceTask(t, services[k], auths, domainOf, engine))
    ensures ServicesVerdict(t, services, auths, domainOf, engine) ==
      Then(ServiceTask(t, services[k], auths, domainOf, engine), Done(None))
  {
    if k > 0 {
      assert Created(ServiceTask(t, services[0], auths, domainOf, engine));
      assert forall j :: 0 <= j < k - 1 ==> services[1..][j] == services[j + 1];
      ServicesVerdictFirstFailure(t, services[1..], k - 1, auths, domainOf, engine);
    }
  }

  /** When every image name parses and every driver configuration converts, no service's task creation panics. */
  lemma {:induction false} ServicesNeverPanic(
    t: Config.TaskType, services: seq<JobService>,
    auths: map<string, RegistryAuth>, domainOf: string -> Option<string>, engine: Config.TemplateEngine<TaskData>)
    requires NeverPanics(domainOf, engine)
    ensures !ServicesVerdict(t, services, auths, domainOf, engine).Panicked?
  {
    if services != [] {
      ServicesNeverPanic(t, services[1..], auths, domainOf, engine);
    }
  }

  /**
   * Assembly gets through when all three task types are configured, the image record
   * decodes and every task is created.
   */
  lemma AssemblySucceeds(
    cfg: Config.Config, image: string, imageRecord: ImageRecord, services: seq<JobService>,
    auths: map<string, RegistryAuth>, domainOf: string -> Option<string>, engine: Config.TemplateEngine<TaskData>)
    requires AllTypesPresent(cfg) && imageRecord.Some? && imageRecord.value.Ok?
    requires Created(JobTask(Config.GetTaskType(cfg.job, "job").value, image, imageRecord.value.value.entrypoint,
                             auths, domainOf, engine))
    requires Created(HelperTask(Config.GetTaskType(cfg.job, "helper").value, cfg.helperImage, auths, domainOf, engine))
    requires forall j :: 0 <= j < |services| ==>
      Created(ServiceTask(Config.GetTaskType(cfg.job, "service").value, services[j], auths, domainOf, engine))
    ensures AssemblyVerdict(cfg, image, imageRecord, services, auths, domainOf, engine) == Done(None)
  {
    ServicesVerdictAllCreated(Config.GetTaskType(cfg.job, "service").value, services, auths, domainOf, engine);
  }

  /**
   * The loop that adds one task per CI service to the group, in order, each named after
   * its image; the first failure ends it.
   */
  method AddServiceTasks(
    group: TaskGroup, serviceType: Config.TaskType, services: seq<JobService>,
    auths: map<string, RegistryAuth>, domainOf: string -> Option<string>, engine: Config.TemplateEngine<TaskData>)
    returns (out: Outcome<Result<TaskGroup>>)
    ensures !out.StillPolling?
    ensures NeverPanics(domainOf, engine) ==> !out.Panicked?
    ensures out.Done? && out.value.Ok? ==>
      && out.value.value == group.(tasks := out.value.value.tasks)
      && |out.value.value.tasks| >= |group.tasks|
      && out.value.value.tasks == group.tasks + out.value.value.tasks[|group.tasks|..]
      && ServiceTasksFor(out.value.value.tasks[|group.tasks|..], serviceType, services, auths, domainOf, engine)
    ensures var v := ServicesVerdict(serviceType, services, auths, domainOf, engine);
      && (out.Done? && out.value.Ok? <==> v == Done(None))
      && (v.Done? && v.value.Some? ==> out == Done(Err(v.value.value)))
      && (out.Panicked? <==> v.Panicked?)
  {
    if NeverPanics(domainOf, engine) {
      ServicesNeverPanic(serviceType, services, auths, domainOf, engine);
    }
    var current := group;
    ghost var added: seq<Task> := [];
    var i := 0;
    while i < |services|
      invariant 0 <= i <= |services|
      invariant forall j :: 0 <= j < i ==> Created(ServiceTask(serviceType, services[j], auths, domainOf, engine))
      invariant current == group.(tasks := group.tasks + added)
      invariant ServiceTasksFor(added, serviceType, services[..i], auths, domainOf, engine)
    {
      var service := services[i];
      var created := ServiceTask(serviceType, service, auths, domainOf, engine);
      if !Created(created) {
        ServicesVerdictFirstFailure(serviceType, services, i, auths, domainOf, engine);
      }
      if created.Panicked? {
        return Panicked;
      }
      if created.value.Err? {
        return Done(Err(created.value.error));
      }
      var task := created.value.value.(name := service.name);
      ServiceTasksForAppend(added, task, serviceType, services[..i], service, auths, domainOf, engine);
      assert services[..i + 1] == services[..i] + [service];
      current := current.(tasks := current.tasks + [task]);
      added := added + [task];
      i := i + 1;
    }
    assert services[..i] == services;
    ServicesVerdictAllCreated(serviceType, services, auths, domainOf, engine);
    assert current.tasks[|group.tasks|..] == added;
    return Done(Ok(current));
  }

  /** A created service task, named after its image, extends the service tasks by that service. */
  lemma ServiceTasksForAppend(
    tasks: seq<Task>, task: Task, serviceType: Config.TaskType, services: seq<JobService>, service: JobService,
    auths: map<string, RegistryAuth>, domainOf: string -> Option<string>, engine: Config.TemplateEngine<TaskData>)
    requires ServiceTasksFor(tasks, serviceType, services, auths, domainOf, engine)
    requires Created(ServiceTask(serviceType, service, auths, domainOf, engine))
    requires task == ServiceTask(serviceType, service, auths, domainOf, engine).value.value.(name := service.name)
    ensures ServiceTasksFor(tasks + [task], serviceType, services + [service], auths, domainOf, engine)
  {
    var all := services + [service];
    assert all[|services|] == service;
    assert BuiltFrom(task, serviceType, ServiceTaskData(service, AuthFor(auths, domainOf, service.name).value), engine);
    forall j | 0 <= j < |services|
      ensures all[j] == services[j] && (tasks + [task])[j] == tasks[j]
    {
    }
  }

  /** The group networking prepare attaches: bridge mode and a sidecar, only when there are upstreams. */
  function GroupNetworking(upstreams: seq<ConsulUpstream>): (seq<NetworkResource>, seq<Service>) {
    if |upstreams| > 0 then ([NetworkResource("bridge")], [Service(upstreams)]) else ([], [])
  }

  /** A job assembled from lead tasks and service tasks that fit the configuration is its job specification. */
  lemma AssembledJobSpec(
    id: string, cfg: Config.Config, image: string, entrypoint: seq<string>,
    services: seq<JobService>, auths: map<string, RegistryAuth>, domainOf: string -> Option<string>,
    engine: Config.TemplateEngine<TaskData>, jobTask: Task, helperTask: Task, serviceTasks: seq<Task>)
    requires AllTypesPresent(cfg)
    requires LeadTasksFor(jobTask, helperTask, cfg, image, entrypoint, auths, domainOf, engine)
    requires ServiceTasksFor(serviceTasks, Config.GetTaskType(cfg.job, "service").value, services, auths, domainOf, engine)
    ensures var networking := GroupNetworking(cfg.job.upstreams);
      IsJobSpecFor(
        Job(id, "batch", cfg.job.datacenters,
            [TaskGroup("job", 0, 0, false, [jobTask, helperTask] + serviceTasks, networking.0, networking.1)]),
        id, cfg, image, entrypoint, services, auths, domainOf, engine)
  {
    assert ([jobTask, helperTask] + serviceTasks)[2..] == serviceTasks;
  }

  /**
   * The first part of the job specification: the task types "job" and "helper", the
   * image record, and the two tasks built from them, in that order.
   */
  method BuildLeadTasks(
    cfg: Config.Config, image: string, imageRecord: ImageRecord,
    auths: map<string, RegistryAuth>, domainOf: string -> Option<string>, engine: Config.TemplateEngine<TaskData>)
    returns (out: Outcome<Result<(Task, Task)>>)
    ensures !out.StillPolling?
    ensures NeverPanics(domainOf, engine) ==> !out.Panicked?
    ensures out.Done? && out.value.Ok? ==>
      && imageRecord.Some? && imageRecord.value.Ok?
      && Config.GetTaskType(cfg.job, "job").Ok? && Config.GetTaskType(cfg.job, "helper").Ok?
      && LeadTasksFor(out.value.value.0, out.value.value.1, cfg, image, imageRecord.value.value.entrypoint,
                      auths, domainOf, engine)
    ensures Config.GetTaskType(cfg.job, "job").Err? ==> out == Done(Err(Config.GetTaskType(cfg.job, "job").error))
    ensures Config.GetTaskType(cfg.job, "job").Ok? && imageRecord.None? ==>
      out == Done(Err(Other(NoImageData)))
    ensures Config.GetTaskType(cfg.job, "job").Ok? && imageRecord.Some? && imageRecord.value.Err? ==>
      out == Done(Err(Other(ImageUnmarshalPrefix + ErrorText(imageRecord.value.error))))
    ensures var v := LeadVerdict(cfg, image, imageRecord, auths, domainOf, engine);
      && (out.Done? && out.value.Ok? <==> v == Done(None))
      && (v.Done? && v.value.Some? ==> out == Done(Err(v.value.value)))
      && (out.Panicked? <==> v.Panicked?)
  {
    LeadStages(cfg, image, imageRecord, auths, domainOf, engine);
    var jobType := Config.GetTaskType(cfg.job, "job");
    if jobType.Err? {
      return Done(Err(jobType.error));
    }
    if imageRecord.None? {
      return Done(Err(Other(NoImageData)));
    }
    if imageRecord.value.Err? {
      return Done(Err(Other(ImageUnmarshalPrefix + ErrorText(imageRecord.value.error))));
    }
    var entrypoint := imageRecord.value.value.entrypoint;
    var created := JobTask(jobType.value, image, entrypoint, auths, domainOf, engine);
    if created.Panicked? {
      return Panicked;
    }
    if created.value.Err? {
      return Done(Err(created.value.error));
    }
    var jobTask := created.value.value.(name := "job", leader := true, templates := [ProbeTemplate]);

    var helperType := Config.GetTaskType(cfg.job, "helper");
    if helperType.Err? {
      return Done(Err(helperType.error));
    }
    created := HelperTask(helperType.value, cfg.helperImage, auths, domainOf, engine);
    if created.Panicked? {
      return Panicked;
    }
    if created.value.Err? {
      return Done(Err(created.value.error));
    }
    var helperTask := created.value.value.(name := "helper", templates := [ProbeTemplate]);
    LeadTasksBuilt(cfg, image, entrypoint, auths, domainOf, engine);
    return Done(Ok((jobTask, helperTask)));
  }

  /**
   * Assembling the job specification: the job and helper tasks, the group, the CI
   * services' tasks, then the networking. Task-type lookup errors, image record errors
   * and task creation errors are returned; an unparsable image name or an unconvertible
   * driver configuration panics.
   */
  method BuildJobSpec(
    id: string, cfg: Config.Config, image: string, imageRecord: ImageRecord,
    services: seq<JobService>, auths: map<string, RegistryAuth>, domainOf: string -> Option<string>,
    engine: Config.TemplateEngine<TaskData>)
    returns (out: Outcome<Result<Job>>)
    ensures !out.StillPolling?
    ensures out.Done? && out.value.Ok? ==>
      imageRecord.Some? && imageRecord.value.Ok?
      && IsJobSpecFor(out.value.value, id, cfg, image, imageRecord.value.value.entrypoint, services, auths, domainOf, engine)
    ensures Config.GetTaskType(cfg.job, "job").Err? ==> out == Done(Err(Config.GetTaskType(cfg.job, "job").error))
    ensures Config.GetTaskType(cfg.job, "job").Ok? && imageRecord.None? ==>
      out == Done(Err(Other(NoImageData)))
    ensures Config.GetTaskType(cfg.job, "job").Ok? && imageRecord.Some? && imageRecord.value.Err? ==>
      out == Done(Err(Other(ImageUnmarshalPrefix + ErrorText(imageRecord.value.error))))
    ensures Config.GetTaskType(cfg.job, "service").Err? ==> !(out.Done? && out.value.Ok?)
    ensures NeverPanics(domainOf, engine) ==> !out.Panicked?
    ensures var v := AssemblyVerdict(cfg, image, imageRecord, services, auths, domainOf, engine);
      && (out.Done? && out.value.Ok? <==> v == Done(None))
      && (v.Done? && v.value.Some? ==> out == Done(Err(v.value.value)))
      && (out.Panicked? <==> v.Panicked?)
  {
    AssemblyAfterLead(cfg, image, imageRecord, services, auths, domainOf, engine);
    var lead := BuildLeadTasks(cfg, image, imageRecord, auths, domainOf, engine);
    if lead.Panicked? {
      return Panicked;
    }
    if lead.value.Err? {
      return Done(Err(lead.value.error));
    }
    var (jobTask, helperTask) := lead.value.value;
    var group := TaskGroup("job", 0, 0, false, [jobTask, helperTask], [], []);

    var serviceType := Config.GetTaskType(cfg.job, "service");
    if serviceType.Err? {
      return Done(Err(serviceType.error));
    }
    var added := AddServiceTasks(group, serviceType.value, services, auths, domainOf, engine);
    if added.Panicked? {
      return Panicked;
    }
    if added.value.Err? {
      return Done(Err(added.value.error));
    }
    ghost var serviceTasks := added.value.value.tasks[2..];
    group := added.value.value;
    assert group.tasks == [jobTask, helperTask] + serviceTasks;

    if |cfg.job.upstreams| > 0 {
      group := group.(networks := [NetworkResource("bridge")], services := [Service(cfg.job.upstreams)]);
    }
    assert group == TaskGroup("job", 0, 0, false, [jobTask, helperTask] + serviceTasks,
                              GroupNetworking(cfg.job.upstreams).0, GroupNetworking(cfg.job.upstreams).1);
    AssembledJobSpec(id, cfg, image, imageRecord.value.value.entrypoint, services, auths, domainOf, engine,
                     jobTask, helperTask, serviceTasks);
    return Done(Ok(Job(id, "batch", cfg.job.datacenters, [group])));
  }

  // ---------------------------------------------------------------- the phase

  /** The environment variables the phase reads, and the errors it reports itself. */
  const JobImageVar: string := "CUSTOM_ENV_CI_JOB_IMAGE"
  const JobServicesVar: string := "CUSTOM_ENV_CI_JOB_SERVICES"
  const NoJobEnvID: string := "no JOB_ENV_ID set"
  const UnreadableResponsePrefix: string := "cannot read JOB_RESPONSE_FILE: "
  const UndecodableResponsePrefix: string := "cannot unmarshal JOB_RESPONSE_FILE: "
  const AllocationDead: string := "allocation is dead"

  /** The job response file: unreadable, not JSON, or decoded, with its image record. */
  datatype ResponseFile = Unreadable(readError: Error) | Undecodable(decodeError: Error) | Decoded(image: ImageRecord)

  /** The job image: CUSTOM_ENV_CI_JOB_IMAGE, or the configured default when it is empty. */
  function JobImage(env: map<string, string>, cfg: Config.Config): (image: string)
    ensures Getenv(env, JobImageVar) != "" ==> image == env[JobImageVar]
    ensures Getenv(env, JobImageVar) == "" ==> image == cfg.defaultImage
  {
    var image := Getenv(env, JobImageVar);
    if image == "" then cfg.defaultImage else image
  }

  /** The CI services: none when CUSTOM_ENV_CI_JOB_SERVICES is empty, else its decoding. */
  function JobServices(env: map<string, string>, decoded: Result<seq<JobService>>): Result<seq<JobService>> {
    if Getenv(env, JobServicesVar) == "" then Ok([]) else decoded
  }

  /**
   * How prepare and run judge WaitForAllocation's result: a dead allocation is reported
   * as such before any error is looked at.
   */
  function AllocationVerdict(waited: Outcome<Waited>): (r: Outcome<Option<Error>>)
    ensures waited.Done? && waited.value.dead ==> r == Done(Some(Other(AllocationDead)))
    ensures r == Done(None) <==> waited.Done? && !waited.value.dead && waited.value.err.None?
    ensures waited.Done? && !waited.value.dead ==> r == Done(waited.value.err)
    ensures !waited.Done? ==> r == (if waited.Panicked? then Panicked else StillPolling)
  {
    match waited
    case Done(w) =>
      if w.dead then Done(Some(Other(AllocationDead)))
      else if w.err.Some? then Done(w.err)
      else Done(None)
    case Panicked => Panicked
    case StillPolling => StillPolling
  }

  /** Every failure of WaitForAllocation reaches the user as AllocationDead. */
  lemma WaitFailureReportedAsDead(jobID: string, lists: seq<Result<seq<AllocStub>>>, info: Result<Allocation>)
    ensures var waited := WaitSpec(jobID, lists, info).0;
      waited.Done? && waited.value.err.Some? ==> AllocationVerdict(waited) == Done(Some(Other(AllocationDead)))
  {
  }

  /**
   * The prepare phase, from the environment, the configuration, the decoded inputs
   * (response file, CI services, Docker auth configuration), the image-reference parser,
   * the template engine and the scheduler's responses. `spec` is the job specification
   * that was submitted, if it got that far.
   */
  method Prepare(
    env: map<string, string>, cfg: Config.Config, responseFile: ResponseFile,
    services: Result<seq<JobService>>, dockerAuthConfig: Result<seq<DockerAuthEntry>>,
    domainOf: string -> Option<string>, engine: Config.TemplateEngine<TaskData>, s: Responses)
    returns (out: Outcome<Option<Error>>, effects: seq<Effect>, ghost spec: Option<Job>)
    ensures "JOB_ENV_ID" !in env ==> out == Done(Some(Other(NoJobEnvID))) && effects == []
    ensures "JOB_ENV_ID" in env && responseFile.Unreadable? ==>
      out == Done(Some(Other(UnreadableResponsePrefix + ErrorText(responseFile.readError))))
    ensures "JOB_ENV_ID" in env && responseFile.Undecodable? ==>
      out == Done(Some(Other(UndecodableResponsePrefix + ErrorText(responseFile.decodeError))))
    ensures "JOB_ENV_ID" in env && responseFile.Decoded? && JobServices(env, services).Err? ==>
      out == Done(Some(JobServices(env, services).error))
    ensures ("JOB_ENV_ID" in env && responseFile.Decoded? && JobServices(env, services).Ok?
      && AuthsSpec(env, dockerAuthConfig).Err?) ==>
      out == Done(Some(AuthsSpec(env, dockerAuthConfig).error))
    ensures ("JOB_ENV_ID" in env && responseFile.Decoded? && JobServices(env, services).Ok?
      && AuthsSpec(env, dockerAuthConfig).Ok?) ==>
      var v := AssemblyVerdict(cfg, JobImage(env, cfg), responseFile.image, JobServices(env, services).value,
                               AuthsSpec(env, dockerAuthConfig).value, domainOf, engine);
      && (spec.Some? <==> v == Done(None))
      && (v.Done? && v.value.Some? ==> out == Done(v.value))
      && (v.Panicked? ==> out.Panicked?)
    ensures spec.None? ==> effects == [] && out != Done(None)
    ensures spec.Some? ==>
      && "JOB_ENV_ID" in env && responseFile.Decoded?
      && responseFile.image.Some? && responseFile.image.value.Ok?
      && JobServices(env, services).Ok? && AuthsSpec(env, dockerAuthConfig).Ok?
      && IsJobSpecFor(spec.value, env["JOB_ENV_ID"], cfg, JobImage(env, cfg),
           responseFile.image.value.value.entrypoint, JobServices(env, services).value,
           AuthsSpec(env, dockerAuthConfig).value, domainOf, engine)
    ensures spec.Some? ==>
      var validated := ValidateJob(s.validate);
      var (registered, registerTrace) := RegisterSpec(spec.value, s.register, s.evaluations);
      var (waited, waitTrace) := WaitSpec(env["JOB_ENV_ID"], s.allocations, s.allocation);
      && (validated.Some? ==> out == Done(validated) && effects == [ValidateCall(spec.value)])
      && (validated.None? && registered != Done(None) ==>
            out == registered && effects == [ValidateCall(spec.value)] + registerTrace)
      && (validated.None? && registered == Done(None) ==>
            out == AllocationVerdict(waited) && effects == [ValidateCall(spec.value)] + registerTrace + waitTrace)
  {
    effects := [];
    spec := None;
    if "JOB_ENV_ID" !in env {
      out := Done(Some(Other(NoJobEnvID)));
      return;
    }
    var id := env["JOB_ENV_ID"];
    match responseFile {
      case Unreadable(e) =>
        out := Done(Some(Other(UnreadableResponsePrefix + ErrorText(e))));
        return;
      case Undecodable(e) =>
        out := Done(Some(Other(UndecodableResponsePrefix + ErrorText(e))));
        return;
      case Decoded(_) =>
    }
    var image := JobImage(env, cfg);
    var jobServices := JobServices(env, services);
    if jobServices.Err? {
      out := Done(Some(jobServices.error));
      return;
    }
    var auths := RegistryAuths(env, dockerAuthConfig);
    if auths.Err? {
      out := Done(Some(auths.error));
      return;
    }
    var built := BuildJobSpec(id, cfg, image, responseFile.image, jobServices.value, auths.value, domainOf, engine);
    if built.Panicked? {
      out := Panicked;
      return;
    }
    if built.value.Err? {
      out := Done(Some(built.value.error));
      return;
    }
    var job := built.value.value;
    spec := Some(job);

    effects := [ValidateCall(job)];
    var validated := ValidateJob(s.validate);
    if validated.Some? {
      out := Done(validated);
      return;
    }
    var registered, registerTrace := RegisterJob(job, s.register, s.evaluations);
    effects := effects + registerTrace;
    if registered != Done(None) {
      out := registered;
      return;
    }
    var waited, waitTrace := WaitForAllocation(id, s.allocations, s.allocation);
    effects := effects + waitTrace;
    out := AllocationVerdict(waited);
  }
}
