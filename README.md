# giruno: a Dafny model of a GitLab custom executor for Nomad

giruno is the executor a GitLab Runner calls through its "custom executor" interface.
It is invoked once per phase:

- `config` tells the runner where builds and caches live. It also hands out the job ID, which later phases read from `JOB_ENV_ID`.
- `prepare` collects registry credentials and assembles a Nomad batch job: a leader task `job`, a task `helper`, and one task per CI service. It then validates and registers that job and waits for its allocation.
- `run` executes one stage's script. It finds the shell that the in-task probe script printed to the task's stdout log, then execs the script with that shell in the task the stage belongs to.
- `cleanup` unblocks the probe when the allocation is still alive, then deregisters the job.
- The root command turns a phase's error into the exit code the runner interprets.

The model keeps the executor's own decisions and treats everything around them as input:

- **Scheduler calls.** Every scheduler call is answered from a scripted list of responses (`Internals.Responses`).
- **Trace.** Every call and every sleep is recorded as an `Effect` in a returned trace. So a phase's contract states both its result and the exact calls and sleeps it made.
- **Polling loops.** A loop that runs out of scripted responses ends in `StillPolling`.
- **Panics.** A Go panic is the outcome `Panicked`.
- **Polling proofs.** Each polling loop is an imperative method proved equal to a recursive specification function. Lemmas about that function give the loop's closed form and what ends it.
- **Libraries.** The libraries the executor delegates to appear as parameters:
  - the text/template + HCL + cty pipeline (`Config.TemplateEngine`);
  - the image-reference parser behind `DockerImageDomain` (`domainOf`);
  - `path.Join` (`join`);
  - JSON and base64 decoding (their results are inputs).

Modules follow the repository's packages:

- `GoErrors`: errors, results and outcomes.
- `GoStd`: the parts of `os`, `strings`, `strconv` and `fmt` whose exact behaviour matters.
- `NomadApi`: the Nomad API records and the `Effect` trace.
- `Gitlab`: gitlab/types.go.
- `Config`: config/config.go and config/nomad.go.
- `Internals`: internals/nomad.go.
- `ConfigCmd`, `Prepare`, `Run`, `Cleanup` and `Root`: the files under cmd/.

Two behaviours of the code are worth knowing before reading the model:

- **Service task names.** A CI service's task is named after the service's full image string, so `postgres:14` yields a task named `postgres:14` (cmd/prepare.go:220).
- **Missing shell.** When no candidate shell is executable, the probe echoes its failure message on stdout, the log that `run` reads the shell from (cmd/prepare.go:36); see Findings.

## Model

| member | source | states |
|---|---|---|
| GoStd.Atoi | cmd/root.go:42 | strconv.Atoi: a result only for a digit run, or '+' or '-' then a digit run; the value is the run's decimal value, negated after '-', and None when that falls outside Go's 64-bit int range |
| GoStd.AtoiItoa | gitlab/types.go:9-11 | every 64-bit int printed with %d parses back to itself |
| GoStd.TrimSurrounded | cmd/run.go:81 | trimming cut characters around a core that neither starts nor ends with one yields exactly the core |
| GoStd.Cut | cmd/prepare.go:119 | strings.Cut: found exactly when the separator occurs; before + separator + after rebuilds the text, and before holds no separator |
| GoStd.SplitN2 | internals/nomad.go:40 | strings.SplitN(s, sep, 2): one part when sep never occurs, else the text before its first occurrence and everything after it |
| GoStd.Errorf | internals/nomad.go:81 | fmt.Errorf with no arguments leaves a message without '%' unchanged |
| Gitlab.ErrorText | gitlab/types.go:9-11 | an ordinary error prints its message; both build error types print "build error: " followed by a decimal code that strconv.Atoi reads back as their code |
| Gitlab.BuildErrorTextCarriesCode | gitlab/types.go:9-11 | the code can be read back from a build error's text, and the two build error types print the same text |
| Config.FromFile | config/config.go:49-64 | a decode error is returned; a non-empty token file replaces the token with that file's contents, or its read error is returned |
| Config.SharedConfig.WithEnv | config/config.go:66-82 | updates the shared configuration in place to EnvOverrides of its old value |
| Config.EnvOverridesFields | config/config.go:66-82 | each scheduler setting whose variable is present, even empty, takes its value; all else is unchanged; the token is not re-read from a new token file |
| Config.EnvOverridesIdempotent | config/config.go:66-82 | applying the environment twice equals applying it once; with no scheduler variable set nothing changes |
| Config.FirstTaskType | config/config.go:85-89 | the first position whose type matches, every earlier one differing, or the length when none matches |
| Config.GetTaskType | config/config.go:84-91 | a found task type has the requested type; otherwise the error "task type '<name>' not found" |
| Config.GetTaskTypeFirstMatch | config/config.go:84-91 | the result is the first match, and the lookup fails exactly when no task type has that name |
| Config.DriverConfigStages | config/config.go:93-112 | parse, execute and decode errors are returned; a result is the converted `args` of a decoded rendering; a failed conversion panics |
| Config.CreateNomadTaskCopies | config/nomad.go:5-19 | a driver configuration error is returned; it panics exactly when DriverConfig does; driver, user, constraints, affinities, resources and meta are copied verbatim, the config is DriverConfig's, and name, leader and templates are unset |
| Internals.UnixSchemeSplit | internals/nomad.go:40-41 | the first part is "unix" exactly when the address starts with "unix://", and the socket path is everything after it |
| Internals.NewNomad | internals/nomad.go:40-57 | "unix://P" dials socket P with API address http://localhost; any other address is used unchanged; region, token and namespace pass through |
| Internals.ValidateJob | internals/nomad.go:73-84 | valid exactly when the validation text is empty; a transport error is returned as is; a non-empty text becomes the error as fmt.Errorf formats it, unchanged when it holds no '%' |
| Internals.RegisterJob | internals/nomad.go:86-109 | result and trace equal RegisterSpec: one register call, then one evaluation poll per status |
| Internals.RegisterPollsClosedForm | internals/nomad.go:94-108 | one poll and a 1 s sleep per leading "pending", then one deciding poll: "complete" succeeds, any other status or error fails |
| Internals.RegisterSucceedsOnlyAfterComplete | internals/nomad.go:86-109 | registration succeeds exactly when submission succeeded and some poll answers "complete" after only "pending" answers |
| Internals.Newest | internals/nomad.go:124-129 | the inspected stub's CreateIndex is at least every other stub's |
| Internals.ClassifyAllocs | internals/nomad.go:116-154 | an error or an empty list fails; "complete" settles even without task states; "pending" or no task states retries after 200 ms; "running" with all tasks running settles, otherwise retries after 1 s; any other status fails with that status |
| Internals.AllTasksRunning | internals/nomad.go:145-150 | ready exactly when every task state is "running" |
| Internals.WaitSpec | internals/nomad.go:111-163 | every error comes with dead = true; success is the allocation re-fetched by the settled ID with dead = its server-terminal status, after the polls' trace |
| Internals.WaitForAllocation | internals/nomad.go:111-163 | result and trace equal WaitSpec |
| Internals.WaitPollsSettleOnFirstNonRetry | internals/nomad.go:113-155 | the loop ends with the first poll that does not retry, settled or failed as that poll decides, and runs on while polls retry |
| Internals.WaitPollsTraceOnlyPolls | internals/nomad.go:113-155 | the loop only lists allocations and sleeps 200 ms or 1 s |
| Internals.LogPath | internals/nomad.go:168 | the file read lies under "alloc/logs/" and is the first rotation ".0" of the requested stream; right after "alloc/logs/" come the task's name and a '.', so for a task name without '.' the file is that task's log |
| Internals.LogPathInjective | internals/nomad.go:168 | tasks without '.' in their names never share a log file |
| Internals.DeregisterJob | internals/nomad.go:184-189 | a non-purging deregistration of the job, whose error is the result |
| Prepare.FirstExecutable | cmd/prepare.go:21-35 | the probe's if/elif chain: the first executable candidate, every earlier one not executable |
| Prepare.Probe | cmd/prepare.go:20-42 | the first executable candidate and a newline on stdout, exit 0 once the stop pipe is written; with none, the failure message on stdout and exit 1 |
| Prepare.ProbeIntended | cmd/prepare.go:35-37 | identical to Probe except that the failure message goes to stderr, leaving stdout empty |
| Prepare.MergeLastWins | cmd/prepare.go:81-128 | a domain maps to the credential of its last write |
| Prepare.MergeOnlyWritten | cmd/prepare.go:81-128 | only written domains have a credential |
| Prepare.EnvCredential | cmd/prepare.go:82-105 | no write when the server variable is empty; the complaint when the user or password is empty; else one write of server to (user, password) |
| Prepare.DockerEntryWrite | cmd/prepare.go:115-126 | a decoding error is returned; a write is for the entry's server |
| Prepare.DockerEntrySplit | cmd/prepare.go:119-126 | rejected exactly when the decoded text has no ':'; otherwise the username has no ':' and username + ":" + password is the decoded text |
| Prepare.DockerWritesAccepted | cmd/prepare.go:114-127 | a successful pass holds one write per entry, each that entry's write |
| Prepare.DockerWritesFailure | cmd/prepare.go:114-122 | a failure is the failure of the first rejected entry |
| Prepare.RegistryAuths | cmd/prepare.go:81-128 | the credential map equals AuthsSpec: registry, then dependency proxy, then Docker auth entries, last writer winning, or the first failure |
| Prepare.AddDockerAuths | cmd/prepare.go:107-128 | the loop over Docker auth entries stops at the first rejected entry, else leaves the merge of all writes |
| Prepare.DockerAuthOverrides | cmd/prepare.go:81-128 | a Docker auth entry overrides the variables for its server: the map holds that entry's text split at its first ':' |
| Prepare.ProxyOverridesRegistry | cmd/prepare.go:94-105 | without Docker auth configuration, the dependency proxy's credential wins on its server |
| Prepare.AuthFor | cmd/prepare.go:157 | the credential of the image's registry domain, absent without an entry; an unparsable image name panics |
| Prepare.TaskForImage | cmd/prepare.go:153-161 | an unparsable image name panics; otherwise the result is CreateNomadTask's, its error or its task, for the data carrying the image's credential; no panic when names parse and configurations convert |
| Prepare.AddServiceTasks | cmd/prepare.go:212-223 | succeeds exactly when every service's task is created, appending one task per CI service in order, named after its image, and leaving the rest of the group unchanged; otherwise the first failing service's CreateNomadTask error is returned, or its panic raised |
| Prepare.ServicesVerdictAllCreated | cmd/prepare.go:212-223 | the loop over the services gets through exactly when every service's task is created |
| Prepare.ServicesVerdictFirstFailure | cmd/prepare.go:216-219 | when the services before k get their tasks and service k does not, service k's error or panic ends the loop |
| Prepare.ServicesNeverPanic | cmd/prepare.go:212-223 | when every image name parses and every driver configuration converts, the loop does not panic |
| Prepare.AssembledJobSpec | cmd/prepare.go:185-243 | a group of lead tasks then service tasks, never restarted or rescheduled, with networking exactly when there are upstreams, is the job specification |
| Prepare.BuildLeadTasks | cmd/prepare.go:139-183 | the first failing stage decides, in source order: the "job" lookup error, a missing or undecodable image record, the job task's CreateNomadTask error or panic, the "helper" lookup error, the helper task's error or panic; when none fails, tasks "job" (leader, probe template) and "helper" (probe template) built from their task types |
| Prepare.LeadTasksBuilt | cmd/prepare.go:153-183 | created job and helper tasks, renamed and given the probe template, are the lead tasks of the job specification |
| Prepare.BuildJobSpec | cmd/prepare.go:133-243 | a job is built exactly when no stage fails; otherwise the first failing stage's error is returned, or its panic raised, in source order: lead tasks, the "service" lookup (failing even with no services), each service's task; the built job satisfies IsJobSpecFor |
| Prepare.AssemblySucceeds | cmd/prepare.go:133-224 | with all three task types configured, a decodable image record and every task created, assembly gets through |
| Prepare.JobImage | cmd/prepare.go:67-70 | CUSTOM_ENV_CI_JOB_IMAGE, or the configured default image when it is empty |
| Prepare.AllocationVerdict | cmd/prepare.go:272-278 | a dead allocation is reported as "allocation is dead" before any error is looked at |
| Prepare.WaitFailureReportedAsDead | cmd/prepare.go:272-278 | every failure of WaitForAllocation reaches the user as "allocation is dead" |
| Prepare.Prepare | cmd/prepare.go:48-280 | missing JOB_ENV_ID, response file, services and credential errors in that order; past them, a job is submitted exactly when assembly gets through, and otherwise assembly's error or panic is the result, with no scheduler call; a submitted job satisfies IsJobSpecFor; then validate, register and wait, with their traces |
| Run.StageTarget | cmd/run.go:34-40 | "job" exactly for stages starting with "step_" or ending with "_script", "helper" otherwise |
| Run.HelperStagesRunInHelper | cmd/run.go:42-47 | every stage the commented-out switch sent to the helper still goes there |
| Run.ScriptStagesRunInJob | cmd/run.go:36-37 | the script stages and every user step run in the job task |
| Run.DiscoverShell | cmd/run.go:73-84 | result and trace equal DiscoveryPolls |
| Run.DiscoveryClosedForm | cmd/run.go:73-84 | one 1 s sleep and stdout read per leading empty log, then one deciding read: an error ends it, a text trimmed of " \n\t\r" is the shell |
| Run.CandidateLine | cmd/run.go:81 | a candidate shell printed on its own line is read back as that shell |
| Run.DiscoveryFindsProbedShell | cmd/run.go:73-84 | once the probe's output appears, discovery yields the first executable candidate |
| Run.NoShellMessageTakenAsShell | cmd/run.go:80-82 | as written, once the probe's output for an image without any candidate shell is the stdout log read, discovery yields the failure message, which is no shell |
| Run.DiscoveryYieldsCandidate | cmd/run.go:73-84 | with the probe as intended, discovery can only yield a candidate shell |
| Run.ExecVerdict | cmd/run.go:90-96 | an exec error is returned as is, status 0 is success, any other status is gitlab.BuildError with that status |
| Run.Run | cmd/run.go:21-97 | missing JOB_ENV_ID, then the script read error, then the allocation verdict, then discovery in the stage's task, then exec of [shell] with the script as stdin |
| Cleanup.Cleanup | cmd/cleanup.go:20-63 | a wait error ends it without deregistering; a dead allocation is deregistered directly; for a live one, a failed read of the stdout log during shell discovery is returned without deregistering; otherwise it gets the stop command through the discovered shell, whose result is ignored, then a non-purging deregistration whose error is the result |
| Root.PreRun | cmd/root.go:26-34 | a missing configuration file is ignored; any other read error becomes "fatal error config file: ..." |
| Root.CodeFrom | cmd/root.go:48-51 | the variable's parsed value, or 1 when it does not parse |
| Root.ExitCode | cmd/root.go:38-53 | no exit without an error; only *internals.BuildError selects BUILD_FAILURE_EXIT_CODE, every other error SYSTEM_FAILURE_EXIT_CODE |
| Root.Execute | cmd/root.go:38-53 | the exit decision equals ExitCode, including exit 1 for an unparsable build code even when the system code parses |
| Root.ExitCodeIntended | cmd/root.go:43-47 | either build error type selects BUILD_FAILURE_EXIT_CODE |
| Root.ExitStatus | cmd/root.go:48-51 | the process status is the low byte of os.Exit's argument (a value in 0..255 congruent to it modulo 256), 0 when Execute returns |
| Root.ErrorsNeverExitZero | cmd/root.go:38-53 | with neither code a multiple of 256, every error ends with a non-zero status |
| Root.ScriptFailureReportedAsSystemFailure | cmd/root.go:43-47 | as written, a failing script with SYSTEM=1 and BUILD=2 exits 1; as intended it exits 2 |
| Root.RunOutcomeClassified | cmd/root.go:42-51 | as intended, a failing script gets the build code, an executor failure the system code, success status 0 |
| ConfigCmd.JobID | cmd/config.go:19-22 | "runner-<runner>-project-<project>-job-<job>" |
| ConfigCmd.ParseJobIDInverse | cmd/config.go:19-22 | whatever the job ID parser accepts, JobID rebuilds |
| ConfigCmd.JobIDRoundTrip | cmd/config.go:19-22 | numeric CI IDs are recovered from the job ID they form |
| ConfigCmd.JobIDInjective | cmd/config.go:19-22 | distinct numeric CI jobs get distinct job IDs |
| ConfigCmd.ConfigOutput | cmd/config.go:24-34 | JOB_ENV_ID is the only job variable; builds and caches under the data directory joined with "builds"/"cache" and the project path; never shared; no driver, hostname or shell |
| ConfigCmd.ConfigNamesTheCIJob | cmd/config.go:19-33 | the JOB_ENV_ID handed out reads back as the CI runner, project and job IDs |

## Left out

- Client construction:
  - the pooled HTTP client, TLS settings, `api.ConfigureTLS` and `api.NewClient` (internals/nomad.go:33-39, 48-60);
  - their error returns, and hence the NewNomad error branches of every phase;
  - the context and its cancel function. A cancelled call is one more error response.
- Concurrency and signals: the SIGTERM goroutines of prepare and run, and `signal.Ignore` in cleanup. Their only modelled trace is a scripted error response.
- Logging, the output that Exec streams, and the JSON that DriverConfig prints to stdout (config/config.go:119).
- Config.DriverConfig: the `json.MarshalIndent` error branch (config/config.go:114-117) is not modelled. The map it encodes comes from a cty conversion, which always encodes.
- text/template, HCL decoding and the cty conversion are uninterpreted functions (`TemplateEngine`).
- Other libraries are parameters or inputs:
  - `DockerImageDomain` (internals/utils.go) is `domainOf`, where None stands for its panic.
  - `path.Join` is `join`.
  - `ServerTerminalStatus` is the allocation's `serverTerminal` field.
  - base64 decoding is each Docker auth entry's decoded result.
  - JSON decoding of the response file, the services list and the Docker auth configuration is given as results.
- Prepare.RegistryAuths: the Docker auth entries arrive as a sequence. Go iterates the decoded map in random order. Servers are distinct keys, so the final map does not depend on the order. Only which failing entry is reported first does.
- Internals.Newest: among stubs tied on the highest CreateIndex, the model inspects the first one. Go's `sort.Slice` is not stable and may put any of them first.
- GoStd.Errorf: only the verb character right after '%' is modelled. Flags, widths, precisions and argument indexes are not.
- Polling loops run over a finite script. When the script runs out, the result is `StillPolling` where the real loop would go on polling, possibly forever.
- GetTaskLogs: the Cat error and the ReadAll error are merged into one scripted result per read.
- Writing the `config` document as JSON (cmd/config.go:35): ConfigOutput returns the record itself.
- The cobra/viper command wiring, the `--config` flag, environment binding (cmd/root.go:14-25, 55-67), and the code that fills the package-level configuration. That code is not part of this model.
- mkdir and mkfifo failures inside the probe script.
- `Config.Job.ConsulUpstreams()` (cmd/prepare.go:237) is called but defined in none of the source files modelled; config/config.go:34 declares only the field `Upstreams`. The model takes the sidecar's upstreams to be that field unchanged (`cfg.job.upstreams`), so the networking clause of `IsJobSpecFor` rests on that reading.
- internals/types.go (a stale `RegistryAuth` and the unused `ToNomadTask`), test.go, and `internals.Ptr`.

## Findings

| source | as written | input that shows it | evidently intended | confidence | as-written member | corrected member |
|---|---|---|---|---|---|---|
| cmd/root.go:43 | Execute selects BUILD_FAILURE_EXIT_CODE only for `*internals.BuildError`, but run returns a `gitlab.BuildError` value (cmd/run.go:94), so a failing script exits with the system failure code | SYSTEM_FAILURE_EXIT_CODE=1, BUILD_FAILURE_EXIT_CODE=2, script exit status 137: exit 1 | any build error selects BUILD_FAILURE_EXIT_CODE: exit 2 (proved in Root.RunOutcomeClassified) | not executed | Root.ScriptFailureReportedAsSystemFailure | Root.ExitCodeIntended |
| cmd/prepare.go:36 | with no candidate shell, the probe echoes "Could not find compatible shell" on stdout, and discovery accepts any non-empty stdout log (cmd/run.go:80), so that line, trimmed, is taken as the shell path | an image with none of the seven candidate paths, whose task runs the probe script (it has no shebang line, so the operator's task template must start it with an interpreter) and whose allocation stays live after the probe's `exit 1` (the group has `Attempts: 0`, so only a template that keeps the task running does this); once that line is the stdout log, discovery yields it | the failure goes to stderr, so discovery only ever yields a candidate shell (proved in Run.DiscoveryYieldsCandidate) | not executed | Run.NoShellMessageTakenAsShell | Prepare.ProbeIntended |
