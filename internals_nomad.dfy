/**
 * The scheduler client: connection settings, job validation and registration, the
 * wait for a usable allocation, log paths and deregistration.
 *
 * Every scheduler call is answered from a scripted list of responses and recorded,
 * together with every sleep, as an Effect in the returned trace. A polling loop that
 * runs out of scripted responses ends in StillPolling. A cancelled context is one more
 * error response.
 */
module Internals {
  import opened GoErrors
  import opened GoStd
  import opened NomadApi
  import Config

  /** A registry username and password. */
  datatype RegistryAuth = RegistryAuth(username: string, password: string)

  /** The settings NewNomad hands to the scheduler's client library. */
  datatype Client = Client(
    address: string,
    unixSocket: Option<string>,
    region: string,
    secretID: string,
    namespace: string)

  /** The scheduler's answers to one invocation's calls, in the order they are made. */
  datatype Responses = Responses(
    validate: Result<string>,                  // Jobs().Validate: the validation error text
    register: Result<string>,                  // Jobs().Register: the evaluation ID
    evaluations: seq<Result<string>>,          // Evaluations().Info: one status per poll
    allocations: seq<Result<seq<AllocStub>>>,  // Jobs().Allocations: one list per poll
    allocation: Result<Allocation>,            // Allocations().Info
    logs: seq<Result<string>>,                 // AllocFS().Cat and ReadAll: one text per read
    exec: Result<int>,                         // Allocations().Exec: the exit code
    deregister: Option<Error>)                 // Jobs().Deregister

  // ---------------------------------------------------------------- NewNomad

  /** Splitting at the first "://" yields the part "unix" exactly when the address starts with "unix://". */
  lemma UnixSchemeSplit(address: string)
    ensures var parts := SplitN2(address, "://");
      (|parts| == 2 && parts[0] == "unix") <==> HasPrefix(address, "unix://")
    ensures HasPrefix(address, "unix://") ==> SplitN2(address, "://")[1] == address[7..]
  {
    var parts := SplitN2(address, "://");
    if HasPrefix(address, "unix://") {
      assert address[4..7] == "://";
      assert OccursAt(address, "://", 4);
      assert |parts| == 2;
      var i := |parts[0]|;
      assert address[i] == ':';
      assert forall j :: 0 <= j < 4 ==> address[j] != ':';
      assert i == 4;
    }
    if |parts| == 2 && parts[0] == "unix" {
      assert address[..7] == parts[0] + address[4..7];
    }
  }

  /**
   * NewNomad: an address "unix://P" makes the client dial the unix socket P with the
   * API address http://localhost; any other address is used unchanged.
   */
  function NewNomad(settings: Config.Nomad): (c: Client)
    ensures HasPrefix(settings.address, "unix://") ==>
      c.address == "http://localhost" && c.unixSocket == Some(settings.address[7..])
    ensures !HasPrefix(settings.address, "unix://") ==>
      c.address == settings.address && c.unixSocket == None
    ensures c.region == settings.region && c.secretID == settings.token && c.namespace == settings.namespace
  {
    UnixSchemeSplit(settings.address);
    var parts := SplitN2(settings.address, "://");
    if |parts| == 2 && parts[0] == "unix" then
      Client("http://localhost", Some(parts[1]), settings.region, settings.token, settings.namespace)
    else
      Client(settings.address, None, settings.region, settings.token, settings.namespace)
  }

  // ---------------------------------------------------------------- ValidateJob

  /**
   * ValidateJob: a transport error is returned as is; a non-empty validation error
   * text becomes the error; an empty one means the job is valid.
   */
  function ValidateJob(response: Result<string>): (err: Option<Error>)
    ensures err.None? <==> response == Ok("")
    ensures response.Err? ==> err == Some(response.error)
    ensures response.Ok? && response.value != "" && '%' !in response.value ==>
      err == Some(Other(response.value))
    ensures response.Ok? && response.value != "" ==> err == Some(Other(Errorf(response.value)))
  {
    match response
    case Err(e) => Some(e)
    case Ok(text) => if text != "" then Some(Other(Errorf(text))) else None
  }

  // ---------------------------------------------------------------- RegisterJob

  /** What one evaluation poll decides. */
  datatype EvalStep = EvalComplete | EvalPending | EvalFailed(err: Error)

  function ClassifyEval(info: Result<string>): EvalStep {
    match info
    case Err(e) => EvalFailed(e)
    case Ok(status) =>
      if status == "complete" then EvalComplete
      else if status != "pending" then EvalFailed(Other(Errorf(status)))
      else EvalPending
  }

  /** The evaluation-polling loop of RegisterJob, one scripted status per poll. */
  function RegisterPolls(evalID: string, evals: seq<Result<string>>): (r: (Outcome<Option<Error>>, seq<Effect>))
    ensures !r.0.Panicked?
  {
    if evals == [] then (StillPolling, [])
    else
      var poll := [EvaluationInfo(evalID)];
      match ClassifyEval(evals[0])
      case EvalComplete => (Done(None), poll)
      case EvalFailed(e) => (Done(Some(e)), poll)
      case EvalPending =>
        var (o, rest) := RegisterPolls(evalID, evals[1..]);
        (o, poll + [Sleep(1000)] + rest)
  }

  /** RegisterJob: submit the job, then poll its evaluation. */
  function RegisterSpec(job: Job, register: Result<string>, evals: seq<Result<string>>): (Outcome<Option<Error>>, seq<Effect>) {
    match register
    case Err(e) => (Done(Some(e)), [RegisterCall(job)])
    case Ok(evalID) =>
      var (o, polls) := RegisterPolls(evalID, evals);
      (o, [RegisterCall(job)] + polls)
  }

  method RegisterJob(job: Job, register: Result<string>, evals: seq<Result<string>>)
    returns (out: Outcome<Option<Error>>, effects: seq<Effect>)
    ensures (out, effects) == RegisterSpec(job, register, evals)
  {
    effects := [RegisterCall(job)];
    if register.Err? {
      out := Done(Some(register.error));
      return;
    }
    var evalID := register.value;
    var i := 0;
    assert evals[i..] == evals;
    while i < |evals|
      invariant 0 <= i <= |evals|
      invariant RegisterSpec(job, register, evals) ==
        (RegisterPolls(evalID, evals[i..]).0, effects + RegisterPolls(evalID, evals[i..]).1)
    {
      assert evals[i..][0] == evals[i] && evals[i..][1..] == evals[i + 1..];
      ghost var before := effects;
      ghost var later := RegisterPolls(evalID, evals[i + 1..]);
      effects := effects + [EvaluationInfo(evalID)];
      var info := evals[i];
      if info.Err? {
        out := Done(Some(info.error));
        return;
      }
      var status := info.value;
      if status == "complete" {
        out := Done(None);
        return;
      }
      if status != "pending" {
        out := Done(Some(Other(Errorf(status))));
        return;
      }
      effects := effects + [Sleep(1000)];
      assert RegisterPolls(evalID, evals[i..]) == (later.0, [EvaluationInfo(evalID)] + [Sleep(1000)] + later.1);
      assert effects + later.1 == before + ([EvaluationInfo(evalID)] + [Sleep(1000)] + later.1);
      i := i + 1;
    }
    assert evals[i..] == [];
    assert effects + [] == effects;
    out := StillPolling;
  }

  /** The number of leading responses equal to `v`. */
  function LeadingRun(responses: seq<Result<string>>, v: Result<string>): (k: nat)
    ensures k <= |responses|
    ensures forall j :: 0 <= j < k ==> responses[j] == v
    ensures k < |responses| ==> responses[k] != v
  {
    if responses == [] || responses[0] != v then 0 else 1 + LeadingRun(responses[1..], v)
  }

  /** n copies of `block`, one after another. */
  function Repeat(block: seq<Effect>, n: nat): (r: seq<Effect>)
    ensures |r| == n * |block|
  {
    if n == 0 then [] else block + Repeat(block, n - 1)
  }

  /**
   * The evaluation loop in closed form: one poll and one 1-second sleep per leading
   * "pending", then one final poll whose answer decides: "complete" is success, any
   * other status or error fails.
   */
  lemma {:induction false} RegisterPollsClosedForm(evalID: string, evals: seq<Result<string>>)
    ensures var k := LeadingRun(evals, Ok("pending"));
      var waits := Repeat([EvaluationInfo(evalID), Sleep(1000)], k);
      RegisterPolls(evalID, evals) ==
        if k == |evals| then (StillPolling, waits)
        else if evals[k] == Ok("complete") then (Done(None), waits + [EvaluationInfo(evalID)])
        else (Done(Some(ClassifyEval(evals[k]).err)), waits + [EvaluationInfo(evalID)])
  {
    if evals != [] && evals[0] == Ok("pending") {
      RegisterPollsClosedForm(evalID, evals[1..]);
      var k := LeadingRun(evals[1..], Ok("pending"));
      assert LeadingRun(evals, Ok("pending")) == k + 1;
      assert k < |evals[1..]| ==> evals[1..][k] == evals[k + 1];
      assert [EvaluationInfo(evalID)] + [Sleep(1000)] == [EvaluationInfo(evalID), Sleep(1000)];
      var waits := Repeat([EvaluationInfo(evalID), Sleep(1000)], k);
      assert Repeat([EvaluationInfo(evalID), Sleep(1000)], k + 1) == [EvaluationInfo(evalID), Sleep(1000)] + waits;
      assert [EvaluationInfo(evalID), Sleep(1000)] + (waits + [EvaluationInfo(evalID)])
        == [EvaluationInfo(evalID), Sleep(1000)] + waits + [EvaluationInfo(evalID)];
    } else {
      var none: seq<Effect> := [];
      assert none + [EvaluationInfo(evalID)] == [EvaluationInfo(evalID)];
    }
  }

  /**
   * RegisterJob succeeds exactly when the job was submitted and some poll answers
   * "complete" after only "pending" answers.
   */
  lemma RegisterSucceedsOnlyAfterComplete(job: Job, register: Result<string>, evals: seq<Result<string>>)
    ensures RegisterSpec(job, register, evals).0 == Done(None) <==>
      register.Ok? && exists k :: (0 <= k < |evals| && evals[k] == Ok("complete")
        && forall j :: 0 <= j < k ==> evals[j] == Ok("pending"))
  {
    if register.Ok? {
      RegisterPollsClosedForm(register.value, evals);
      var k := LeadingRun(evals, Ok("pending"));
      if exists k' :: (0 <= k' < |evals| && evals[k'] == Ok("complete")
        && forall j :: 0 <= j < k' ==> evals[j] == Ok("pending")) {
        var k' :| 0 <= k' < |evals| && evals[k'] == Ok("complete")
          && forall j :: 0 <= j < k' ==> evals[j] == Ok("pending");
        assert k' <= k;
        assert k' == k;
      }
    }
  }

  // ---------------------------------------------------------------- WaitForAllocation

  /** What WaitForAllocation returns: the allocation, whether it is dead, and the error. */
  datatype Waited = Waited(alloc: Option<Allocation>, dead: bool, err: Option<Error>)

  /** What one allocation-list poll decides. */
  datatype AllocStep = Settled(id: string) | Retry(ms: nat) | Failed(err: Error)

  /** The position of a stub with the highest CreateIndex (the first such one). */
  function Newest(allocs: seq<AllocStub>): (k: nat)
    requires allocs != []
    ensures k < |allocs|
    ensures forall j :: 0 <= j < |allocs| ==> allocs[j].createIndex <= allocs[k].createIndex
  {
    if |allocs| == 1 then 0
    else
      var k := Newest(allocs[1..]);
      if allocs[0].createIndex >= allocs[k + 1].createIndex then 0 else k + 1
  }

  predicate AllRunning(states: map<string, string>) {
    forall t :: t in states ==> states[t] == "running"
  }

  /**
   * One poll of the allocation list, judged on the newest stub: "complete" settles it
   * even without task states; "pending", or no task states yet, retries after 200 ms
   * before any failure check; "running" with every task running settles it, with some
   * task not running retries after 1 s; any other status fails with that status. An
   * empty list fails with "no allocations".
   */
  function ClassifyAllocs(listed: Result<seq<AllocStub>>): (s: AllocStep)
    ensures listed.Err? ==> s == Failed(listed.error)
    ensures listed == Ok([]) ==> s == Failed(Other("no allocations"))
    ensures listed.Ok? && listed.value != [] ==>
      var stub := listed.value[Newest(listed.value)];
      && (s.Settled? <==>
           || stub.clientStatus == "complete"
           || (stub.clientStatus == "running" && |stub.taskStates| > 0 && AllRunning(stub.taskStates)))
      && (s.Settled? ==> s.id == stub.id)
      && (s == Retry(200) <==>
           stub.clientStatus != "complete" && (stub.clientStatus == "pending" || |stub.taskStates| == 0))
      && (s == Retry(1000) <==>
           stub.clientStatus == "running" && |stub.taskStates| > 0 && !AllRunning(stub.taskStates))
      && (s.Failed? <==> stub.clientStatus !in {"complete", "pending", "running"} && |stub.taskStates| > 0)
      && (s.Failed? ==> s.err == Other(Errorf(stub.clientStatus)))
  {
    match listed
    case Err(e) => Failed(e)
    case Ok(allocs) =>
      if allocs == [] then Failed(Other("no allocations"))
      else
        var stub := allocs[Newest(allocs)];
        if stub.clientStatus == "complete" then Settled(stub.id)
        else if stub.clientStatus == "pending" || |stub.taskStates| == 0 then Retry(200)
        else if stub.clientStatus != "running" then Failed(Other(Errorf(stub.clientStatus)))
        else if AllRunning(stub.taskStates) then Settled(stub.id)
        else Retry(1000)
  }

  /** The allocation-polling loop of WaitForAllocation, one scripted list per poll. */
  function WaitPolls(jobID: string, lists: seq<Result<seq<AllocStub>>>): (r: (Outcome<Result<string>>, seq<Effect>))
    ensures !r.0.Panicked?
  {
    if lists == [] then (StillPolling, [])
    else
      var poll := [ListAllocations(jobID)];
      match ClassifyAllocs(lists[0])
      case Settled(id) => (Done(Ok(id)), poll)
      case Failed(e) => (Done(Err(e)), poll)
      case Retry(ms) =>
        var (o, rest) := WaitPolls(jobID, lists[1..]);
        (o, poll + [Sleep(ms)] + rest)
  }

  /**
   * WaitForAllocation: every error comes with dead = true; on success the result is
   * the allocation fetched by the settled stub's ID, with dead = its server-terminal
   * status.
   */
  function WaitSpec(jobID: string, lists: seq<Result<seq<AllocStub>>>, info: Result<Allocation>): (r: (Outcome<Waited>, seq<Effect>))
    ensures !r.0.Panicked?
    ensures r.0.Done? && r.0.value.err.Some? ==> r.0.value.dead && r.0.value.alloc.None?
    ensures r.0.Done? && r.0.value.err.None? ==>
      info.Ok? && r.0.value.alloc == Some(info.value) && r.0.value.dead == info.value.serverTerminal
    ensures r.0.Done? && r.0.value.err.None? ==>
      WaitPolls(jobID, lists).0.Done? && WaitPolls(jobID, lists).0.value.Ok?
      && r.1 == WaitPolls(jobID, lists).1 + [AllocationInfo(WaitPolls(jobID, lists).0.value.value)]
  {
    var (o, polls) := WaitPolls(jobID, lists);
    if !o.Done? then (StillPolling, polls)
    else
      match o.value
      case Err(e) => (Done(Waited(None, true, Some(e))), polls)
      case Ok(id) =>
        var fetched := polls + [AllocationInfo(id)];
        match info
        case Err(e) => (Done(Waited(None, true, Some(e))), fetched)
        case Ok(a) => (Done(Waited(Some(a), a.serverTerminal, None)), fetched)
  }

  /** Whether every task of the stub reports "running", visiting the task states one by one. */
  method AllTasksRunning(states: map<string, string>) returns (ready: bool)
    ensures ready <==> AllRunning(states)
  {
    ready := true;
    var unvisited := states.Keys;
    while unvisited != {}
      invariant unvisited <= states.Keys
      invariant ready <==> forall t :: t in states.Keys - unvisited ==> states[t] == "running"
      decreases unvisited
    {
      var t :| t in unvisited;
      if states[t] != "running" {
        ready := false;
      }
      unvisited := unvisited - {t};
    }
  }

  method WaitForAllocation(jobID: string, lists: seq<Result<seq<AllocStub>>>, info: Result<Allocation>)
    returns (out: Outcome<Waited>, effects: seq<Effect>)
    ensures (out, effects) == WaitSpec(jobID, lists, info)
  {
    effects := [];
    var id := "";
    var settled := false;
    var i := 0;
    assert lists[i..] == lists;
    assert effects + WaitPolls(jobID, lists).1 == WaitPolls(jobID, lists).1;
    while i < |lists|
      invariant 0 <= i <= |lists|
      invariant !settled
      invariant WaitPolls(jobID, lists) ==
        (WaitPolls(jobID, lists[i..]).0, effects + WaitPolls(jobID, lists[i..]).1)
    {
      WaitPollsStep(jobID, lists, i, effects);
      effects := effects + [ListAllocations(jobID)];
      if lists[i].Err? {
        out := Done(Waited(None, true, Some(lists[i].error)));
        return;
      }
      var allocs := lists[i].value;
      if allocs == [] {
        out := Done(Waited(None, true, Some(Other("no allocations"))));
        return;
      }
      // sort.Slice by descending CreateIndex, then take the first stub
      var stub := allocs[Newest(allocs)];
      id := stub.id;
      var status := stub.clientStatus;
      if status == "complete" {
        settled := true;
        break;
      }
      var delay := 1000;
      if status == "pending" || |stub.taskStates| == 0 {
        delay := 200;
      } else {
        if status != "running" {
          out := Done(Waited(None, true, Some(Other(Errorf(status)))));
          return;
        }
        var ready := AllTasksRunning(stub.taskStates);
        if ready {
          settled := true;
          break;
        }
      }
      effects := effects + [Sleep(delay)];
      i := i + 1;
    }
    if !settled {
      assert lists[i..] == [];
      assert effects + [] == effects;
      out := StillPolling;
      return;
    }
    effects := effects + [AllocationInfo(id)];
    match info
    case Err(e) =>
      out := Done(Waited(None, true, Some(e)));
    case Ok(a) =>
      out := Done(Waited(Some(a), a.serverTerminal, None));
  }

  /**
   * One poll of WaitPolls, with `effects` the trace of the polls before i: a settled or
   * failed poll ends the loop after listing; a retry lists, sleeps and goes on.
   */
  lemma WaitPollsStep(jobID: string, lists: seq<Result<seq<AllocStub>>>, i: nat, effects: seq<Effect>)
    requires i < |lists|
    requires WaitPolls(jobID, lists) == (WaitPolls(jobID, lists[i..]).0, effects + WaitPolls(jobID, lists[i..]).1)
    ensures match ClassifyAllocs(lists[i])
      case Settled(id) => WaitPolls(jobID, lists) == (Done(Ok(id)), effects + [ListAllocations(jobID)])
      case Failed(e) => WaitPolls(jobID, lists) == (Done(Err(e)), effects + [ListAllocations(jobID)])
      case Retry(ms) =>
        var later := WaitPolls(jobID, lists[i + 1..]);
        WaitPolls(jobID, lists) == (later.0, effects + [ListAllocations(jobID)] + [Sleep(ms)] + later.1)
  {
    assert lists[i..][0] == lists[i] && lists[i..][1..] == lists[i + 1..];
    var later := WaitPolls(jobID, lists[i + 1..]);
    var poll := [ListAllocations(jobID)];
    if ClassifyAllocs(lists[i]).Retry? {
      var ms := ClassifyAllocs(lists[i]).ms;
      assert effects + (poll + [Sleep(ms)] + later.1) == effects + poll + [Sleep(ms)] + later.1;
    }
  }

  /** The number of leading polls that retried. */
  function RetryPrefix(lists: seq<Result<seq<AllocStub>>>): (k: nat)
    ensures k <= |lists|
    ensures forall j :: 0 <= j < k ==> ClassifyAllocs(lists[j]).Retry?
    ensures k < |lists| ==> !ClassifyAllocs(lists[k]).Retry?
  {
    if lists == [] || !ClassifyAllocs(lists[0]).Retry? then 0 else 1 + RetryPrefix(lists[1..])
  }

  /** The allocation loop ends with the first poll that does not retry, and only then. */
  lemma {:induction false} WaitPollsSettleOnFirstNonRetry(jobID: string, lists: seq<Result<seq<AllocStub>>>)
    ensures var k := RetryPrefix(lists);
      var o := WaitPolls(jobID, lists).0;
      && (k == |lists| ==> o == StillPolling)
      && (k < |lists| ==> match ClassifyAllocs(lists[k])
            case Settled(id) => o == Done(Ok(id))
            case Failed(e) => o == Done(Err(e))
            case Retry(_) => false)
  {
    if lists != [] && ClassifyAllocs(lists[0]).Retry? {
      WaitPollsSettleOnFirstNonRetry(jobID, lists[1..]);
      assert RetryPrefix(lists) == 1 + RetryPrefix(lists[1..]);
      if RetryPrefix(lists) < |lists| {
        assert lists[RetryPrefix(lists)] == lists[1..][RetryPrefix(lists[1..])];
      }
    }
  }

  /** The allocation loop's trace holds list calls and sleeps of 200 ms or 1 s only. */
  lemma {:induction false} WaitPollsTraceOnlyPolls(jobID: string, lists: seq<Result<seq<AllocStub>>>)
    ensures forall e :: e in WaitPolls(jobID, lists).1 ==>
      e == ListAllocations(jobID) || e == Sleep(200) || e == Sleep(1000)
  {
    if lists != [] {
      match ClassifyAllocs(lists[0])
      case Retry(ms) =>
        WaitPollsTraceOnlyPolls(jobID, lists[1..]);
        assert ms == 200 || ms == 1000;
      case _ =>
    }
  }

  // ---------------------------------------------------------------- GetTaskLogs

  /** The file GetTaskLogs reads: the task's log stream `std`, first rotation. */
  function LogPath(task: string, std: string): (path: string)
    ensures HasPrefix(path, "alloc/logs/") && HasSuffix(path, "." + std + ".0")
    ensures |path| > |"alloc/logs/"| + |task|
    ensures path[|"alloc/logs/"|..|"alloc/logs/"| + |task|] == task && path[|"alloc/logs/"| + |task|] == '.'
  {
    "alloc/logs/" + task + "." + std + ".0"
  }

  lemma {:induction false} CutAfterDotFree(t: string, rest: string)
    requires '.' !in t
    ensures Cut(t + "." + rest, '.') == (t, rest, true)
  {
    if t != [] {
      CutAfterDotFree(t[1..], rest);
      assert (t + "." + rest)[1..] == t[1..] + "." + rest;
      assert [t[0]] + t[1..] == t;
    }
  }

  /** Tasks whose names contain no '.' never share a log file. */
  lemma LogPathInjective(task1: string, std1: string, task2: string, std2: string)
    requires '.' !in task1 && '.' !in task2
    requires LogPath(task1, std1) == LogPath(task2, std2)
    ensures task1 == task2 && std1 == std2
  {
    var p := LogPath(task1, std1);
    assert p[11..] == task1 + "." + (std1 + ".0");
    assert p[11..] == task2 + "." + (std2 + ".0");
    CutAfterDotFree(task1, std1 + ".0");
    CutAfterDotFree(task2, std2 + ".0");
    assert std1 == (std1 + ".0")[..|std1|];
    assert std2 == (std2 + ".0")[..|std2|];
  }

  // ---------------------------------------------------------------- DeregisterJob

  /** DeregisterJob: a non-purging deregistration of the job; its error is the result. */
  function DeregisterJob(jobID: string, response: Option<Error>): (r: (Effect, Option<Error>))
    ensures r.0 == Deregister(jobID, false) && r.1 == response
  {
    (Deregister(jobID, false), response)
  }
}
