/**
 * The records of the scheduler's API client that the executor builds or reads,
 * reduced to the fields it touches, and the calls it makes, as trace entries.
 */
module NomadApi {
  import opened GoErrors

  /** A value of Go's `interface{}` as a decoded driver configuration holds it. */
  datatype Json =
    | Null
    | Bool(b: bool)
    | Number(n: int)
    | Str(s: string)
    | List(items: seq<Json>)
    | Object(fields: map<string, Json>)

  datatype Constraint = Constraint(lTarget: string, rTarget: string, operand: string)

  datatype Affinity = Affinity(lTarget: string, rTarget: string, operand: string, weight: int)

  datatype Resources = Resources(cpu: int, memoryMB: int)

  /** A file the scheduler renders into the task directory before the task starts. */
  datatype Template = Template(embeddedTmpl: string, destPath: string, perms: string)

  datatype Task = Task(
    name: string,
    driver: string,
    user: string,
    config: map<string, Json>,
    constraints: seq<Constraint>,
    affinities: seq<Affinity>,
    resources: Option<Resources>,
    meta: map<string, string>,
    leader: bool,
    templates: seq<Template>)

  datatype ConsulUpstream = ConsulUpstream(destinationName: string, localBindPort: int, datacenter: string)

  datatype NetworkResource = NetworkResource(mode: string)

  /** A group service whose Connect sidecar proxy binds these upstreams. */
  datatype Service = Service(sidecarUpstreams: seq<ConsulUpstream>)

  datatype TaskGroup = TaskGroup(
    name: string,
    restartAttempts: int,
    rescheduleAttempts: int,
    rescheduleUnlimited: bool,
    tasks: seq<Task>,
    networks: seq<NetworkResource>,
    services: seq<Service>)

  datatype Job = Job(id: string, jobType: string, datacenters: seq<string>, taskGroups: seq<TaskGroup>)

  /** An entry of a job's allocation list; `taskStates` maps each task name to its state. */
  datatype AllocStub = AllocStub(id: string, createIndex: nat, clientStatus: string, taskStates: map<string, string>)

  /**
   * A full allocation record. `serverTerminal` is what the client library's
   * ServerTerminalStatus reports for it.
   */
  datatype Allocation = Allocation(id: string, clientStatus: string, serverTerminal: bool)

  /** One step of what an invocation did against the scheduler, in order. */
  datatype Effect =
    | Sleep(ms: nat)
    | ValidateCall(job: Job)
    | RegisterCall(job: Job)
    | EvaluationInfo(evalID: string)
    | ListAllocations(jobID: string)
    | AllocationInfo(allocID: string)
    | Cat(allocID: string, path: string)
    | Exec(allocID: string, task: string, command: seq<string>, stdin: string)
    | Deregister(jobID: string, purge: bool)
}
