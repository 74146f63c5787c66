/**
 * The executor's own configuration: scheduler connection settings, images, and the
 * task types from which each task of the job is built.
 */
module Config {
  import opened GoErrors
  import opened GoStd
  import opened NomadApi

  datatype Nomad = Nomad(address: string, token: string, tokenFile: string, region: string, namespace: string)

  /** A task blueprint: driver settings plus a driver-configuration template. */
  datatype TaskType = TaskType(
    taskType: string,
    driver: string,
    user: string,
    configTemplate: string,
    constraints: seq<Constraint>,
    affinities: seq<Affinity>,
    resources: Option<Resources>,
    meta: map<string, string>)

  datatype Job = Job(
    datacenters: seq<string>,
    allocDataDir: string,
    upstreams: seq<ConsulUpstream>,
    taskTypes: seq<TaskType>)

  datatype Config = Config(nomad: Nomad, defaultImage: string, helperImage: string, job: Job)

  // ---------------------------------------------------------------- loading

  /**
   * FromFile after the configuration file has been decoded (`decoded`): a non-empty
   * token file replaces the token with that file's contents, and a failure to read it
   * is the result.
   */
  function FromFile(decoded: Result<Config>, readFile: string -> Result<string>): (r: Result<Config>)
    ensures decoded.Err? ==> r == decoded
    ensures decoded.Ok? && decoded.value.nomad.tokenFile == "" ==> r == decoded
    ensures decoded.Ok? && decoded.value.nomad.tokenFile != "" ==>
      var read := readFile(decoded.value.nomad.tokenFile);
      && (read.Err? ==> r == Err(read.error))
      && (read.Ok? ==> r == Ok(decoded.value.(nomad := decoded.value.nomad.(token := read.value))))
  {
    match decoded
    case Err(e) => Err(e)
    case Ok(c) =>
      if c.nomad.tokenFile == "" then Ok(c)
      else
        match readFile(c.nomad.tokenFile)
        case Err(e) => Err(e)
        case Ok(token) => Ok(c.(nomad := c.nomad.(token := token)))
  }

  /** The value of a setting after WithEnv: the variable's value when it is present, even empty. */
  function Override(current: string, env: map<string, string>, name: string): string {
    if name in env then env[name] else current
  }

  /** The configuration WithEnv leaves behind. */
  function EnvOverrides(c: Config, env: map<string, string>): Config {
    c.(nomad := Nomad(
      Override(c.nomad.address, env, "NOMAD_ADDR"),
      Override(c.nomad.token, env, "NOMAD_TOKEN"),
      Override(c.nomad.tokenFile, env, "NOMAD_TOKEN_FILE"),
      Override(c.nomad.region, env, "NOMAD_REGION"),
      Override(c.nomad.namespace, env, "NOMAD_NAMESPACE")))
  }

  /**
   * Each scheduler setting whose variable is present takes that variable's value, every
   * other setting and everything outside the scheduler settings is unchanged; setting
   * the token file leaves the token as it was.
   */
  lemma EnvOverridesFields(c: Config, env: map<string, string>)
    ensures var r := EnvOverrides(c, env);
      && r.nomad.address == (if "NOMAD_ADDR" in env then env["NOMAD_ADDR"] else c.nomad.address)
      && r.nomad.token == (if "NOMAD_TOKEN" in env then env["NOMAD_TOKEN"] else c.nomad.token)
      && r.nomad.tokenFile == (if "NOMAD_TOKEN_FILE" in env then env["NOMAD_TOKEN_FILE"] else c.nomad.tokenFile)
      && r.nomad.region == (if "NOMAD_REGION" in env then env["NOMAD_REGION"] else c.nomad.region)
      && r.nomad.namespace == (if "NOMAD_NAMESPACE" in env then env["NOMAD_NAMESPACE"] else c.nomad.namespace)
      && r.defaultImage == c.defaultImage && r.helperImage == c.helperImage && r.job == c.job
  {
  }

  /** Applying the environment twice is applying it once; with no scheduler variable set, nothing changes. */
  lemma EnvOverridesIdempotent(c: Config, env: map<string, string>)
    ensures EnvOverrides(EnvOverrides(c, env), env) == EnvOverrides(c, env)
    ensures (forall name :: name in env ==> name !in {"NOMAD_ADDR", "NOMAD_TOKEN", "NOMAD_TOKEN_FILE", "NOMAD_REGION", "NOMAD_NAMESPACE"})
      ==> EnvOverrides(c, env) == c
  {
  }

  /** The configuration the commands share, which WithEnv updates in place. */
  class SharedConfig {
    var value: Config

    constructor(c: Config)
      ensures value == c
    {
      value := c;
    }

    /** Config.WithEnv: one setting at a time, each only when its variable is present. */
    method WithEnv(env: map<string, string>)
      modifies this
      ensures value == EnvOverrides(old(value), env)
    {
      if "NOMAD_ADDR" in env {
        value := value.(nomad := value.nomad.(address := env["NOMAD_ADDR"]));
      }
      if "NOMAD_TOKEN" in env {
        value := value.(nomad := value.nomad.(token := env["NOMAD_TOKEN"]));
      }
      if "NOMAD_TOKEN_FILE" in env {
        value := value.(nomad := value.nomad.(tokenFile := env["NOMAD_TOKEN_FILE"]));
      }
      if "NOMAD_REGION" in env {
        value := value.(nomad := value.nomad.(region := env["NOMAD_REGION"]));
      }
      if "NOMAD_NAMESPACE" in env {
        value := value.(nomad := value.nomad.(namespace := env["NOMAD_NAMESPACE"]));
      }
    }
  }

  // ---------------------------------------------------------------- task types

  /** The position of the first task type named `name`, or |types| when there is none. */
  function FirstTaskType(types: seq<TaskType>, name: string): (k: nat)
    ensures k <= |types|
    ensures k < |types| ==> types[k].taskType == name
    ensures forall j :: 0 <= j < k ==> types[j].taskType != name
  {
    if types == [] then 0
    else if types[0].taskType == name then 0
    else 1 + FirstTaskType(types[1..], name)
  }

  /**
   * Job.GetTaskType: the first task type whose type is `name`; when none matches,
   * the error "task type '<name>' not found".
   */
  function GetTaskType(job: Job, name: string): (r: Result<TaskType>)
    ensures r.Ok? ==> r.value.taskType == name
    ensures r.Err? ==> r.error == Other("task type '" + name + "' not found")
  {
    var k := FirstTaskType(job.taskTypes, name);
    if k < |job.taskTypes| then Ok(job.taskTypes[k])
    else Err(Other("task type '" + name + "' not found"))
  }

  /** GetTaskType finds the first task type of that name, and fails exactly when there is none. */
  lemma GetTaskTypeFirstMatch(job: Job, name: string)
    ensures var r := GetTaskType(job, name);
      r.Ok? ==> exists k :: (0 <= k < |job.taskTypes| && job.taskTypes[k] == r.value
        && forall j :: 0 <= j < k ==> job.taskTypes[j].taskType != name)
    ensures GetTaskType(job, name).Err? <==> forall t :: t in job.taskTypes ==> t.taskType != name
  {
  }

  // ---------------------------------------------------------------- driver configuration

  /** What text/template's Parse produced; only the engine looks inside. */
  datatype ParsedTemplate = ParsedTemplate(source: string)

  /**
   * The libraries DriverConfig delegates to, as uninterpreted functions: template
   * parsing, template execution against the task data, decoding the rendered text as
   * HCL into attribute values, and converting the `args` attribute (Null when absent)
   * into a Go map, None when the conversion fails.
   */
  datatype TemplateEngine<!D> = TemplateEngine(
    parse: string -> Result<ParsedTemplate>,
    execute: (ParsedTemplate, D) -> Result<string>,
    decode: string -> Result<map<string, Json>>,
    convert: Json -> Option<map<string, Json>>)

  /** The `args` attribute of a decoded configuration. */
  function Args(attributes: map<string, Json>): Json {
    if "args" in attributes then attributes["args"] else Null
  }

  /**
   * TaskType.DriverConfig: renders the task type's template with `data` and decodes
   * it. Parse, execute and decode errors are returned; the result is the converted
   * `args` attribute alone; a failed conversion panics.
   */
  function DriverConfig<D>(t: TaskType, data: D, engine: TemplateEngine<D>): (r: Outcome<Result<map<string, Json>>>)
    ensures !r.StillPolling?
  {
    match engine.parse(t.configTemplate)
    case Err(e) => Done(Err(e))
    case Ok(tmpl) =>
      match engine.execute(tmpl, data)
      case Err(e) => Done(Err(e))
      case Ok(text) =>
        match engine.decode(text)
        case Err(e) => Done(Err(e))
        case Ok(attributes) =>
          match engine.convert(Args(attributes))
          case None => Panicked
          case Some(config) => Done(Ok(config))
  }

  /**
   * What each outcome of DriverConfig says about the stages that produced it: a parse
   * error is returned as is; any error is the parse, execute or decode error; a
   * configuration is the converted `args` of a decoded rendering; a panic is a failed
   * conversion of one.
   */
  lemma DriverConfigStages<D>(t: TaskType, data: D, engine: TemplateEngine<D>)
    ensures engine.parse(t.configTemplate).Err? ==>
      DriverConfig(t, data, engine) == Done(Err(engine.parse(t.configTemplate).error))
    ensures var r := DriverConfig(t, data, engine);
      r.Done? && r.value.Err? ==>
      || engine.parse(t.configTemplate) == Err(r.value.error)
      || (engine.parse(t.configTemplate).Ok? &&
          var rendered := engine.execute(engine.parse(t.configTemplate).value, data);
          || rendered == Err(r.value.error)
          || (rendered.Ok? && engine.decode(rendered.value) == Err(r.value.error)))
    ensures var r := DriverConfig(t, data, engine);
      r.Done? && r.value.Ok? ==>
      && engine.parse(t.configTemplate).Ok?
      && var rendered := engine.execute(engine.parse(t.configTemplate).value, data);
      && rendered.Ok?
      && engine.decode(rendered.value).Ok?
      && engine.convert(Args(engine.decode(rendered.value).value)) == Some(r.value.value)
    ensures var r := DriverConfig(t, data, engine);
      r.Panicked? ==>
      && engine.parse(t.configTemplate).Ok?
      && var rendered := engine.execute(engine.parse(t.configTemplate).value, data);
      && rendered.Ok?
      && engine.decode(rendered.value).Ok?
      && engine.convert(Args(engine.decode(rendered.value).value)).None?
  {
  }

  /**
   * TaskType.CreateNomadTask: a task carrying the task type's driver, user,
   * constraints, affinities, resources and metadata verbatim and the rendered driver
   * configuration; name, leader flag and templates are left for the caller. A driver
   * configuration error is returned as is.
   */
  function CreateNomadTask<D>(t: TaskType, data: D, engine: TemplateEngine<D>): (r: Outcome<Result<Task>>)
    ensures !r.StillPolling?
  {
    var rendered := DriverConfig(t, data, engine);
    if rendered.Done? then
      match rendered.value
      case Err(e) => Done(Err(e))
      case Ok(config) =>
        Done(Ok(Task("", t.driver, t.user, config, t.constraints, t.affinities, t.resources, t.meta, false, [])))
    else Panicked
  }

  /**
   * A driver configuration error is CreateNomadTask's error; it panics exactly when
   * DriverConfig does; a task it builds carries the task type's fields verbatim and
   * the rendered configuration, with name, leader flag and templates unset.
   */
  lemma CreateNomadTaskCopies<D>(t: TaskType, data: D, engine: TemplateEngine<D>)
    ensures DriverConfig(t, data, engine).Done? && DriverConfig(t, data, engine).value.Err? ==>
      CreateNomadTask(t, data, engine) == Done(Err(DriverConfig(t, data, engine).value.error))
    ensures CreateNomadTask(t, data, engine).Panicked? <==> DriverConfig(t, data, engine).Panicked?
    ensures var r := CreateNomadTask(t, data, engine);
      r.Done? && r.value.Ok? ==>
      var task := r.value.value;
      && DriverConfig(t, data, engine) == Done(Ok(task.config))
      && task.driver == t.driver && task.user == t.user
      && task.constraints == t.constraints && task.affinities == t.affinities
      && task.resources == t.resources && task.meta == t.meta
      && task.name == "" && !task.leader && task.templates == []
  {
  }
}
