/** The Task record of lk_flow/models/tasks.py: a declaration with default
    field values and no operations. A Python `None` string is `None` here. */
module Tasks {
  import opened Outcomes

  datatype Task = Task(
    name: string,
    command: Option<string>,
    directory: Option<string>,
    autoRestart: bool,
    restartRetries: int,
    environment: Option<string>,
    cronExpression: Option<string>,  // None: never scheduled
    triggerEvents: Option<string>,   // None: no hook events
    extraJson: string,               // extra fields for plugins
    stdoutLogfile: Option<string>,   // read by SubProcess but not declared; None: derived from name
    stderrLogfile: Option<string>)

  /** `Task(name=name)`: every field but the name takes its default. */
  function NewTask(name: string): (t: Task)
    ensures t.name == name
    ensures t.command.None? && t.directory.None? && t.environment.None?
    ensures !t.autoRestart && t.restartRetries == 0
    ensures t.cronExpression.None? && t.triggerEvents.None?
    ensures t.extraJson == "{}"
    ensures t.stdoutLogfile.None? && t.stderrLogfile.None?
  {
    Task(name, None, None, false, 0, None, None, None, "{}", None, None)
  }

  /** The fields tasks.py declares on Task. The two log paths are not
      among them: they are completed here (see README, Findings). */
  const DeclaredFields: set<string> := {"name", "command", "directory", "auto_restart", "restart_retries",
                                        "environment", "cron_expression", "trigger_events", "extra_json"}

  /** Reading attribute `f` of a Task as tasks.py declares it: the model
      has no undeclared attribute, so reading one raises AttributeError. */
  function FieldAsWritten(f: string): (r: Result<()>)
    ensures r.Ok? <==> f in DeclaredFields
    ensures r.Err? ==> r.error == AttributeError(f)
  {
    if f in DeclaredFields then Ok(()) else Err(AttributeError(f))
  }

  /** Python truthiness of an optional string: neither None nor empty. */
  predicate Truthy(s: Option<string>)
  {
    s.Some? && s.value != []
  }

  /** `if task.cron_expression:` — the task is time-scheduled. */
  predicate Scheduled(t: Task)
  {
    Truthy(t.cronExpression)
  }

  /** `if task.trigger_events:` — the task declares hooks. */
  predicate HasHooks(t: Task)
  {
    Truthy(t.triggerEvents)
  }
}
