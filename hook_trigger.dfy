/** lk_flow/plugin/hook_trigger.py: the HookTrigger plugin. The class-level
    nested defaultdict `hook_listeners` (event -> hook task -> tasks to
    start) is a field of one HookTrigger instance; its contents follow the
    functions of HookTables. */
module HookTriggers {
  import opened Outcomes
  import opened Tasks
  import opened PyStr
  import opened Events
  import opened Contexts
  import opened HookTables

  /** `start_task` for each name, in order. */
  function StartCalls(names: seq<string>): (cs: seq<Call>)
    ensures |cs| == |names|
    ensures forall i :: 0 <= i < |names| ==> cs[i] == Call.StartTask(names[i])
  {
    seq(|names|, i requires 0 <= i < |names| => Call.StartTask(names[i]))
  }

  /** The listeners `setup_mod` subscribes to each event type. */
  function HookHandlers(k: EventKind): seq<Handler>
  {
    if k in {SystemSetup, TaskAdd, TaskDelete} then TaskSetHandlers(k) else TriggerHandlers(k)
  }

  /** The listeners that keep the hook table up to date. */
  function TaskSetHandlers(k: EventKind): seq<Handler>
  {
    match k
    case SystemSetup => [Handler.HookProcessSetAdd]
    case TaskAdd => [Handler.HookTaskAdd]
    case TaskDelete => [Handler.HookTaskRemove]
    case _ => []
  }

  /** `task_hook_trigger` on the six task events. */
  function TriggerHandlers(k: EventKind): seq<Handler>
  {
    match k
    case TaskPreStart | TaskRunning | TaskStop | TaskFinish | TaskRunningError | TaskFinishError =>
      [Handler.HookTaskTrigger]
    case _ => []
  }

  method SubscribeTaskSet(bus: EventBus)
    modifies bus
    ensures forall k :: bus.Handlers(k) == old(bus.Handlers(k)) + TaskSetHandlers(k)
    ensures bus.published == old(bus.published)
  {
    bus.AddListener(SystemSetup, Handler.HookProcessSetAdd);
    bus.AddListener(TaskAdd, Handler.HookTaskAdd);
    bus.AddListener(TaskDelete, Handler.HookTaskRemove);
  }

  method SubscribeTrigger(bus: EventBus)
    modifies bus
    ensures forall k :: bus.Handlers(k) == old(bus.Handlers(k)) + TriggerHandlers(k)
    ensures bus.published == old(bus.published)
  {
    SubscribeStartTrigger(bus);
    SubscribeEndTrigger(bus);
  }

  method SubscribeStartTrigger(bus: EventBus)
    modifies bus
    ensures forall k :: (bus.Handlers(k)
      == old(bus.Handlers(k)) + (if k in {TaskPreStart, TaskRunning, TaskStop} then [Handler.HookTaskTrigger] else []))
    ensures bus.published == old(bus.published)
  {
    bus.AddListener(TaskPreStart, Handler.HookTaskTrigger);
    bus.AddListener(TaskRunning, Handler.HookTaskTrigger);
    bus.AddListener(TaskStop, Handler.HookTaskTrigger);
  }

  method SubscribeEndTrigger(bus: EventBus)
    modifies bus
    ensures forall k :: (bus.Handlers(k)
      == old(bus.Handlers(k)) + (if k in {TaskFinish, TaskRunningError, TaskFinishError} then [Handler.HookTaskTrigger] else []))
    ensures bus.published == old(bus.published)
  {
    bus.AddListener(TaskFinish, Handler.HookTaskTrigger);
    bus.AddListener(TaskRunningError, Handler.HookTaskTrigger);
    bus.AddListener(TaskFinishError, Handler.HookTaskTrigger);
  }

  class HookTrigger {
    var hookListeners: Table

    constructor ()
      ensures hookListeners == map[]
    {
      hookListeners := map[];
    }

    /** `setup_mod`: subscribe `process_set_add` to SYSTEM_SETUP,
        `task_hook_add` to TASK_ADD, `task_hook_remove` to TASK_DELETE and
        `task_hook_trigger` to the six task events, each at the end of that
        event's list. */
    method SetupMod(ctx: Context)
      modifies ctx.bus
      ensures forall k :: ctx.bus.Handlers(k) == old(ctx.bus.Handlers(k)) + HookHandlers(k)
      ensures ctx.bus.published == old(ctx.bus.published)
    {
      SubscribeTaskSet(ctx.bus);
      SubscribeTrigger(ctx.bus);
    }

    /** `add_task_hook(trigger_events, name)`. */
    method AddTaskHook(triggerEvents: Option<string>, name: string) returns (r: Result<()>)
      modifies this`hookListeners
      ensures hookListeners == AddAll(old(hookListeners), Hooks(triggerEvents), name).table
      ensures ErrorOf(r) == AddAll(old(hookListeners), Hooks(triggerEvents), name).error
    {
      if !Truthy(triggerEvents) {
        return Ok(());
      }
      var toks := SplitWs(triggerEvents.value);
      ghost var rs := Parses(toks);
      var i := 0;
      while i < |toks|
        invariant 0 <= i <= |toks|
        invariant AddAll(old(hookListeners), rs, name) == AddAll(hookListeners, rs[i..], name)
      {
        AddAllAt(hookListeners, rs, i, name);
        match ParseToken(toks[i])
        case Err(err) =>
          return Err(err);
        case Ok((k, h)) =>
          hookListeners := Put(hookListeners, k, h, Listed(hookListeners, k, h) + [name]);
        i := i + 1;
      }
      r := Ok(());
    }

    /** `task_hook_add`: the hooks of the event's `task`. */
    method TaskHookAdd(e: Event) returns (r: Result<()>)
      modifies this`hookListeners
      ensures TaskOf(e, "trigger_events").Err? ==>
        r == Err(TaskOf(e, "trigger_events").error) && hookListeners == old(hookListeners)
      ensures TaskOf(e, "trigger_events").Ok? ==>
        var task := TaskOf(e, "trigger_events").value;
        var o := AddAll(old(hookListeners), Hooks(task.triggerEvents), task.name);
        hookListeners == o.table && ErrorOf(r) == o.error
    {
      match TaskOf(e, "trigger_events")
      case Err(err) =>
        r := Err(err);
      case Ok(task) =>
        r := AddTaskHook(task.triggerEvents, task.name);
    }

    /** `task_hook_remove`: take the event's `task` off the lists its
        tokens name, one occurrence each. */
    method TaskHookRemove(e: Event) returns (r: Result<()>)
      modifies this`hookListeners
      ensures TaskOf(e, "trigger_events").Err? ==>
        r == Err(TaskOf(e, "trigger_events").error) && hookListeners == old(hookListeners)
      ensures TaskOf(e, "trigger_events").Ok? ==>
        var task := TaskOf(e, "trigger_events").value;
        var o := RemoveAll(old(hookListeners), Hooks(task.triggerEvents), task.name);
        hookListeners == o.table && ErrorOf(r) == o.error
    {
      match TaskOf(e, "trigger_events")
      case Err(err) =>
        return Err(err);
      case Ok(task) =>
        if !Truthy(task.triggerEvents) {
          return Ok(());
        }
        var toks := SplitWs(task.triggerEvents.value);
        ghost var rs := Parses(toks);
        var i := 0;
        while i < |toks|
          invariant 0 <= i <= |toks|
          invariant RemoveAll(old(hookListeners), rs, task.name) == RemoveAll(hookListeners, rs[i..], task.name)
        {
          RemoveAllAt(hookListeners, rs, i, task.name);
          match ParseToken(toks[i])
          case Err(err) =>
            return Err(err);
          case Ok((k, h)) =>
            if task.name in Listed(hookListeners, k, h) {
              hookListeners := Put(hookListeners, k, h, RemoveFirst(Listed(hookListeners, k, h), task.name));
            }
          i := i + 1;
        }
        r := Ok(());
    }

    /** The tasks `task_hook_trigger` starts for `e`: the list under its
        type and its `task_name`. AttributeError when there is no
        `task_name`, TypeError for a Task (unhashable); any other value
        that is not a string matches no list. */
    function Triggered(e: Event): (r: Result<seq<string>>)
      reads this
      ensures r.Err? <==> Get(e, "task_name").None? || Get(e, "task_name").value.TaskValue?
      ensures Get(e, "task_name").None? ==> r == Err(AttributeError("task_name"))
      ensures Get(e, "task_name").Some? && Get(e, "task_name").value.TaskValue? ==>
        r == Err(TypeError("unhashable type: 'Task'"))
      ensures Get(e, "task_name").Some? && Get(e, "task_name").value.Text? ==>
        r == Ok(Listed(hookListeners, e.eventType, Get(e, "task_name").value.text))
      ensures r.Ok? && !Get(e, "task_name").value.Text? ==> r == Ok([])
    {
      match Attribute(e, "task_name")
      case Err(err) => Err(err)
      case Ok(a) =>
        match AsKey(a)
        case Err(err) => Err(err)
        case Ok(Some(h)) => Ok(Listed(hookListeners, e.eventType, h))
        case Ok(None) => Ok([])
    }

    /** `task_hook_trigger`: `start_task` for every listed task, in list
        order. */
    method TaskHookTrigger(ctx: Context, e: Event) returns (r: Result<()>)
      modifies ctx`calls
      ensures Triggered(e).Err? ==> r == Err(Triggered(e).error) && ctx.calls == old(ctx.calls)
      ensures Triggered(e).Ok? ==> r.Ok? && ctx.calls == old(ctx.calls) + StartCalls(Triggered(e).value)
    {
      match Triggered(e)
      case Err(err) =>
        return Err(err);
      case Ok(names) =>
        var i := 0;
        while i < |names|
          invariant 0 <= i <= |names|
          invariant ctx.calls == old(ctx.calls) + StartCalls(names[..i])
        {
          assert StartCalls(names[..i + 1]) == StartCalls(names[..i]) + [Call.StartTask(names[i])];
          ctx.StartTask(names[i]);
          i := i + 1;
        }
        assert names[..i] == names;
        r := Ok(());
    }

    /** `process_set_add`: `get_all_processes()` (whose answer, the configs
        of the registered processes in order, is `configs`), then the
        hooks of each. */
    method ProcessSetAdd(ctx: Context, configs: seq<Task>) returns (r: Result<()>)
      modifies this`hookListeners, ctx`calls
      ensures ctx.calls == old(ctx.calls) + [Call.GetAllProcesses]
      ensures hookListeners == SetAdd(old(hookListeners), Declared(configs)).table
      ensures ErrorOf(r) == SetAdd(old(hookListeners), Declared(configs)).error
    {
      ctx.Record(Call.GetAllProcesses);
      var i := 0;
      while i < |configs|
        invariant 0 <= i <= |configs|
        invariant SetAdd(old(hookListeners), Declared(configs)) == SetAdd(hookListeners, Declared(configs[i..]))
        invariant ctx.calls == old(ctx.calls) + [Call.GetAllProcesses]
      {
        var c := configs[i];
        assert configs[i..][1..] == configs[i + 1..];
        if HasHooks(c) {
          assert Declared(configs[i..]) == [(c.name, Hooks(c.triggerEvents))] + Declared(configs[i + 1..]);
          r := AddTaskHook(c.triggerEvents, c.name);
          if r.Err? {
            return;
          }
        }
        i := i + 1;
      }
      r := Ok(());
    }
  }
}
