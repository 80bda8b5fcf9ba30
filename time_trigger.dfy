/** lk_flow/plugin/time_trigger.py: the TimeTrigger plugin. The class-level
    dict PROCESS_SCHEDULE (task name -> next start time) is a field of one
    TimeTrigger instance. Times are integers (seconds); the wall clock and
    croniter are parameters: `cron(expr, base)` is the answer of
    `croniter(expr, base).next(datetime)`, the next fire time after `base`,
    or the error croniter raises for that expression. */
module TimeTriggers {
  import opened Outcomes
  import opened Tasks
  import opened Events
  import opened Contexts

  type Cron = (Option<string>, int) -> Result<int>

  // ---------------------------------------------------------------------
  // Adding and dropping schedule entries

  /** What adding tasks leaves: the schedule, and the error that stopped
      the additions, if any. */
  datatype Plan = Plan(schedule: map<string, int>, error: Option<Error>)

  /** `_add_task`: a task with a non-empty `cron_expression` is scheduled
      at the next fire time after `clock`, replacing any entry of its name;
      any other task leaves the schedule as it is. */
  function AddOne(s: map<string, int>, task: Task, clock: int, cron: Cron): (p: Plan)
    ensures !Scheduled(task) ==> p == Plan(s, None)
    ensures Scheduled(task) && cron(task.cronExpression, clock).Err? ==>
      p == Plan(s, Some(cron(task.cronExpression, clock).error))
    ensures Scheduled(task) && cron(task.cronExpression, clock).Ok? ==>
      p.error.None? && p.schedule.Keys == s.Keys + {task.name}
      && p.schedule[task.name] == cron(task.cronExpression, clock).value
      && forall n :: n in s && n != task.name ==> p.schedule[n] == s[n]
  {
    if !Scheduled(task) then Plan(s, None)
    else match cron(task.cronExpression, clock)
      case Err(err) => Plan(s, Some(err))
      case Ok(next) => Plan(s[task.name := next], None)
  }

  /** `_init_time_trigger`'s loop: `_add_task` for each config in order;
      an error propagates and ends the loop. */
  function AddEach(s: map<string, int>, configs: seq<Task>, clock: int, cron: Cron): Plan
    decreases |configs|
  {
    if configs == [] then Plan(s, None)
    else
      var p := AddOne(s, configs[0], clock, cron);
      if p.error.Some? then p else AddEach(p.schedule, configs[1..], clock, cron)
  }

  /** The names of the time-scheduled configs. */
  function ScheduledNames(configs: seq<Task>): set<string>
  {
    set c | c in configs && Scheduled(c) :: c.name
  }

  /** Initialising from the registered configs schedules exactly the
      time-scheduled ones, next to the entries already there. */
  lemma {:induction false} AddEachKeys(s: map<string, int>, configs: seq<Task>, clock: int, cron: Cron)
    requires AddEach(s, configs, clock, cron).error.None?
    ensures AddEach(s, configs, clock, cron).schedule.Keys == s.Keys + ScheduledNames(configs)
    decreases |configs|
  {
    if configs != [] {
      var p := AddOne(s, configs[0], clock, cron);
      AddEachKeys(p.schedule, configs[1..], clock, cron);
      assert configs == [configs[0]] + configs[1..];
      assert ScheduledNames(configs) == ScheduledNames(configs[..1]) + ScheduledNames(configs[1..]);
    }
  }

  /** A config whose `cron_expression` is empty adds no entry. */
  lemma {:induction false} AddEachUnscheduled(s: map<string, int>, configs: seq<Task>, clock: int, cron: Cron,
                                              n: string)
    requires forall c :: c in configs && c.name == n ==> !Scheduled(c)
    ensures n in AddEach(s, configs, clock, cron).schedule <==> n in s
    ensures n in s ==> AddEach(s, configs, clock, cron).schedule[n] == s[n]
    decreases |configs|
  {
    if configs != [] {
      var p := AddOne(s, configs[0], clock, cron);
      assert forall c :: c in configs[1..] ==> c in configs;
      AddEachUnscheduled(p.schedule, configs[1..], clock, cron, n);
    }
  }

  /** `_delete_task_event_listener`: `PROCESS_SCHEDULE.pop(event.task_name,
      None)`. AttributeError without a `task_name`, TypeError for a Task
      (unhashable); a string name's entry is removed, and any other value
      matches no key. */
  function Dropped(s: map<string, int>, e: Event): (r: Result<map<string, int>>)
    ensures r.Err? <==> Get(e, "task_name").None? || Get(e, "task_name").value.TaskValue?
    ensures Get(e, "task_name").None? ==> r == Err(AttributeError("task_name"))
    ensures Get(e, "task_name").Some? && Get(e, "task_name").value.TaskValue? ==>
      r == Err(TypeError("unhashable type: 'Task'"))
    ensures Get(e, "task_name").Some? && Get(e, "task_name").value.Text? ==>
      r == Ok(s - {Get(e, "task_name").value.text})
    ensures r.Ok? && !Get(e, "task_name").value.Text? ==> r == Ok(s)
  {
    match Attribute(e, "task_name")
    case Err(err) => Err(err)
    case Ok(a) =>
      match AsKey(a)
      case Err(err) => Err(err)
      case Ok(Some(n)) => Ok(s - {n})
      case Ok(None) => Ok(s)
  }

  /** TASK_ADD then TASK_DELETE of a scheduled task takes its entry out
      again and leaves every other entry as before. */
  lemma AddThenDrop(s: map<string, int>, task: Task, clock: int, cron: Cron, e: Event)
    requires AddOne(s, task, clock, cron).error.None?
    requires Get(e, "task_name") == Some(Text(task.name))
    ensures Dropped(AddOne(s, task, clock, cron).schedule, e) == Ok(s - {task.name})
  {
    var p := AddOne(s, task, clock, cron);
    assert Attribute(e, "task_name") == Ok(Text(task.name));
    assert p.schedule - {task.name} == s - {task.name};
  }

  // ---------------------------------------------------------------------
  // The insertion order of PROCESS_SCHEDULE

  /** `order` lists the keys of a dict: each once, and nothing else. */
  ghost predicate Listed(order: seq<string>, keys: set<string>)
  {
    Distinct(order) && forall n :: n in order <==> n in keys
  }

  /** Assigning `d[n]`: a new key goes last, an existing key keeps its
      place. */
  function Keep(order: seq<string>, n: string): seq<string>
  {
    if n in order then order else order + [n]
  }

  /** Popping `n`: the other keys keep their relative order. */
  function Without(order: seq<string>, n: string): seq<string>
  {
    if order == [] then []
    else if order[0] == n then Without(order[1..], n)
    else [order[0]] + Without(order[1..], n)
  }

  /** An assignment keeps the order a listing of the keys, and only
      appends to it. */
  lemma KeepListed(order: seq<string>, keys: set<string>, n: string)
    requires Listed(order, keys)
    ensures Listed(Keep(order, n), keys + {n})
    ensures order <= Keep(order, n)
  {
  }

  lemma {:induction false} WithoutMembers(order: seq<string>, n: string)
    ensures forall x :: x in Without(order, n) <==> x in order && x != n
  {
    if order != [] {
      WithoutMembers(order[1..], n);
      assert forall x :: x in order <==> x == order[0] || x in order[1..];
    }
  }

  /** A pop keeps the order a listing of the remaining keys. */
  lemma {:induction false} WithoutListed(order: seq<string>, keys: set<string>, n: string)
    requires Listed(order, keys)
    ensures Listed(Without(order, n), keys - {n})
  {
    WithoutMembers(order, n);
    if order != [] {
      assert Listed(order[1..], keys - {order[0]}) by {
        forall i, j | 0 <= i < j < |order[1..]| ensures order[1..][i] != order[1..][j] {
          assert order[1..][i] == order[i + 1] && order[1..][j] == order[j + 1];
        }
        forall x ensures x in order[1..] <==> x in keys - {order[0]} {
          if x in order[1..] {
            var k :| 0 <= k < |order[1..]| && order[1..][k] == x;
            assert order[k + 1] == x;
          }
          assert x in order ==> x == order[0] || x in order[1..];
        }
      }
      WithoutListed(order[1..], keys - {order[0]}, n);
      WithoutMembers(order[1..], n);
    }
  }

  /** Popping a listed key cuts out exactly its position. */
  lemma {:induction false} WithoutAt(order: seq<string>, i: nat)
    requires Distinct(order) && i < |order|
    ensures Without(order, order[i]) == order[..i] + order[i + 1..]
  {
    if i == 0 {
      WithoutAbsent(order[1..], order[0]);
    } else {
      assert Distinct(order[1..]) by {
        forall a, b | 0 <= a < b < |order[1..]| ensures order[1..][a] != order[1..][b] {
          assert order[1..][a] == order[a + 1] && order[1..][b] == order[b + 1];
        }
      }
      assert order[1..][i - 1] == order[i];
      WithoutAt(order[1..], i - 1);
      assert order[..i] == [order[0]] + order[1..][..i - 1];
      assert order[i + 1..] == order[1..][i..];
    }
  }

  /** Popping a key that is not there changes nothing. */
  lemma {:induction false} WithoutAbsent(order: seq<string>, n: string)
    requires n !in order
    ensures Without(order, n) == order
  {
    if order != [] {
      WithoutAbsent(order[1..], n);
    }
  }

  /** The order after `_add_task(task)`. */
  function OrderOne(order: seq<string>, task: Task, clock: int, cron: Cron): seq<string>
  {
    if Scheduled(task) && cron(task.cronExpression, clock).Ok? then Keep(order, task.name) else order
  }

  /** The order after `_add_task` for each of `configs`, in turn. */
  function OrderEach(order: seq<string>, configs: seq<Task>, clock: int, cron: Cron): seq<string>
    decreases |configs|
  {
    if configs == [] then order
    else OrderOne(OrderEach(order, configs[..|configs| - 1], clock, cron), configs[|configs| - 1], clock, cron)
  }

  lemma OrderEachSnoc(order: seq<string>, configs: seq<Task>, t: Task, clock: int, cron: Cron)
    ensures OrderEach(order, configs + [t], clock, cron) == OrderOne(OrderEach(order, configs, clock, cron), t, clock, cron)
  {
    assert (configs + [t])[..|configs|] == configs;
  }

  /** `_add_task` keeps the order a listing of the schedule's keys. */
  lemma AddOneListed(order: seq<string>, s: map<string, int>, task: Task, clock: int, cron: Cron)
    requires Listed(order, s.Keys)
    ensures Listed(OrderOne(order, task, clock, cron), AddOne(s, task, clock, cron).schedule.Keys)
  {
    if Scheduled(task) && cron(task.cronExpression, clock).Ok? {
      KeepListed(order, s.Keys, task.name);
    }
  }

  // ---------------------------------------------------------------------
  // The heartbeat sweep

  /** `_should_start(now, name)`: `now >= PROCESS_SCHEDULE[name]`; KeyError
      for an unscheduled name, TypeError when `now` is not a time. */
  function ShouldStart(s: map<string, int>, now: Attr, name: string): (r: Result<bool>)
    ensures r.Err? <==> name !in s || !now.Time?
    ensures name !in s ==> r == Err(KeyError(name))
    ensures name in s && !now.Time? ==> r.error.TypeError?
    ensures r.Ok? ==> (r.value <==> s[name] <= now.time)
  {
    if name !in s then Err(KeyError(name))
    else if !now.Time? then Err(TypeError("'>=' not supported between instances"))
    else Ok(now.time >= s[name])
  }

  /** What one heartbeat sees: the names in PROCESS_RUNNING, the config of
      the manager `get_process` returns for each registered name, and
      `event.now` as read from the HEARTBEAT event. */
  datatype Tick = Tick(running: set<string>, configs: map<string, Task>, now: Result<Attr>, clock: int)

  /** Where a sweep stands: the schedule, the calls made so far, and the
      error that ended it, if any. */
  datatype Sweep = Sweep(schedule: map<string, int>, emitted: seq<Call>, error: Option<Error>)

  /** One iteration of `_work` for `name`: skip a running task; otherwise
      `get_process(name)` (TaskNotFound when nothing is registered), then
      `_should_start`; a due task gets `start_task(name)` and then a new
      entry from its config's `cron_expression`. */
  function Visit(sw: Sweep, name: string, tick: Tick, cron: Cron): Sweep
  {
    if name in tick.running then sw
    else
      var e1 := sw.emitted + [Call.GetProcess(name)];
      if name !in tick.configs then Sweep(sw.schedule, e1, Some(TaskNotFound(name)))
      else match tick.now
        case Err(err) => Sweep(sw.schedule, e1, Some(err))
        case Ok(now) =>
          match ShouldStart(sw.schedule, now, name)
          case Err(err) => Sweep(sw.schedule, e1, Some(err))
          case Ok(false) => Sweep(sw.schedule, e1, None)
          case Ok(true) =>
            var e2 := e1 + [Call.StartTask(name)];
            match cron(tick.configs[name].cronExpression, tick.clock)
            case Err(err) => Sweep(sw.schedule, e2, Some(err))
            case Ok(next) => Sweep(sw.schedule[name := next], e2, None)
  }

  /** `_work` visiting `names` in order, stopping at the first error. */
  function WorkOver(sw: Sweep, names: seq<string>, tick: Tick, cron: Cron): Sweep
    decreases |names|
  {
    if names == [] || sw.error.Some? then sw
    else WorkOver(Visit(sw, names[0], tick, cron), names[1..], tick, cron)
  }

  /** A task the heartbeat finds due: not running, and its entry at or
      before `now`. */
  predicate Due(s: map<string, int>, name: string, tick: Tick)
  {
    name !in tick.running && name in s && tick.now.Ok? && tick.now.value.Time?
    && s[name] <= tick.now.value.time
  }

  /** `n`'s entry is the next fire time of its config's `cron_expression`. */
  predicate Fired(n: string, tick: Tick, cron: Cron, s: map<string, int>)
  {
    n in tick.configs && n in s && cron(tick.configs[n].cronExpression, tick.clock) == Ok(s[n])
  }

  /** The sweep never adds or removes an entry. */
  lemma {:induction false} WorkKeys(sw: Sweep, names: seq<string>, tick: Tick, cron: Cron)
    requires forall n :: n in names ==> n in sw.schedule
    ensures WorkOver(sw, names, tick, cron).schedule.Keys == sw.schedule.Keys
    decreases |names|
  {
    if names != [] && sw.error.None? {
      var sw1 := Visit(sw, names[0], tick, cron);
      assert forall n :: n in names[1..] ==> n in names;
      WorkKeys(sw1, names[1..], tick, cron);
    }
  }

  /** The sweep only extends the calls made before it. */
  lemma {:induction false} WorkEmits(sw: Sweep, names: seq<string>, tick: Tick, cron: Cron)
    ensures sw.emitted <= WorkOver(sw, names, tick, cron).emitted
    decreases |names|
  {
    if names != [] && sw.error.None? {
      WorkEmits(Visit(sw, names[0], tick, cron), names[1..], tick, cron);
    }
  }

  /** A running task is never started, whatever else happens. */
  lemma {:induction false} RunningNotStarted(sw: Sweep, names: seq<string>, tick: Tick, cron: Cron, n: string)
    requires n in tick.running && Call.StartTask(n) !in sw.emitted
    ensures Call.StartTask(n) !in WorkOver(sw, names, tick, cron).emitted
    decreases |names|
  {
    if names != [] && sw.error.None? {
      var sw1 := Visit(sw, names[0], tick, cron);
      assert Call.StartTask(n) !in sw1.emitted;
      RunningNotStarted(sw1, names[1..], tick, cron, n);
    }
  }

  /** A visit to another name neither touches `n`'s entry nor starts `n`. */
  lemma VisitOther(sw: Sweep, m: string, tick: Tick, cron: Cron, n: string)
    requires m != n
    ensures var sw1 := Visit(sw, m, tick, cron);
      (n in sw1.schedule <==> n in sw.schedule)
      && (n in sw.schedule ==> sw1.schedule[n] == sw.schedule[n])
      && (Call.StartTask(n) in sw1.emitted <==> Call.StartTask(n) in sw.emitted)
  {
  }

  /** An untouched entry: a name outside `names` keeps its entry and is
      not started. */
  lemma {:induction false} WorkOthers(sw: Sweep, names: seq<string>, tick: Tick, cron: Cron, n: string)
    requires n !in names
    ensures var r := WorkOver(sw, names, tick, cron);
      (n in r.schedule <==> n in sw.schedule)
      && (n in sw.schedule ==> r.schedule[n] == sw.schedule[n])
      && (Call.StartTask(n) in r.emitted <==> Call.StartTask(n) in sw.emitted)
    decreases |names|
  {
    if names != [] && sw.error.None? {
      VisitOther(sw, names[0], tick, cron, n);
      WorkOthers(Visit(sw, names[0], tick, cron), names[1..], tick, cron, n);
    }
  }

  /** A sweep that ends without error over distinct scheduled names starts
      exactly the due ones, each once, and gives exactly those a new entry
      from their config's `cron_expression`; the others keep theirs. */
  lemma {:induction false} WorkEntry(sw: Sweep, names: seq<string>, tick: Tick, cron: Cron, n: string)
    requires Distinct(names) && n in names && n in sw.schedule
    requires Call.StartTask(n) !in sw.emitted
    requires WorkOver(sw, names, tick, cron).error.None?
    ensures Call.StartTask(n) in WorkOver(sw, names, tick, cron).emitted <==> Due(sw.schedule, n, tick)
    ensures n in WorkOver(sw, names, tick, cron).schedule
    ensures Due(sw.schedule, n, tick) ==> Fired(n, tick, cron, WorkOver(sw, names, tick, cron).schedule)
    ensures !Due(sw.schedule, n, tick) ==> WorkOver(sw, names, tick, cron).schedule[n] == sw.schedule[n]
    decreases |names|
  {
    assert sw.error.None?;
    var sw1 := Visit(sw, names[0], tick, cron);
    if names[0] == n {
      assert n !in names[1..] by {
        forall j | 0 <= j < |names[1..]| ensures names[1..][j] != n {
          assert names[1..][j] == names[j + 1];
        }
      }
      WorkOthers(sw1, names[1..], tick, cron, n);
      VisitSelf(sw, n, tick, cron, WorkOver(sw1, names[1..], tick, cron));
    } else {
      assert n in names[1..];
      VisitOther(sw, names[0], tick, cron, n);
      assert Distinct(names[1..]) by {
        forall i, j | 0 <= i < j < |names[1..]| ensures names[1..][i] != names[1..][j] {
          assert names[1..][i] == names[i + 1] && names[1..][j] == names[j + 1];
        }
      }
      assert Due(sw1.schedule, n, tick) == Due(sw.schedule, n, tick);
      WorkEntry(sw1, names[1..], tick, cron, n);
    }
  }

  /** The visit to `n` itself, seen from the end of a sweep that leaves
      `n` alone afterwards. */
  lemma VisitSelf(sw: Sweep, n: string, tick: Tick, cron: Cron, r: Sweep)
    requires sw.error.None? && n in sw.schedule && Call.StartTask(n) !in sw.emitted
    requires var sw1 := Visit(sw, n, tick, cron);
      sw1.error.None? && r.error.None?
      && (n in r.schedule <==> n in sw1.schedule)
      && (n in sw1.schedule ==> r.schedule[n] == sw1.schedule[n])
      && (Call.StartTask(n) in r.emitted <==> Call.StartTask(n) in sw1.emitted)
    ensures Call.StartTask(n) in r.emitted <==> Due(sw.schedule, n, tick)
    ensures n in r.schedule
    ensures Due(sw.schedule, n, tick) ==> Fired(n, tick, cron, r.schedule)
    ensures !Due(sw.schedule, n, tick) ==> r.schedule[n] == sw.schedule[n]
  {
    var e1 := sw.emitted + [Call.GetProcess(n)];
    assert Call.StartTask(n) !in e1;
    assert Call.StartTask(n) in e1 + [Call.StartTask(n)];
  }

  // ---------------------------------------------------------------------
  // The plugin

  /** The listeners `setup_mod` subscribes: `_work` to HEARTBEAT, and, once
      `_init_time_trigger` has returned, `_add_task_event_listener` to
      TASK_ADD and `_delete_task_event_listener` to TASK_DELETE. */
  function TimeHandlers(k: EventKind, initialised: bool): seq<Handler>
  {
    if k == Heartbeat then [Handler.TimeWork]
    else if initialised && k == TaskAdd then [Handler.TimeAddTask]
    else if initialised && k == TaskDelete then [Handler.TimeDeleteTask]
    else []
  }

  class TimeTrigger {
    var schedule: map<string, int>
    /** The keys of `schedule` in insertion order: the order in which a
        Python dict yields them. */
    var order: seq<string>

    ghost predicate Valid()
      reads this
    {
      Listed(order, schedule.Keys)
    }

    constructor ()
      ensures schedule == map[] && order == [] && Valid()
    {
      schedule := map[];
      order := [];
    }

    /** `_add_task`. */
    method AddTask(task: Task, clock: int, cron: Cron) returns (r: Result<()>)
      modifies this`schedule, this`order
      ensures Plan(schedule, ErrorOf(r)) == AddOne(old(schedule), task, clock, cron)
      ensures order == OrderOne(old(order), task, clock, cron)
      ensures old(Valid()) ==> Valid()
    {
      if old(Valid()) {
        AddOneListed(order, schedule, task, clock, cron);
      }
      if Scheduled(task) {
        match cron(task.cronExpression, clock)
        case Err(err) =>
          return Err(err);
        case Ok(next) =>
          schedule := schedule[task.name := next];
          order := Keep(order, task.name);
      }
      r := Ok(());
    }

    /** `_add_task_event_listener`: `_add_task(event.task)`. */
    method AddTaskEventListener(e: Event, clock: int, cron: Cron) returns (r: Result<()>)
      modifies this`schedule, this`order
      ensures TaskOf(e, "cron_expression").Err? ==>
        r == Err(TaskOf(e, "cron_expression").error) && schedule == old(schedule) && order == old(order)
      ensures TaskOf(e, "cron_expression").Ok? ==>
        Plan(schedule, ErrorOf(r)) == AddOne(old(schedule), TaskOf(e, "cron_expression").value, clock, cron)
        && order == OrderOne(old(order), TaskOf(e, "cron_expression").value, clock, cron)
      ensures old(Valid()) ==> Valid()
    {
      match TaskOf(e, "cron_expression")
      case Err(err) =>
        r := Err(err);
      case Ok(task) =>
        r := AddTask(task, clock, cron);
    }

    /** `_delete_task_event_listener`. */
    method DeleteTaskEventListener(e: Event) returns (r: Result<()>)
      modifies this`schedule, this`order
      ensures Dropped(old(schedule), e).Err? ==>
        r == Err(Dropped(old(schedule), e).error) && schedule == old(schedule) && order == old(order)
      ensures Dropped(old(schedule), e).Ok? ==> r.Ok? && schedule == Dropped(old(schedule), e).value
      ensures r.Ok? && Get(e, "task_name").value.Text? ==> order == Without(old(order), Get(e, "task_name").value.text)
      ensures r.Ok? && !Get(e, "task_name").value.Text? ==> order == old(order)
      ensures old(Valid()) ==> Valid()
    {
      var name := Attribute(e, "task_name");
      if name.Err? {
        return Err(name.error);
      }
      var key := AsKey(name.value);
      if key.Err? {
        return Err(key.error);
      }
      if key.value.Some? {
        if Valid() {
          WithoutListed(order, schedule.Keys, key.value.value);
        }
        schedule := schedule - {key.value.value};
        order := Without(order, key.value.value);
      }
      r := Ok(());
    }

    /** `_init_time_trigger`: `get_all_processes()` (whose answer is the
        configs of the registered processes, in order), then `_add_task`
        for each. */
    method InitTimeTrigger(ctx: Context, configs: seq<Task>, clock: int, cron: Cron) returns (r: Result<()>)
      modifies this`schedule, this`order, ctx`calls
      ensures ctx.calls == old(ctx.calls) + [Call.GetAllProcesses]
      ensures Plan(schedule, ErrorOf(r)) == AddEach(old(schedule), configs, clock, cron)
      ensures r.Ok? ==> order == OrderEach(old(order), configs, clock, cron)
      ensures old(Valid()) ==> Valid()
    {
      ctx.Record(Call.GetAllProcesses);
      var i := 0;
      while i < |configs|
        invariant 0 <= i <= |configs|
        invariant AddEach(old(schedule), configs, clock, cron) == AddEach(schedule, configs[i..], clock, cron)
        invariant order == OrderEach(old(order), configs[..i], clock, cron)
        invariant old(Valid()) ==> Valid()
        invariant ctx.calls == old(ctx.calls) + [Call.GetAllProcesses]
      {
        assert configs[i..][1..] == configs[i + 1..];
        OrderEachSnoc(old(order), configs[..i], configs[i], clock, cron);
        assert configs[..i + 1] == configs[..i] + [configs[i]];
        r := AddTask(configs[i], clock, cron);
        if r.Err? {
          return;
        }
        i := i + 1;
      }
      assert configs[..i] == configs;
      r := Ok(());
    }

    /** `setup_mod`: `_work` on HEARTBEAT, then `_init_time_trigger` (whose
        error propagates before the other two listeners are added), then the
        TASK_ADD and TASK_DELETE listeners. */
    method SetupMod(ctx: Context, configs: seq<Task>, clock: int, cron: Cron) returns (r: Result<()>)
      modifies this`schedule, this`order, ctx`calls, ctx.bus
      ensures ctx.calls == old(ctx.calls) + [Call.GetAllProcesses]
      ensures Plan(schedule, ErrorOf(r)) == AddEach(old(schedule), configs, clock, cron)
      ensures r.Ok? ==> order == OrderEach(old(order), configs, clock, cron)
      ensures old(Valid()) ==> Valid()
      ensures forall k :: ctx.bus.Handlers(k) == old(ctx.bus.Handlers(k)) + TimeHandlers(k, r.Ok?)
      ensures ctx.bus.published == old(ctx.bus.published)
    {
      ctx.bus.AddListener(Heartbeat, Handler.TimeWork);
      r := InitTimeTrigger(ctx, configs, clock, cron);
      if r.Err? {
        return;
      }
      ctx.bus.AddListener(TaskAdd, Handler.TimeAddTask);
      ctx.bus.AddListener(TaskDelete, Handler.TimeDeleteTask);
    }

    /** `_work` on a HEARTBEAT event: visits every schedule entry, in the
        dict's insertion order, as Visit says. `configs` answers
        `get_process(name).config`. The sweep only reassigns existing keys,
        so the order stands. */
    method Work(ctx: Context, e: Event, configs: map<string, Task>, clock: int, cron: Cron)
      returns (r: Result<()>)
      requires Valid()
      modifies this`schedule, ctx`calls
      ensures Valid()
      ensures var sw := WorkOver(Sweep(old(schedule), [], None), order,
                                 Tick(old(ctx.processRunning.Keys), configs, Attribute(e, "now"), clock), cron);
        schedule == sw.schedule && ctx.calls == old(ctx.calls) + sw.emitted && ErrorOf(r) == sw.error
    {
      WorkKeys(Sweep(schedule, [], None), order, Tick(ctx.processRunning.Keys, configs, Attribute(e, "now"), clock), cron);
      ghost var tick := Tick(ctx.processRunning.Keys, configs, Attribute(e, "now"), clock);
      ghost var emitted: seq<Call> := [];
      var i := 0;
      while i < |order|
        invariant 0 <= i <= |order|
        invariant ctx.processRunning.Keys == tick.running
        invariant ctx.calls == old(ctx.calls) + emitted
        invariant WorkOver(Sweep(old(schedule), [], None), order, tick, cron)
          == WorkOver(Sweep(schedule, emitted, None), order[i..], tick, cron)
      {
        var name := order[i];
        assert order[i..][1..] == order[i + 1..];
        r, emitted := VisitName(ctx, name, e, configs, clock, cron, tick, old(ctx.calls), emitted);
        if r.Err? {
          return;
        }
        i := i + 1;
      }
      r := Ok(());
    }

    /** One iteration of `_work` for `name`: the calls it makes after
        `calls0 + emitted` and the schedule it leaves are those of Visit. */
    method VisitName(ctx: Context, name: string, e: Event, configs: map<string, Task>, clock: int, cron: Cron,
                     ghost tick: Tick, ghost calls0: seq<Call>, ghost emitted: seq<Call>)
      returns (r: Result<()>, ghost emitted': seq<Call>)
      requires tick == Tick(ctx.processRunning.Keys, configs, Attribute(e, "now"), clock)
      requires ctx.calls == calls0 + emitted
      modifies this`schedule, ctx`calls
      ensures var sw := Visit(Sweep(old(schedule), emitted, None), name, tick, cron);
        schedule == sw.schedule && emitted' == sw.emitted && ctx.calls == calls0 + emitted'
        && ErrorOf(r) == sw.error
    {
      emitted' := emitted;
      r := Ok(());
      if ctx.IsRunning(name) {
        return;
      }
      ctx.Record(Call.GetProcess(name));
      emitted' := emitted' + [Call.GetProcess(name)];
      if name !in configs {
        return Err(TaskNotFound(name)), emitted';
      }
      var now := Attribute(e, "now");
      if now.Err? {
        return Err(now.error), emitted';
      }
      var due := ShouldStart(schedule, now.value, name);
      if due.Err? {
        return Err(due.error), emitted';
      }
      if due.value {
        ctx.StartTask(name);
        emitted' := emitted' + [Call.StartTask(name)];
        var next := cron(configs[name].cronExpression, clock);
        if next.Err? {
          return Err(next.error), emitted';
        }
        schedule := schedule[name := next.value];
      }
    }
  }
}
