/** lk_flow/core/context.py: the supervisor's registry. The four
    class-level maps PROCESS_ALL / RUNNING / STOPPED / SLEEPING are fields of
    one Context instance. Context members that context.py calls or that the
    plugins call but that the file does not define (add_task, start_task,
    get_process, get_all_processes, delete_task, add_mod_map, get_mod_map)
    are an abstract interface: calling one appends a Call to `calls` and
    changes nothing else. Calls into plugin classes are recorded the same
    way. */
module Contexts {
  import opened Outcomes
  import opened Tasks
  import opened Events
  import opened Subprocesses

  /** A plugin class (a ModAbstraction subclass), known by identity. */
  datatype ModClass = ModClass(id: nat)

  /** A value read from the YAML configuration, as far as Python truthiness
      tells them apart. */
  datatype ConfigValue =
    | Flag(flag: bool)
    | Number(number: int)
    | Chars(chars: string)
    | Null
    | Collection(size: nat)  // a list or a mapping

  /** Python truthiness of a configuration value. */
  predicate Truthful(v: ConfigValue)
  {
    match v
    case Flag(b) => b
    case Number(n) => n != 0
    case Chars(s) => s != []
    case Null => false
    case Collection(n) => n != 0
  }

  /** One plugin's entry of `mod_config`: the value of its `enable` key when
      present, and the names of its keys. */
  datatype ModConfig = ModConfig(enable: Option<ConfigValue>, keys: set<string>)

  /** The parts of Config that the core reads. */
  datatype Config = Config(sleepTime: int, modDir: Option<string>, modConfig: map<string, ModConfig>)

  /** A call into code that is not part of this model. */
  datatype Call =
    // Context members used by the plugins and mod.py
    | AddTask(task: Task)
    | StartTask(name: string)
    | GetProcess(name: string)
    | GetAllProcesses
    | DeleteTask(name: string)
    | AddModMap(modName: string, mod: ModClass)
    | GetModMap
    // ModAbstraction hooks of a plugin class
    | InitMod(mod: ModClass, modConfig: ModConfig)
    | SetupMod(mod: ModClass, modConfig: ModConfig)
    | TeardownMod(mod: ModClass)
    | GetCommands(mod: ModClass, modConfig: ModConfig)

  /** The event `state_check` publishes for an exited process: TASK_FINISH
      for exit code 0, TASK_RUNNING_ERROR otherwise, with no attributes. */
  function ExitCheckEvent(code: int): (e: Event)
    ensures e.eventType == (if code == 0 then TaskFinish else TaskRunningError)
    ensures forall a :: a != "event_type" ==> Get(e, a).None?
  {
    NewEvent(if code == 0 then TaskFinish else TaskRunningError, map[])
  }

  /** The `exit_code` of every manager of a map. */
  function ExitCodes(m: map<string, SubProcess>): (codes: map<string, Option<int>>)
    reads m.Values
    ensures codes.Keys == m.Keys
    ensures forall n :: n in m ==> codes[n] == m[n].exitCode
  {
    map n | n in m :: m[n].exitCode
  }

  /** The events `state_check` publishes for the managers `names`, moved in
      that order. */
  function ExitEvents(codes: map<string, Option<int>>, names: seq<string>): (es: seq<Event>)
    requires forall n :: n in names ==> n in codes && codes[n].Some?
    ensures |es| == |names|
    ensures forall i :: 0 <= i < |names| ==> es[i] == ExitCheckEvent(codes[names[i]].value)
  {
    if names == [] then []
    else ExitEvents(codes, names[..|names| - 1]) + [ExitCheckEvent(codes[names[|names| - 1]].value)]
  }

  lemma ExitEventsSnoc(codes: map<string, Option<int>>, names: seq<string>, n: string)
    requires forall m :: m in names ==> m in codes && codes[m].Some?
    requires n in codes && codes[n].Some?
    ensures ExitEvents(codes, names + [n]) == ExitEvents(codes, names) + [ExitCheckEvent(codes[n].value)]
  {
    assert (names + [n])[..|names|] == names;
  }

  /** `name, subprocess = key`: what iterating the RUNNING map (which
      yields its str keys) and unpacking each key into two names does. */
  function UnpackKey(key: string): (r: Result<(char, char)>)
    ensures r.Ok? <==> |key| == 2
    ensures r.Ok? ==> [r.value.0, r.value.1] == key
    ensures r.Err? ==> r.error.ValueError?
  {
    if |key| < 2 then Err(ValueError("not enough values to unpack (expected 2)"))
    else if |key| > 2 then Err(ValueError("too many values to unpack (expected 2)"))
    else Ok((key[0], key[1]))
  }

  /** The class attribute `Context._env`: the context constructed last,
      or None before the first. */
  class Registry {
    var env: Context?

    constructor ()
      ensures env == null
    {
      env := null;
    }
  }

  /** `Context.get_instance()`: the instance last constructed, or a
      RuntimeError when there is none. */
  function GetInstance(registry: Registry): (r: Result<Context>)
    reads registry
    ensures r.Ok? <==> registry.env != null
    ensures r.Ok? ==> r.value == registry.env
    ensures r.Err? ==> r.error.RuntimeError?
  {
    if registry.env == null then Err(RuntimeError("Context has not been created."))
    else var c: Context := registry.env; Ok(c)
  }

  /** What one publish of `state_check`'s event for exit code `code` raises,
      over the listener map `listeners`. */
  function ExitRaised(listeners: map<EventKind, seq<Handler>>, code: int, verdict: Verdict): Result<()>
  {
    Raised(Listening(listeners, ExitCheckEvent(code).eventType), ExitCheckEvent(code), verdict)
  }

  /** No publish for the moved `names` raised. */
  ghost predicate Quiet(listeners: map<EventKind, seq<Handler>>, codes: map<string, Option<int>>,
                        names: seq<string>, verdict: Verdict)
  {
    forall i :: 0 <= i < |names| ==>
      names[i] in codes && codes[names[i]].Some? && ExitRaised(listeners, codes[names[i]].value, verdict).Ok?
  }

  /** `Context(config)` over the enum as event.py declares it: after
      `Context._env` is set and the bus is created, `EVENT.SYSTEM_CLOSE`
      is read, a member that enum lacks, so the constructor raises
      AttributeError (leaving `get_instance` a half-built object). */
  function InitAsWritten(): (r: Result<()>)
    ensures r == Err(AttributeError("SYSTEM_CLOSE"))
  {
    if !DeclaredInSource(SystemClose) then Err(AttributeError("SYSTEM_CLOSE"))
    else if !DeclaredInSource(Heartbeat) then Err(AttributeError("HEARTBEAT"))
    else Ok(())
  }

  /** What `run` yields for a name that is not running: KeyError when
      neither `sleeping` nor `stopped` holds it; otherwise, for the manager
      it pops (the sleeping one first), what the TASK_PRE_START publish
      raises (`pre`), else the start's error, else what the TASK_RUNNING
      publish raises (`post`). */
  function RunResult(sleeping: map<string, SubProcess>, stopped: map<string, SubProcess>, name: string,
                     pre: Result<()>, post: Result<()>, host: Host, spawn: Result<int>): (r: Result<()>)
    ensures name !in sleeping && name !in stopped ==> r == Err(KeyError(name))
    ensures r.Ok? <==>
      (name in sleeping || name in stopped) && pre.Ok? && post.Ok?
      && StartResult(if name in sleeping then sleeping[name].config else stopped[name].config, host, spawn).Ok?
  {
    if name !in sleeping && name !in stopped then Err(KeyError(name))
    else
      var t := if name in sleeping then sleeping[name].config else stopped[name].config;
      if pre.Err? then pre
      else if StartResult(t, host, spawn).Err? then StartResult(t, host, spawn)
      else post
  }

  class Context {
    const config: Config
    const bus: EventBus
    const sleepTime: int
    var loopEnable: bool
    var processAll: map<string, SubProcess>
    var processRunning: map<string, SubProcess>
    var processStopped: map<string, SubProcess>
    var processSleeping: map<string, SubProcess>
    var modMap: map<string, ModClass>
    /** Every call into code outside this model, in order. */
    var calls: seq<Call>

    /** `__init__` with the EVENT members completed: the loop is enabled,
        a fresh bus has `close_loop` on SYSTEM_CLOSE and `state_check` on
        HEARTBEAT and nothing else. The maps start empty (their values at
        class creation). */
    constructor (config: Config, registry: Registry)
      modifies registry
      ensures registry.env == this && GetInstance(registry) == Ok(this)
      ensures this.config == config && sleepTime == config.sleepTime && loopEnable
      ensures fresh(bus) && bus.published == []
      ensures bus.Handlers(SystemClose) == [Handler.CloseLoop]
      ensures bus.Handlers(Heartbeat) == [Handler.StateCheck]
      ensures forall k :: k != SystemClose && k != Heartbeat ==> bus.Handlers(k) == []
      ensures processAll == map[] && processRunning == map[]
      ensures processStopped == map[] && processSleeping == map[]
      ensures modMap == map[] && calls == []
    {
      this.config := config;
      loopEnable := true;
      var b := new EventBus();
      b.AddListener(SystemClose, Handler.CloseLoop);
      b.AddListener(Heartbeat, Handler.StateCheck);
      bus := b;
      sleepTime := config.sleepTime;
      modMap := map[];
      processAll, processRunning, processStopped, processSleeping := map[], map[], map[], map[];
      calls := [];
      new;
      registry.env := this;
    }

    /** `close_loop`: clears the loop flag and returns None (falsy). */
    method CloseLoop(e: Event) returns (stop: bool)
      modifies this`loopEnable
      ensures !loopEnable && !stop
    {
      loopEnable := false;
      stop := false;
    }

    /** `is_running`: the name is in RUNNING, so `run` leaves it alone. */
    predicate IsRunning(name: string): (b: bool)
      reads this
      ensures b ==> !Startable(name)
      ensures !b && (name in processSleeping || name in processStopped) ==> Startable(name)
    {
      name in processRunning
    }

    /** `run` finds a manager to start for `name`. */
    ghost predicate Startable(name: string)
      reads this
    {
      name !in processRunning && (name in processSleeping || name in processStopped)
    }

    /** The manager `run` takes: the sleeping one when there is one. */
    ghost function Pick(name: string): SubProcess
      requires name in processSleeping || name in processStopped
      reads this
    {
      if name in processSleeping then processSleeping[name] else processStopped[name]
    }

    /** The managers `run` may change for `name`: the one it would pop. */
    ghost function Picked(name: string): set<SubProcess>
      reads this
    {
      if name in processRunning then {}
      else if name in processSleeping then {processSleeping[name]}
      else if name in processStopped then {processStopped[name]}
      else {}
    }

    /** What the TASK_PRE_START / TASK_RUNNING publish of `run` raises. */
    ghost function PublishRaised(k: EventKind, verdict: Verdict): Result<()>
      reads this, bus
    {
      Raised(bus.Handlers(k), NewEvent(k, map[]), verdict)
    }

    /** `run`: nothing for a running name; otherwise pop the manager from
        SLEEPING, or else from STOPPED (KeyError when in neither), publish
        TASK_PRE_START, start it, publish TASK_RUNNING. The first of those
        three steps to raise ends `run` after the pop, so the manager is
        then in no map but ALL. The manager is never put into RUNNING. */
    method Run(name: string, host: Host, spawn: Result<int>, clock: int, verdict: Verdict)
      returns (r: Result<()>)
      modifies this`processSleeping, this`processStopped, bus, Picked(name)
      ensures forall k :: bus.Handlers(k) == old(bus.Handlers(k))
      ensures old(name !in processRunning) ==>
        r == RunResult(old(processSleeping), old(processStopped), name, old(PublishRaised(TaskPreStart, verdict)),
                       old(PublishRaised(TaskRunning, verdict)), host, spawn)
      ensures old(name in processRunning) ==>
        r.Ok? && processSleeping == old(processSleeping) && processStopped == old(processStopped)
        && bus.published == old(bus.published)
      ensures old(name !in processRunning && name !in processSleeping && name !in processStopped) ==>
        r == Err(KeyError(name)) && processSleeping == old(processSleeping)
        && processStopped == old(processStopped) && bus.published == old(bus.published)
      ensures old(name !in processRunning && name in processSleeping) ==>
        processSleeping == old(processSleeping) - {name} && processStopped == old(processStopped)
      ensures old(name !in processRunning && name !in processSleeping && name in processStopped) ==>
        processStopped == old(processStopped) - {name} && processSleeping == old(processSleeping)
      ensures old(Startable(name)) && old(PublishRaised(TaskPreStart, verdict)).Err? ==>
        r == old(PublishRaised(TaskPreStart, verdict)) && unchanged(old(Pick(name)))
        && EventsOf(bus.published) == EventsOf(old(bus.published)) + [NewEvent(TaskPreStart, map[])]
      ensures old(Startable(name)) && old(PublishRaised(TaskPreStart, verdict)).Ok?
              && StartResult(old(Pick(name)).config, host, spawn).Err? ==>
        r == StartResult(old(Pick(name)).config, host, spawn)
        && EventsOf(bus.published) == EventsOf(old(bus.published)) + [NewEvent(TaskPreStart, map[])]
      ensures old(Startable(name)) && old(PublishRaised(TaskPreStart, verdict)).Ok?
              && StartResult(old(Pick(name)).config, host, spawn).Ok? ==>
        r == old(PublishRaised(TaskRunning, verdict))
        && EventsOf(bus.published) == EventsOf(old(bus.published)) + [NewEvent(TaskPreStart, map[]), NewEvent(TaskRunning, map[])]
        && old(Pick(name)).state == Running && old(Pick(name)).pid == Some(spawn.value)
        && old(Pick(name)).exitCode.None?
    {
      if name in processRunning {
        return Ok(());
      }
      var p: SubProcess;
      if name in processSleeping {
        p := processSleeping[name];
        processSleeping := processSleeping - {name};
      } else if name in processStopped {
        p := processStopped[name];
        processStopped := processStopped - {name};
      } else {
        return Err(KeyError(name));
      }
      r := StartPopped(p, host, spawn, clock, verdict);
    }

    /** The part of `run` after the pop: TASK_PRE_START, the start, and
        TASK_RUNNING, each only when nothing before it raised. */
    method StartPopped(p: SubProcess, host: Host, spawn: Result<int>, clock: int, verdict: Verdict)
      returns (r: Result<()>)
      modifies bus, p
      ensures forall k :: bus.Handlers(k) == old(bus.Handlers(k))
      ensures old(PublishRaised(TaskPreStart, verdict)).Err? ==>
        r == old(PublishRaised(TaskPreStart, verdict)) && unchanged(p)
        && EventsOf(bus.published) == EventsOf(old(bus.published)) + [NewEvent(TaskPreStart, map[])]
      ensures old(PublishRaised(TaskPreStart, verdict)).Ok? && StartResult(p.config, host, spawn).Err? ==>
        r == StartResult(p.config, host, spawn)
        && EventsOf(bus.published) == EventsOf(old(bus.published)) + [NewEvent(TaskPreStart, map[])]
      ensures old(PublishRaised(TaskPreStart, verdict)).Ok? && StartResult(p.config, host, spawn).Ok? ==>
        r == old(PublishRaised(TaskRunning, verdict))
        && EventsOf(bus.published) == EventsOf(old(bus.published)) + [NewEvent(TaskPreStart, map[]), NewEvent(TaskRunning, map[])]
        && p.state == Running && p.pid == Some(spawn.value) && p.exitCode.None?
    {
      var invoked;
      r, invoked := bus.Publish(NewEvent(TaskPreStart, map[]), verdict);
      if r.Err? {
        return;
      }
      r := p.Start(host, spawn, clock);
      if r.Err? {
        return;
      }
      r, invoked := bus.Publish(NewEvent(TaskRunning, map[]), verdict);
    }

    /** `state_check` as the loop header intends it (`.items()` of a
        snapshot): every exited manager moves from RUNNING to STOPPED, with
        TASK_FINISH for exit code 0 and TASK_RUNNING_ERROR otherwise; the
        others stay. `moved` is the order in which entries moved. A
        listener raising ends the loop right after that entry's move, and
        the exception leaves `state_check`. */
    method StateCheck(e: Event, verdict: Verdict) returns (r: Result<()>, moved: seq<string>)
      modifies this`processRunning, this`processStopped, bus
      ensures forall k :: bus.Handlers(k) == old(bus.Handlers(k))
      ensures Distinct(moved)
      ensures forall n :: n in moved ==> n in old(processRunning) && old(ExitCodes(processRunning))[n].Some?
      ensures r.Ok? ==> forall n :: n in old(processRunning) && old(ExitCodes(processRunning))[n].Some? ==> n in moved
      ensures forall n :: n in processRunning <==> n in old(processRunning) && n !in moved
      ensures forall n :: n in processRunning ==> processRunning[n] == old(processRunning)[n]
      ensures forall n :: n in moved ==> n in processStopped && processStopped[n] == old(processRunning)[n]
      ensures forall n :: n !in moved ==>
        (n in processStopped <==> n in old(processStopped))
        && (n in processStopped ==> processStopped[n] == old(processStopped)[n])
      ensures EventsOf(bus.published) == EventsOf(old(bus.published)) + ExitEvents(old(ExitCodes(processRunning)), moved)
      ensures r.Ok? ==> Quiet(old(bus.listeners), old(ExitCodes(processRunning)), moved, verdict)
      ensures r.Err? ==>
        moved != []
        && Quiet(old(bus.listeners), old(ExitCodes(processRunning)), moved[..|moved| - 1], verdict)
        && r == ExitRaised(old(bus.listeners), old(ExitCodes(processRunning))[moved[|moved| - 1]].value, verdict)
      ensures old(processRunning.Keys !! processStopped.Keys) ==> processRunning.Keys !! processStopped.Keys
    {
      var snapshot := processRunning;
      ghost var codes := ExitCodes(snapshot);
      ghost var listeners0 := bus.listeners;
      var todo := snapshot.Keys;
      moved := [];
      while todo != {}
        decreases todo
        invariant todo <= snapshot.Keys
        invariant forall m :: m in snapshot ==> snapshot[m].exitCode == codes[m]
        invariant forall k :: bus.Handlers(k) == Listening(listeners0, k)
        invariant CheckInv(snapshot, codes, todo, moved, old(processStopped), EventsOf(old(bus.published)))
        invariant Quiet(listeners0, codes, moved, verdict)
      {
        var n :| n in todo;
        ghost var before := moved;
        r, moved := CheckOne(n, snapshot, codes, todo, moved, old(processStopped), EventsOf(old(bus.published)),
                             verdict, listeners0);
        todo := todo - {n};
        if r.Err? {
          assert moved[..|moved| - 1] == before;
          return;
        }
      }
      r := Ok(());
    }

    /** What `state_check` has done after visiting every snapshot entry
        but those in `todo`: `moved` lists the exited ones in visiting
        order, they are in STOPPED and no longer in RUNNING, and one event
        per moved entry was published. */
    ghost predicate CheckInv(snapshot: map<string, SubProcess>, codes: map<string, Option<int>>,
                             todo: set<string>, moved: seq<string>,
                             stopped0: map<string, SubProcess>, events0: seq<Event>)
      reads this, bus
    {
      MapsInv(snapshot, codes, todo, moved, stopped0) && EventsInv(codes, moved, events0)
    }

    ghost predicate MapsInv(snapshot: map<string, SubProcess>, codes: map<string, Option<int>>,
                            todo: set<string>, moved: seq<string>, stopped0: map<string, SubProcess>)
      reads this
    {
      && codes.Keys == snapshot.Keys
      && Distinct(moved)
      && (forall n :: n in moved <==> n in snapshot && n !in todo && codes[n].Some?)
      && (forall n :: n in processRunning <==> n in snapshot && (n in todo || codes[n].None?))
      && (forall n :: n in processRunning ==> processRunning[n] == snapshot[n])
      && (forall n :: n in moved ==> n in processStopped && processStopped[n] == snapshot[n])
      && (forall n :: n !in moved ==>
            (n in processStopped <==> n in stopped0)
            && (n in processStopped ==> processStopped[n] == stopped0[n]))
    }

    ghost predicate EventsInv(codes: map<string, Option<int>>, moved: seq<string>, events0: seq<Event>)
      reads bus
    {
      && (forall n :: n in moved ==> n in codes && codes[n].Some?)
      && EventsOf(bus.published) == events0 + ExitEvents(codes, moved)
    }

    /** The body of the `state_check` loop for the entry `n`. */
    method CheckOne(n: string, snapshot: map<string, SubProcess>, ghost codes: map<string, Option<int>>,
                    ghost todo: set<string>, moved: seq<string>,
                    ghost stopped0: map<string, SubProcess>, ghost events0: seq<Event>,
                    verdict: Verdict, ghost listeners0: map<EventKind, seq<Handler>>)
      returns (r: Result<()>, moved': seq<string>)
      requires n in todo && todo <= snapshot.Keys
      requires CheckInv(snapshot, codes, todo, moved, stopped0, events0)
      requires forall m :: m in snapshot ==> snapshot[m].exitCode == codes[m]
      requires forall k :: bus.Handlers(k) == Listening(listeners0, k)
      requires Quiet(listeners0, codes, moved, verdict)
      modifies this`processRunning, this`processStopped, bus
      ensures forall k :: bus.Handlers(k) == old(bus.Handlers(k))
      ensures CheckInv(snapshot, codes, todo - {n}, moved', stopped0, events0)
      ensures r.Ok? ==> Quiet(listeners0, codes, moved', verdict)
      ensures r.Err? ==> moved' == moved + [n] && r == ExitRaised(listeners0, codes[n].value, verdict)
    {
      moved' := moved;
      var p := snapshot[n];
      if p.exitCode.None? {
        SkipEntry(n, snapshot, codes, todo, moved, stopped0);
        return Ok(()), moved';
      }
      MoveEntry(n, snapshot, codes, todo, moved, stopped0);
      r := PublishExit(n, p.exitCode.value, codes, moved, events0, verdict, listeners0);
      moved' := moved + [n];
    }

    /** An entry that has not exited stays where it is. */
    lemma SkipEntry(n: string, snapshot: map<string, SubProcess>, codes: map<string, Option<int>>,
                    todo: set<string>, moved: seq<string>, stopped0: map<string, SubProcess>)
      requires n in todo && todo <= snapshot.Keys
      requires MapsInv(snapshot, codes, todo, moved, stopped0) && codes[n].None?
      ensures MapsInv(snapshot, codes, todo - {n}, moved, stopped0)
    {
    }

    /** Publish the exit event of the entry `n` that has just moved. */
    method PublishExit(n: string, code: int, ghost codes: map<string, Option<int>>, moved: seq<string>,
                       ghost events0: seq<Event>, verdict: Verdict, ghost listeners0: map<EventKind, seq<Handler>>)
      returns (r: Result<()>)
      requires n in codes && codes[n] == Some(code)
      requires EventsInv(codes, moved, events0)
      requires forall k :: bus.Handlers(k) == Listening(listeners0, k)
      modifies bus
      ensures forall k :: bus.Handlers(k) == old(bus.Handlers(k))
      ensures EventsInv(codes, moved + [n], events0)
      ensures r == ExitRaised(listeners0, code, verdict)
    {
      var invoked;
      r, invoked := bus.Publish(ExitCheckEvent(code), verdict);
      ExitEventsSnoc(codes, moved, n);
    }

    /** Pop the exited entry `n` from RUNNING into STOPPED. */
    method MoveEntry(n: string, snapshot: map<string, SubProcess>, ghost codes: map<string, Option<int>>,
                     ghost todo: set<string>, moved: seq<string>, ghost stopped0: map<string, SubProcess>)
      requires n in todo && todo <= snapshot.Keys
      requires MapsInv(snapshot, codes, todo, moved, stopped0) && codes[n].Some?
      modifies this`processRunning, this`processStopped
      ensures MapsInv(snapshot, codes, todo - {n}, moved + [n], stopped0)
    {
      assert n !in moved;
      processRunning := processRunning - {n};
      processStopped := processStopped[n := snapshot[n]];
    }

    /** `state_check` as written: `for name, subprocess in
        self.PROCESS_RUNNING.copy()` iterates the keys, so the first key
        either fails to unpack (ValueError) or unpacks into two characters
        whose `exit_code` does not exist (AttributeError). It raises exactly
        when RUNNING is non-empty, before changing anything. */
    method StateCheckAsWritten(e: Event) returns (r: Result<()>)
      ensures r.Err? <==> processRunning != map[]
      ensures r.Err? ==> r.error.ValueError? || r.error == AttributeError("exit_code")
    {
      if processRunning == map[] {
        return Ok(());
      }
      var key :| key in processRunning;
      match UnpackKey(key)
      case Err(err) => r := Err(err);
      case Ok(_) => r := Err(AttributeError("exit_code"));
    }

    // The abstract part of the interface: each call is only recorded.

    method AddTask(task: Task)
      modifies this`calls
      ensures calls == old(calls) + [Call.AddTask(task)]
    {
      calls := calls + [Call.AddTask(task)];
    }

    method StartTask(name: string)
      modifies this`calls
      ensures calls == old(calls) + [Call.StartTask(name)]
    {
      calls := calls + [Call.StartTask(name)];
    }

    method DeleteTask(name: string)
      modifies this`calls
      ensures calls == old(calls) + [Call.DeleteTask(name)]
    {
      calls := calls + [Call.DeleteTask(name)];
    }

    method AddModMap(name: string, mod: ModClass)
      modifies this`calls
      ensures calls == old(calls) + [Call.AddModMap(name, mod)]
    {
      calls := calls + [Call.AddModMap(name, mod)];
    }

    /** Record a call whose answer the caller receives as an input. */
    method Record(c: Call)
      modifies this`calls
      ensures calls == old(calls) + [c]
    {
      calls := calls + [c];
    }
  }
}
