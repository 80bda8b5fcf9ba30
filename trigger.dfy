/** lk_flow/plugin/trigger.py: the older, database-backed TimeTrigger. Its
    class-level PROCESS_SCHEDULE is a field of one LegacyTrigger instance.
    The database is reduced to what the plugin reads from it: whether the
    `task` table exists and its rows, as Task configs. Times, the wall
    clock and croniter are as in TimeTriggers. */
module LegacyTriggers {
  import opened Outcomes
  import opened Tasks
  import opened Events
  import opened Subprocesses
  import opened Contexts
  import TimeTriggers

  /** The `mod_config` key without which `setup_mod` does nothing. */
  const DatabaseKey: string := "SQLALCHEMY_DATABASE_URI"

  /** The listeners `setup_mod` subscribes once the database is
      configured: `init_time_trigger` to SYSTEM_SETUP, `work` to HEARTBEAT. */
  function LegacyHandlers(k: EventKind): seq<Handler>
  {
    if k == SystemSetup then [Handler.LegacyInit]
    else if k == Heartbeat then [Handler.LegacyWork]
    else []
  }

  /** `next_datetime <= now` for a scheduled name and a time `now`. */
  predicate DueAt(s: map<string, int>, name: string, now: Result<Attr>)
  {
    name in s && now.Ok? && now.value.Time? && s[name] <= now.value.time
  }

  /** The checks `work` makes for `name` before it starts it: a running
      task is passed over (false); then the manager lookup in PROCESS_ALL
      (KeyError) and `should_start`, whose answer decides. */
  function Decide(running: set<string>, all: map<string, SubProcess>, schedule: map<string, int>,
                  now: Result<Attr>, name: string): (r: Result<bool>)
    ensures r == Ok(true) ==> name !in running && name in all && DueAt(schedule, name, now)
    ensures r == Ok(false) ==> name in running || (name in all && !DueAt(schedule, name, now))
  {
    if name in running then Ok(false)
    else if name !in all then Err(KeyError(name))
    else if now.Err? then Err(now.error)
    else TimeTriggers.ShouldStart(schedule, now.value, name)
  }

  /** What `work` reads of the context on one heartbeat: the names in
      PROCESS_RUNNING, the managers of PROCESS_ALL, PROCESS_SLEEPING and
      PROCESS_STOPPED as the heartbeat finds them, what the TASK_PRE_START
      and TASK_RUNNING publishes of `run` raise, the event's `now` and the
      clock croniter reads. */
  datatype Beat = Beat(running: set<string>, all: map<string, SubProcess>,
                       sleeping: map<string, SubProcess>, stopped: map<string, SubProcess>,
                       pre: Result<()>, post: Result<()>, now: Result<Attr>, clock: int)

  /** Where `work` stands: the schedule, the names `run` was called for,
      in order, and the error that ended it, if any. */
  datatype Sweep = Sweep(schedule: map<string, int>, started: seq<string>, error: Option<Error>)

  /** One iteration of `work` for `name`: Decide; for a task to start,
      `run` it (Contexts.RunResult), then set its entry to the next fire
      time of its config's cron expression. Each step that raises ends
      the sweep with its error. */
  function Step(sw: Sweep, name: string, b: Beat, host: Host, spawns: string -> Result<int>,
                cron: TimeTriggers.Cron): Sweep
  {
    match Decide(b.running, b.all, sw.schedule, b.now, name)
    case Err(err) => Sweep(sw.schedule, sw.started, Some(err))
    case Ok(false) => sw
    case Ok(true) =>
      var started := sw.started + [name];
      match RunResult(b.sleeping, b.stopped, name, b.pre, b.post, host, spawns(name))
      case Err(err) => Sweep(sw.schedule, started, Some(err))
      case Ok(_) =>
        match cron(b.all[name].config.cronExpression, b.clock)
        case Err(err) => Sweep(sw.schedule, started, Some(err))
        case Ok(next) => Sweep(sw.schedule[name := next], started, None)
  }

  /** `work` visiting `names` in order, stopping at the first error. */
  function WorkOver(sw: Sweep, names: seq<string>, b: Beat, host: Host, spawns: string -> Result<int>,
                    cron: TimeTriggers.Cron): Sweep
    decreases |names|
  {
    if names == [] || sw.error.Some? then sw
    else WorkOver(Step(sw, names[0], b, host, spawns, cron), names[1..], b, host, spawns, cron)
  }

  /** `t` is `ns` with some names left out, the others in their order. */
  predicate Embedded(t: seq<string>, ns: seq<string>)
    decreases |ns|
  {
    t == [] || (ns != [] && (Embedded(t, ns[1..]) || (t[0] == ns[0] && Embedded(t[1..], ns[1..]))))
  }

  /** A sweep only appends to `started`, and what it appends is a
      selection of the visited names in visiting order. */
  lemma {:induction false} WorkOverInOrder(sw: Sweep, names: seq<string>, b: Beat, host: Host,
                                           spawns: string -> Result<int>, cron: TimeTriggers.Cron)
    ensures var r := WorkOver(sw, names, b, host, spawns, cron);
      |sw.started| <= |r.started| && r.started[..|sw.started|] == sw.started
      && Embedded(r.started[|sw.started|..], names)
    decreases |names|
  {
    if names == [] || sw.error.Some? {
      assert sw.started[|sw.started|..] == [];
    } else {
      var next := Step(sw, names[0], b, host, spawns, cron);
      StepStarted(sw, names[0], b, host, spawns, cron);
      WorkOverInOrder(next, names[1..], b, host, spawns, cron);
      EmbeddedStep(sw.started, next.started, WorkOver(next, names[1..], b, host, spawns, cron).started, names);
    }
  }

  /** One step calls `run` for its name or for nothing. */
  lemma StepStarted(sw: Sweep, name: string, b: Beat, host: Host, spawns: string -> Result<int>,
                    cron: TimeTriggers.Cron)
    ensures Step(sw, name, b, host, spawns, cron).started in {sw.started, sw.started + [name]}
  {
  }

  /** The started names of one more step, seen from the step before. */
  lemma EmbeddedStep(s0: seq<string>, s1: seq<string>, s2: seq<string>, ns: seq<string>)
    requires ns != [] && (s1 == s0 || s1 == s0 + [ns[0]])
    requires |s1| <= |s2| && s2[..|s1|] == s1 && Embedded(s2[|s1|..], ns[1..])
    ensures |s0| <= |s2| && s2[..|s0|] == s0 && Embedded(s2[|s0|..], ns)
  {
    assert s2[..|s0|] == s1[..|s0|];
    if s1 != s0 {
      assert s2[|s0|..] == [ns[0]] + s2[|s1|..];
      assert s2[|s0|..][1..] == s2[|s1|..];
    }
  }

  // ---------------------------------------------------------------------
  // init_time_trigger

  /** The rows `init_time_trigger` loads, in order: those whose name is
      neither registered before the loop nor loaded by an earlier row. */
  function Fresh(registered: set<string>, rows: seq<Task>): seq<Task>
    decreases |rows|
  {
    if rows == [] then []
    else if rows[0].name in registered then Fresh(registered, rows[1..])
    else [rows[0]] + Fresh(registered + {rows[0].name}, rows[1..])
  }

  function Names(rows: seq<Task>): set<string>
  {
    set t | t in rows :: t.name
  }

  /** The loaded rows have distinct names, none registered before, and
      every row's name ends up registered. */
  lemma {:induction false} FreshNames(registered: set<string>, rows: seq<Task>)
    ensures Names(Fresh(registered, rows)) == Names(rows) - registered
    ensures Names(Fresh(registered, rows)) !! registered
    ensures forall i, j :: 0 <= i < j < |Fresh(registered, rows)| ==>
      Fresh(registered, rows)[i].name != Fresh(registered, rows)[j].name
    decreases |rows|
  {
    if rows != [] {
      var t := rows[0];
      assert rows == [t] + rows[1..];
      assert Names(rows) == {t.name} + Names(rows[1..]);
      if t.name in registered {
        FreshNames(registered, rows[1..]);
      } else {
        var rest := Fresh(registered + {t.name}, rows[1..]);
        FreshNames(registered + {t.name}, rows[1..]);
        assert Fresh(registered, rows) == [t] + rest;
        assert Names([t] + rest) == {t.name} + Names(rest);
        forall j | 0 < j < |[t] + rest| ensures ([t] + rest)[j].name != t.name {
          assert ([t] + rest)[j] == rest[j - 1] && rest[j - 1] in rest;
        }
      }
    }
  }

  lemma FreshCons(registered: set<string>, t: Task, rest: seq<Task>)
    ensures Fresh(registered, [t] + rest)
      == if t.name in registered then Fresh(registered, rest) else [t] + Fresh(registered + {t.name}, rest)
  {
    assert ([t] + rest)[1..] == rest;
  }

  /** One unregistered row moves from the pending part of `Fresh` to the loaded part. */
  lemma FreshStep(k0: set<string>, keys: set<string>, rows: seq<Task>, i: nat, loaded: seq<Task>)
    requires i < |rows| && rows[i].name !in keys
    requires Fresh(k0, rows) == loaded + Fresh(keys, rows[i..])
    ensures Fresh(k0, rows) == (loaded + [rows[i]]) + Fresh(keys + {rows[i].name}, rows[i + 1..])
  {
    assert rows[i..] == [rows[i]] + rows[i + 1..];
    FreshCons(keys, rows[i], rows[i + 1..]);
  }

  lemma NamesStep(rows: seq<Task>, i: nat)
    requires i < |rows|
    ensures Names(rows[..i + 1]) == Names(rows[..i]) + {rows[i].name}
    ensures Names(rows[..i + 1]) <= Names(rows)
  {
    assert rows[..i + 1] == rows[..i] + [rows[i]];
    assert forall t :: t in rows[..i + 1] ==> t in rows;
  }

  /** One more task added after a run of additions that ended without
      error. */
  lemma {:induction false} AddEachSnoc(s: map<string, int>, configs: seq<Task>, t: Task, clock: int,
                                       cron: TimeTriggers.Cron)
    requires TimeTriggers.AddEach(s, configs, clock, cron).error.None?
    ensures TimeTriggers.AddEach(s, configs + [t], clock, cron)
      == TimeTriggers.AddOne(TimeTriggers.AddEach(s, configs, clock, cron).schedule, t, clock, cron)
    decreases |configs|
  {
    if configs == [] {
      assert [] + [t] == [t];
    } else {
      var p := TimeTriggers.AddOne(s, configs[0], clock, cron);
      assert (configs + [t])[1..] == configs[1..] + [t];
      AddEachSnoc(p.schedule, configs[1..], t, clock, cron);
    }
  }

  /** What building the manager of row `t` raises, if anything: it
      formats the stdout log path, then the stderr one. */
  function BuildError(t: Task, host: Host): (e: Option<Error>)
    ensures e.None? <==>
      FormatLogFile(t.stdoutLogfile, "out.log", t.name, host).Ok?
      && FormatLogFile(t.stderrLogfile, "err.log", t.name, host).Ok?
  {
    var out := FormatLogFile(t.stdoutLogfile, "out.log", t.name, host);
    if out.Err? then Some(out.error)
    else
      var err := FormatLogFile(t.stderrLogfile, "err.log", t.name, host);
      if err.Err? then Some(err.error) else None
  }

  /** What loading the fresh row `t` raises, if anything: building its
      manager, then croniter on a time-scheduled row's expression. */
  function RowError(t: Task, host: Host, clock: int, cron: TimeTriggers.Cron): (e: Option<Error>)
    ensures e.None? <==> BuildError(t, host).None? && (Scheduled(t) ==> cron(t.cronExpression, clock).Ok?)
    ensures BuildError(t, host).Some? ==> e == BuildError(t, host)
  {
    if BuildError(t, host).Some? then BuildError(t, host)
    else if Scheduled(t) && cron(t.cronExpression, clock).Err? then Some(cron(t.cronExpression, clock).error)
    else None
  }

  /** The error `init_time_trigger`'s loop ends with when it loads `ts`:
      that of the first row that fails to load. */
  function LoadError(ts: seq<Task>, host: Host, clock: int, cron: TimeTriggers.Cron): (e: Option<Error>)
    ensures e.None? <==> forall t :: t in ts ==> RowError(t, host, clock, cron).None?
    decreases |ts|
  {
    if ts == [] then None
    else if RowError(ts[0], host, clock, cron).Some? then RowError(ts[0], host, clock, cron)
    else LoadError(ts[1..], host, clock, cron)
  }

  /** The loop's error is that of a row all of whose predecessors load. */
  lemma {:induction false} LoadErrorFirst(ts: seq<Task>, host: Host, clock: int, cron: TimeTriggers.Cron)
    requires LoadError(ts, host, clock, cron).Some?
    ensures exists i ::
      0 <= i < |ts| && LoadError(ts, host, clock, cron) == RowError(ts[i], host, clock, cron)
      && forall j :: 0 <= j < i ==> RowError(ts[j], host, clock, cron).None?
    decreases |ts|
  {
    if RowError(ts[0], host, clock, cron).None? {
      LoadErrorFirst(ts[1..], host, clock, cron);
      var i :|
        0 <= i < |ts[1..]| && LoadError(ts[1..], host, clock, cron) == RowError(ts[1..][i], host, clock, cron)
        && forall j :: 0 <= j < i ==> RowError(ts[1..][j], host, clock, cron).None?;
      assert LoadError(ts, host, clock, cron) == RowError(ts[i + 1], host, clock, cron);
      forall j | 0 <= j < i + 1 ensures RowError(ts[j], host, clock, cron).None? {
        if j > 0 {
          assert ts[j] == ts[1..][j - 1];
        }
      }
    } else {
      assert LoadError(ts, host, clock, cron) == RowError(ts[0], host, clock, cron);
    }
  }

  /** Rows that all load leave the error to the rows after them. */
  lemma {:induction false} LoadErrorAppend(a: seq<Task>, b: seq<Task>, host: Host, clock: int, cron: TimeTriggers.Cron)
    requires LoadError(a, host, clock, cron).None?
    ensures LoadError(a + b, host, clock, cron) == LoadError(b, host, clock, cron)
    decreases |a|
  {
    if a != [] {
      assert a[0] in a;
      assert (a + b)[0] == a[0] && (a + b)[1..] == a[1..] + b;
      LoadErrorAppend(a[1..], b, host, clock, cron);
    } else {
      assert a + b == b;
    }
  }

  /** Loading stops at the fresh row `rows[i]` when it fails. */
  lemma LoadErrorAt(keys: set<string>, rows: seq<Task>, i: nat, loaded: seq<Task>, host: Host, clock: int,
                    cron: TimeTriggers.Cron)
    requires i < |rows| && rows[i].name !in keys
    requires LoadError(loaded, host, clock, cron).None? && RowError(rows[i], host, clock, cron).Some?
    ensures LoadError(loaded + Fresh(keys, rows[i..]), host, clock, cron) == RowError(rows[i], host, clock, cron)
  {
    assert rows[i..] == [rows[i]] + rows[i + 1..];
    FreshCons(keys, rows[i], rows[i + 1..]);
    var rest := Fresh(keys + {rows[i].name}, rows[i + 1..]);
    assert Fresh(keys, rows[i..]) == [rows[i]] + rest;
    LoadErrorHead(rows[i], rest, host, clock, cron);
    LoadErrorAppend(loaded, [rows[i]] + rest, host, clock, cron);
  }

  /** The first row's error, if any, is the error of the whole load. */
  lemma LoadErrorHead(t: Task, rest: seq<Task>, host: Host, clock: int, cron: TimeTriggers.Cron)
    ensures LoadError([t] + rest, host, clock, cron)
      == if RowError(t, host, clock, cron).Some? then RowError(t, host, clock, cron) else LoadError(rest, host, clock, cron)
  {
    assert ([t] + rest)[0] == t && ([t] + rest)[1..] == rest;
  }

  /** `init_time_trigger` as written: the membership test `task in
      PROCESS_ALL` hashes the Task, a pydantic model with `__eq__` and no
      `__hash__`, so the first row raises TypeError before anything is
      loaded. */
  function InitAsWritten(tableExists: bool, rows: seq<Task>): (r: Result<()>)
    ensures !tableExists ==> r.Err? && r.error.RuntimeError?
    ensures tableExists ==> (r.Ok? <==> rows == [])
    ensures tableExists && rows != [] ==> r == Err(TypeError("unhashable type: 'Task'"))
  {
    if !tableExists then Err(RuntimeError("请先初始化 lk_flow init"))
    else if rows == [] then Ok(())
    else Err(TypeError("unhashable type: 'Task'"))
  }

  /** The as-written loop loads no row of a non-empty table, while the
      intended one (LegacyTrigger.InitTimeTrigger) loads every row whose
      name is new. */
  lemma AsWrittenLoadsNothing(registered: set<string>, rows: seq<Task>)
    requires rows != [] && rows[0].name !in registered
    ensures InitAsWritten(true, rows).Err?
    ensures |Fresh(registered, rows)| > 0
  {
  }

  class LegacyTrigger {
    var schedule: map<string, int>
    /** The keys of `schedule` in insertion order: the order in which a
        Python dict yields them. */
    var order: seq<string>

    ghost predicate Valid()
      reads this
    {
      TimeTriggers.Listed(order, schedule.Keys)
    }

    constructor ()
      ensures schedule == map[] && order == [] && Valid()
    {
      schedule := map[];
      order := [];
    }

    /** `setup_mod`: without DatabaseKey in the plugin's config, nothing;
        otherwise (after building the engine and session, not modelled)
        `init_time_trigger` on SYSTEM_SETUP and `work` on HEARTBEAT. */
    method SetupMod(ctx: Context, modConfig: ModConfig)
      modifies ctx.bus
      ensures forall k :: (ctx.bus.Handlers(k)
        == old(ctx.bus.Handlers(k)) + (if DatabaseKey in modConfig.keys then LegacyHandlers(k) else []))
      ensures ctx.bus.published == old(ctx.bus.published)
    {
      if DatabaseKey !in modConfig.keys {
        return;
      }
      ctx.bus.AddListener(SystemSetup, Handler.LegacyInit);
      ctx.bus.AddListener(Heartbeat, Handler.LegacyWork);
    }

    /** `init_time_trigger` with the membership test on the task's name,
        as the comment beside it intends: a RuntimeError when the `task`
        table is missing; otherwise, for each row whose name is not yet
        registered, a new sleeping manager in PROCESS_ALL and
        PROCESS_SLEEPING and, for a time-scheduled row, a schedule entry.
        A manager that cannot be built, or a cron expression croniter
        rejects, ends the loop with its error. Nothing else in
        PROCESS_SLEEPING changes. */
    method InitTimeTrigger(ctx: Context, tableExists: bool, rows: seq<Task>, host: Host, clock: int,
                           cron: TimeTriggers.Cron)
      returns (r: Result<()>)
      modifies this`schedule, this`order, ctx`processAll, ctx`processSleeping
      ensures !tableExists ==> (r.Err? && r.error.RuntimeError?
        && schedule == old(schedule) && order == old(order) && ctx.processAll == old(ctx.processAll)
        && ctx.processSleeping == old(ctx.processSleeping))
      ensures ctx.processAll.Keys <= old(ctx.processAll.Keys) + Names(rows)
      ensures forall n :: n in old(ctx.processAll) ==> n in ctx.processAll && ctx.processAll[n] == old(ctx.processAll)[n]
      ensures ctx.processSleeping.Keys <= old(ctx.processSleeping.Keys) + Names(rows)
      ensures forall n :: n in old(ctx.processSleeping) && n in old(ctx.processAll) ==>
        n in ctx.processSleeping && ctx.processSleeping[n] == old(ctx.processSleeping)[n]
      ensures r.Ok? ==> ctx.processAll.Keys == old(ctx.processAll.Keys) + Names(rows)
      ensures r.Ok? ==> Loaded(ctx, Fresh(old(ctx.processAll.Keys), rows))
      ensures r.Ok? ==> schedule == TimeTriggers.AddEach(old(schedule), Fresh(old(ctx.processAll.Keys), rows), clock, cron).schedule
      ensures r.Ok? ==> order == TimeTriggers.OrderEach(old(order), Fresh(old(ctx.processAll.Keys), rows), clock, cron)
      ensures tableExists ==> ErrorOf(r) == LoadError(Fresh(old(ctx.processAll.Keys), rows), host, clock, cron)
      ensures old(Valid()) ==> Valid()
    {
      if !tableExists {
        return Err(RuntimeError("请先初始化 lk_flow init"));
      }
      ghost var loaded;
      r, loaded := LoadRows(ctx, rows, host, clock, cron);
      if r.Ok? {
        RegistryEnd(ctx, old(ctx.processAll), rows, loaded);
      }
    }

    /** The loop of `init_time_trigger` over the rows. */
    method LoadRows(ctx: Context, rows: seq<Task>, host: Host, clock: int, cron: TimeTriggers.Cron)
      returns (r: Result<()>, ghost loaded: seq<Task>)
      modifies this`schedule, this`order, ctx`processAll, ctx`processSleeping
      ensures ctx.processAll.Keys <= old(ctx.processAll.Keys) + Names(rows)
      ensures forall n :: n in old(ctx.processAll) ==> n in ctx.processAll && ctx.processAll[n] == old(ctx.processAll)[n]
      ensures SleepingFrame(old(ctx.processSleeping), old(ctx.processAll), ctx.processSleeping, Names(rows))
      ensures r.Ok? ==> InitInv(ctx, old(ctx.processAll), old(ctx.processSleeping), old(schedule), old(order),
                                rows, |rows|, loaded, clock, cron)
      ensures ErrorOf(r) == LoadError(Fresh(old(ctx.processAll.Keys), rows), host, clock, cron)
      ensures old(Valid()) ==> Valid()
    {
      loaded := [];
      RegistryStart(ctx, rows);
      var i := 0;
      while i < |rows|
        invariant InitInv(ctx, old(ctx.processAll), old(ctx.processSleeping), old(schedule), old(order),
                          rows, i, loaded, clock, cron)
        invariant LoadError(loaded, host, clock, cron).None?
        invariant old(Valid()) ==> Valid()
      {
        ghost var keys := ctx.processAll.Keys;
        ghost var before := loaded;
        r, loaded := LoadRow(ctx, rows, i, host, clock, cron, old(ctx.processAll), old(ctx.processSleeping),
                             old(schedule), old(order), loaded);
        if r.Err? {
          LoadErrorAt(keys, rows, i, before, host, clock, cron);
          return;
        }
        i := i + 1;
      }
      assert rows[..i] == rows;
      RegistryEnd(ctx, old(ctx.processAll), rows, loaded);
      r := Ok(());
    }

    /** Where `init_time_trigger`'s loop stands before row `i`, with
        `all0`, `sleeping0`, `s0` and `o0` PROCESS_ALL, PROCESS_SLEEPING,
        the schedule and its order before it: `loaded` are the rows it has
        loaded, each registered and added to the schedule; the registered
        names are the earlier ones plus those of the rows seen. */
    ghost predicate InitInv(ctx: Context, all0: map<string, SubProcess>, sleeping0: map<string, SubProcess>,
                            s0: map<string, int>, o0: seq<string>, rows: seq<Task>, i: int,
                            loaded: seq<Task>, clock: int, cron: TimeTriggers.Cron)
      reads this, ctx
    {
      Registry(ctx, all0, rows, i, loaded)
      && SleepingFrame(sleeping0, all0, ctx.processSleeping, Names(rows[..i]))
      && TimeTriggers.AddEach(s0, loaded, clock, cron) == TimeTriggers.Plan(schedule, None)
      && TimeTriggers.OrderEach(o0, loaded, clock, cron) == order
    }

    /** The PROCESS_ALL part of InitInv. */
    static ghost predicate Registry(ctx: Context, all0: map<string, SubProcess>, rows: seq<Task>, i: int,
                                    loaded: seq<Task>)
      reads ctx
    {
      0 <= i <= |rows|
      && Fresh(all0.Keys, rows) == loaded + Fresh(ctx.processAll.Keys, rows[i..])
      && ctx.processAll.Keys == all0.Keys + Names(rows[..i])
      && (forall n :: n in all0 ==> n in ctx.processAll && ctx.processAll[n] == all0[n])
      && Loaded(ctx, loaded)
    }

    /** The PROCESS_SLEEPING part of InitInv: `sleeping` has gained keys
        among `names` only, and keeps every entry `sleeping0` had for a
        name registered in `all0`. */
    static ghost predicate SleepingFrame(sleeping0: map<string, SubProcess>, all0: map<string, SubProcess>,
                                         sleeping: map<string, SubProcess>, names: set<string>)
    {
      sleeping.Keys <= sleeping0.Keys + names
      && forall n :: n in sleeping0 && n in all0 ==> n in sleeping && sleeping[n] == sleeping0[n]
    }

    /** Adding an entry for a name not in `all0` keeps SleepingFrame. */
    static lemma SleepingAdded(sleeping0: map<string, SubProcess>, all0: map<string, SubProcess>,
                               sleeping: map<string, SubProcess>, names: set<string>, name: string, pm: SubProcess)
      requires SleepingFrame(sleeping0, all0, sleeping, names) && name !in all0
      ensures SleepingFrame(sleeping0, all0, sleeping[name := pm], names + {name})
    {
    }

    /** A row whose name is registered is skipped. */
    static lemma SkipRow(ctx: Context, all0: map<string, SubProcess>, rows: seq<Task>, i: int, loaded: seq<Task>)
      requires 0 <= i < |rows| && Registry(ctx, all0, rows, i, loaded) && rows[i].name in ctx.processAll
      ensures Registry(ctx, all0, rows, i + 1, loaded)
    {
      NamesStep(rows, i);
      assert rows[i..] == [rows[i]] + rows[i + 1..];
      FreshCons(ctx.processAll.Keys, rows[i], rows[i + 1..]);
    }

    /** A row with a new name gets the manager `pm` in both maps. */
    static method RegisterRow(ctx: Context, rows: seq<Task>, i: int, pm: SubProcess,
                              ghost all0: map<string, SubProcess>, ghost loaded: seq<Task>)
      requires 0 <= i < |rows| && Registry(ctx, all0, rows, i, loaded)
      requires rows[i].name !in ctx.processAll && pm.config == rows[i]
      modifies ctx`processAll, ctx`processSleeping
      ensures Registry(ctx, all0, rows, i + 1, loaded + [rows[i]])
      ensures ctx.processSleeping == old(ctx.processSleeping)[rows[i].name := pm]
    {
      var task := rows[i];
      ghost var keys := ctx.processAll.Keys;
      NamesStep(rows, i);
      FreshStep(all0.Keys, keys, rows, i, loaded);
      ctx.processAll := ctx.processAll[task.name := pm];
      ctx.processSleeping := ctx.processSleeping[task.name := pm];
      assert ctx.processAll.Keys == keys + {task.name};
    }

    /** `SubProcess(task)`, seen from `init_time_trigger`: a new sleeping
        manager for the task, or the error of formatting its log paths
        (Subprocesses.SubProcess.New says which). */
    static method Build(task: Task, host: Host) returns (r: Result<SubProcess>)
      ensures r.Ok? ==> fresh(r.value) && r.value.config == task && r.value.state == Sleeping && r.value.pid.None?
      ensures r.Err? <==> BuildError(task, host).Some?
      ensures r.Err? ==> Some(r.error) == BuildError(task, host)
    {
      r := SubProcess.New(task, host);
    }

    /** Every task of `loaded` has a manager of its own config, the same
        one in PROCESS_ALL and PROCESS_SLEEPING. */
    static ghost predicate Loaded(ctx: Context, loaded: seq<Task>)
      reads ctx
    {
      forall t :: t in loaded ==>
        t.name in ctx.processAll && t.name in ctx.processSleeping
        && ctx.processSleeping[t.name] == ctx.processAll[t.name] && ctx.processAll[t.name].config == t
    }

    /** Before the loop nothing is loaded and no row is seen. */
    static lemma RegistryStart(ctx: Context, rows: seq<Task>)
      ensures Registry(ctx, ctx.processAll, rows, 0, [])
      ensures SleepingFrame(ctx.processSleeping, ctx.processAll, ctx.processSleeping, Names(rows[..0]))
    {
      assert rows[..0] == [] && rows[0..] == rows;
    }

    /** After the last row every fresh row is loaded. */
    static lemma RegistryEnd(ctx: Context, all0: map<string, SubProcess>, rows: seq<Task>, loaded: seq<Task>)
      requires Registry(ctx, all0, rows, |rows|, loaded)
      ensures ctx.processAll.Keys == all0.Keys + Names(rows)
      ensures loaded == Fresh(all0.Keys, rows) && Loaded(ctx, loaded)
    {
      assert rows[..|rows|] == rows && rows[|rows|..] == [];
      assert loaded + [] == loaded;
    }

    /** One row of `init_time_trigger`'s loop. */
    method LoadRow(ctx: Context, rows: seq<Task>, i: int, host: Host, clock: int, cron: TimeTriggers.Cron,
                   ghost all0: map<string, SubProcess>, ghost sleeping0: map<string, SubProcess>,
                   ghost s0: map<string, int>, ghost o0: seq<string>, ghost loaded: seq<Task>)
      returns (r: Result<()>, ghost loaded': seq<Task>)
      requires i < |rows| && InitInv(ctx, all0, sleeping0, s0, o0, rows, i, loaded, clock, cron)
      requires LoadError(loaded, host, clock, cron).None?
      modifies this`schedule, this`order, ctx`processAll, ctx`processSleeping
      ensures r.Ok? ==> LoadError(loaded', host, clock, cron).None?
      ensures r.Err? ==> rows[i].name !in old(ctx.processAll) && Some(r.error) == RowError(rows[i], host, clock, cron)
      ensures ctx.processAll.Keys <= all0.Keys + Names(rows)
      ensures forall n :: n in all0 ==> n in ctx.processAll && ctx.processAll[n] == all0[n]
      ensures SleepingFrame(sleeping0, all0, ctx.processSleeping, Names(rows))
      ensures r.Ok? ==> InitInv(ctx, all0, sleeping0, s0, o0, rows, i + 1, loaded', clock, cron)
      ensures old(Valid()) ==> Valid()
    {
      var task := rows[i];
      loaded' := loaded;
      NamesStep(rows, i);
      if task.name in ctx.processAll {
        SkipRow(ctx, all0, rows, i, loaded);
        return Ok(()), loaded';
      }
      var made := Build(task, host);
      if made.Err? {
        return Err(made.error), loaded';
      }
      ghost var sleeping := ctx.processSleeping;
      RegisterRow(ctx, rows, i, made.value, all0, loaded);
      SleepingAdded(sleeping0, all0, sleeping, Names(rows[..i]), task.name, made.value);
      loaded' := loaded + [task];
      r := ScheduleRow(task, clock, cron, s0, o0, loaded);
    }

    /** The schedule entry `init_time_trigger` makes for a loaded row: the
        next fire time of a time-scheduled task, or croniter's error. */
    method ScheduleRow(task: Task, clock: int, cron: TimeTriggers.Cron,
                       ghost s0: map<string, int>, ghost o0: seq<string>, ghost loaded: seq<Task>)
      returns (r: Result<()>)
      requires TimeTriggers.AddEach(s0, loaded, clock, cron) == TimeTriggers.Plan(schedule, None)
      requires TimeTriggers.OrderEach(o0, loaded, clock, cron) == order
      modifies this`schedule, this`order
      ensures r.Ok? ==> TimeTriggers.AddEach(s0, loaded + [task], clock, cron) == TimeTriggers.Plan(schedule, None)
      ensures r.Ok? ==> TimeTriggers.OrderEach(o0, loaded + [task], clock, cron) == order
      ensures r.Err? <==> Scheduled(task) && cron(task.cronExpression, clock).Err?
      ensures r.Err? ==> r.error == cron(task.cronExpression, clock).error
      ensures old(Valid()) ==> Valid()
    {
      AddEachSnoc(s0, loaded, task, clock, cron);
      TimeTriggers.OrderEachSnoc(o0, loaded, task, clock, cron);
      if Scheduled(task) {
        var next := cron(task.cronExpression, clock);
        if next.Err? {
          return Err(next.error);
        }
        if Valid() {
          TimeTriggers.KeepListed(order, schedule.Keys, task.name);
        }
        schedule := schedule[task.name := next.value];
        order := TimeTriggers.Keep(order, task.name);
      }
      r := Ok(());
    }

    /** `work` on a HEARTBEAT event: for every schedule entry, in the
        dict's order (`order`), skip a running task, look the manager up in
        PROCESS_ALL (KeyError when absent) and, when due, `run` it and set
        its entry to the next fire time of its config's cron expression.
        `started` lists the names `run` was called for, each popped from
        PROCESS_SLEEPING, or else from PROCESS_STOPPED; `spawns` gives what
        spawning each child yields, and `verdict` what each listener does. */
    method Work(ctx: Context, e: Event, host: Host, spawns: string -> Result<int>, clock: int,
                cron: TimeTriggers.Cron, verdict: Verdict)
      returns (r: Result<()>, started: seq<string>)
      requires Valid()
      modifies this`schedule, ctx`processSleeping, ctx`processStopped, ctx.bus
      modifies ctx.processSleeping.Values, ctx.processStopped.Values
      ensures Valid() && order == old(order)
      ensures schedule.Keys == old(schedule).Keys
      ensures forall n :: n in started ==> n in order
      ensures ctx.processSleeping == old(ctx.processSleeping) - (set n | n in started)
      ensures ctx.processStopped == old(ctx.processStopped) - ((set n | n in started) - old(ctx.processSleeping).Keys)
      ensures forall k :: ctx.bus.Handlers(k) == old(ctx.bus.Handlers(k))
      ensures Distinct(started)
      ensures forall n :: n in started ==>
        n !in ctx.processRunning && n in ctx.processAll && DueAt(old(schedule), n, Attribute(e, "now"))
      ensures forall n :: n in old(schedule) && n !in started ==> schedule[n] == old(schedule)[n]
      ensures r.Ok? ==> forall n :: n in started ==>
        n in ctx.processAll && n in schedule && cron(ctx.processAll[n].config.cronExpression, clock) == Ok(schedule[n])
      ensures r.Ok? ==> forall n :: n in old(schedule) && n !in ctx.processRunning ==>
        n in ctx.processAll && (n in started <==> DueAt(old(schedule), n, Attribute(e, "now")))
      ensures var b := Beat(old(ctx.processRunning.Keys), old(ctx.processAll), old(ctx.processSleeping),
                            old(ctx.processStopped), old(ctx.PublishRaised(TaskPreStart, verdict)),
                            old(ctx.PublishRaised(TaskRunning, verdict)), Attribute(e, "now"), clock);
        var sw := WorkOver(Sweep(old(schedule), [], None), order, b, host, spawns, cron);
        schedule == sw.schedule && started == sw.started && ErrorOf(r) == sw.error
    {
      var now := Attribute(e, "now");
      ghost var visited;
      r, started, visited := VisitAll(ctx, order, now, host, spawns, clock, cron, verdict);
    }

    /** The loop of `work` over `names`, the schedule's names in order. */
    method VisitAll(ctx: Context, names: seq<string>, now: Result<Attr>, host: Host, spawns: string -> Result<int>,
                    clock: int, cron: TimeTriggers.Cron, verdict: Verdict)
      returns (r: Result<()>, started: seq<string>, ghost visited: set<string>)
      requires Distinct(names) && forall n :: n in names ==> n in schedule
      modifies this`schedule, ctx`processSleeping, ctx`processStopped, ctx.bus
      modifies ctx.processSleeping.Values, ctx.processStopped.Values
      ensures forall k :: ctx.bus.Handlers(k) == old(ctx.bus.Handlers(k))
      ensures forall n :: n in started ==> n in names
      ensures PoppedFrom(old(ctx.processSleeping), old(ctx.processStopped), Elements(started),
                         ctx.processSleeping, ctx.processStopped)
      ensures Kept(ctx.processRunning.Keys, ctx.processAll, schedule, old(schedule), started, visited, now)
      ensures r.Ok? ==> Complete(ctx.processRunning.Keys, ctx.processAll, schedule, old(schedule), started, visited, now, clock, cron)
      ensures r.Ok? ==> forall n :: n in visited <==> n in names
      ensures var sw := WorkOver(Sweep(old(schedule), [], None), names, old(BeatOf(ctx, now, clock, verdict)),
                                 host, spawns, cron);
        schedule == sw.schedule && started == sw.started && ErrorOf(r) == sw.error
    {
      ghost var b := BeatOf(ctx, now, clock, verdict);
      started := [];
      visited := {};
      r := Ok(());
      var i := 0;
      while i < |names|
        invariant 0 <= i <= |names| && r.Ok?
        invariant forall k :: ctx.bus.Handlers(k) == old(ctx.bus.Handlers(k))
        invariant Stands(names, i, old(schedule), b, BeatOf(ctx, now, clock, verdict), schedule, started, visited,
                         host, spawns, cron)
        invariant ctx.processSleeping.Values <= old(ctx.processSleeping.Values)
        invariant ctx.processStopped.Values <= old(ctx.processStopped.Values)
      {
        r, started, visited := VisitNext(ctx, names, i, now, host, spawns, clock, cron, verdict, old(schedule), b,
                                         started, visited);
        if r.Err? {
          return;
        }
        i := i + 1;
      }
      assert names[..i] == names;
      WorkOverDone(Sweep(old(schedule), [], None), names, b, host, spawns, cron, schedule, started);
    }

    /** Where `work`'s loop stands after `i` names without error, with `s0`
        the schedule and `b` the context before it and `cur` the context
        now: only PROCESS_SLEEPING and PROCESS_STOPPED have changed. */
    static ghost predicate Stands(names: seq<string>, i: int, s0: map<string, int>, b: Beat, cur: Beat,
                                  schedule: map<string, int>, started: seq<string>, visited: set<string>,
                                  host: Host, spawns: string -> Result<int>, cron: TimeTriggers.Cron)
    {
      0 <= i <= |names| && Distinct(names) && (forall n :: n in names ==> n in s0)
      && cur == Beat(b.running, b.all, cur.sleeping, cur.stopped, b.pre, b.post, b.now, b.clock)
      && (forall n :: n in visited <==> n in names[..i])
      && (forall n :: n in started ==> n in names)
      && PoppedFrom(b.sleeping, b.stopped, Elements(started), cur.sleeping, cur.stopped)
      && Kept(b.running, b.all, schedule, s0, started, visited, b.now)
      && Complete(b.running, b.all, schedule, s0, started, visited, b.now, b.clock, cron)
      && WorkOver(Sweep(s0, [], None), names, b, host, spawns, cron)
         == WorkOver(Sweep(schedule, started, None), names[i..], b, host, spawns, cron)
    }

    /** One turn of `work`'s loop: visit `names[i]`. */
    method VisitNext(ctx: Context, names: seq<string>, i: int, now: Result<Attr>, host: Host,
                     spawns: string -> Result<int>, clock: int, cron: TimeTriggers.Cron, verdict: Verdict,
                     ghost s0: map<string, int>, ghost b: Beat, started: seq<string>, ghost visited: set<string>)
      returns (r: Result<()>, started': seq<string>, ghost visited': set<string>)
      requires i < |names| && b.now == now && b.clock == clock
      requires Stands(names, i, s0, b, BeatOf(ctx, now, clock, verdict), schedule, started, visited, host, spawns, cron)
      modifies this`schedule, ctx`processSleeping, ctx`processStopped, ctx.bus
      modifies ctx.processSleeping.Values, ctx.processStopped.Values
      ensures forall k :: ctx.bus.Handlers(k) == old(ctx.bus.Handlers(k))
      ensures ctx.processSleeping.Values <= old(ctx.processSleeping.Values)
      ensures ctx.processStopped.Values <= old(ctx.processStopped.Values)
      ensures forall n :: n in started' ==> n in names
      ensures PoppedFrom(b.sleeping, b.stopped, Elements(started'), ctx.processSleeping, ctx.processStopped)
      ensures Kept(ctx.processRunning.Keys, ctx.processAll, schedule, s0, started', visited', now)
      ensures r.Ok? ==>
        Stands(names, i + 1, s0, b, BeatOf(ctx, now, clock, verdict), schedule, started', visited', host, spawns, cron)
      ensures r.Err? ==> WorkOver(Sweep(s0, [], None), names, b, host, spawns, cron) == Sweep(schedule, started', ErrorOf(r))
    {
      var name := names[i];
      ghost var cur := BeatOf(ctx, now, clock, verdict);
      ghost var sch := schedule;
      NextUnvisited(names, i, visited);
      r, started' := Visit(ctx, name, now, host, spawns, clock, cron, verdict, s0, started, visited, b);
      visited' := visited + {name};
      StandsNext(names, i, s0, b, cur, BeatOf(ctx, now, clock, verdict), sch, schedule, started, started', visited,
                 ErrorOf(r), host, spawns, cron);
    }

    /** What one visit keeps of Stands: the next one, or the sweep's end. */
    static lemma StandsNext(names: seq<string>, i: int, s0: map<string, int>, b: Beat, cur: Beat, cur': Beat,
                            schedule: map<string, int>, schedule': map<string, int>,
                            started: seq<string>, started': seq<string>, visited: set<string>, err: Option<Error>,
                            host: Host, spawns: string -> Result<int>, cron: TimeTriggers.Cron)
      requires i < |names| && Stands(names, i, s0, b, cur, schedule, started, visited, host, spawns, cron)
      requires cur' == Beat(b.running, b.all, cur'.sleeping, cur'.stopped, b.pre, b.post, b.now, b.clock)
      requires started' == started ==> cur'.sleeping == cur.sleeping && cur'.stopped == cur.stopped
      requires started' != started ==>
        started' == started + [names[i]]
        && cur'.sleeping == cur.sleeping - {names[i]}
        && cur'.stopped == cur.stopped - (if names[i] in cur.sleeping then {} else {names[i]})
      requires Kept(b.running, b.all, schedule', s0, started', visited + {names[i]}, b.now)
      requires err.None? ==> Complete(b.running, b.all, schedule', s0, started', visited + {names[i]}, b.now, b.clock, cron)
      requires Sweep(schedule', started', err) == Step(Sweep(schedule, started, None), names[i], b, host, spawns, cron)
      ensures forall n :: n in started' ==> n in names
      ensures PoppedFrom(b.sleeping, b.stopped, Elements(started'), cur'.sleeping, cur'.stopped)
      ensures err.None? ==> Stands(names, i + 1, s0, b, cur', schedule', started', visited + {names[i]}, host, spawns, cron)
      ensures err.Some? ==> WorkOver(Sweep(s0, [], None), names, b, host, spawns, cron) == Sweep(schedule', started', err)
    {
      WorkOverStep(Sweep(s0, [], None), names, i, b, host, spawns, cron, schedule, started, Sweep(schedule', started', err));
      StandsPopped(names, i, b, cur, cur', started, started', visited);
      VisitedNext(names, i, visited);
    }

    /** The popped names after one visit: those before, and `names[i]` if it started. */
    static lemma StandsPopped(names: seq<string>, i: int, b: Beat, cur: Beat, cur': Beat,
                              started: seq<string>, started': seq<string>, visited: set<string>)
      requires Distinct(names) && 0 <= i < |names|
      requires forall n :: n in visited <==> n in names[..i]
      requires forall n :: n in started ==> n in names
      requires forall n :: n in started ==> n in visited
      requires PoppedFrom(b.sleeping, b.stopped, Elements(started), cur.sleeping, cur.stopped)
      requires started' == started ==> cur'.sleeping == cur.sleeping && cur'.stopped == cur.stopped
      requires started' != started ==>
        started' == started + [names[i]]
        && cur'.sleeping == cur.sleeping - {names[i]}
        && cur'.stopped == cur.stopped - (if names[i] in cur.sleeping then {} else {names[i]})
      ensures forall n :: n in started' ==> n in names
      ensures PoppedFrom(b.sleeping, b.stopped, Elements(started'), cur'.sleeping, cur'.stopped)
    {
      NextUnvisited(names, i, visited);
      if started' != started {
        Popped(b.sleeping, b.stopped, started, cur.sleeping, cur.stopped, names[i], cur'.sleeping, cur'.stopped);
      }
    }

    /** After `names[i]`, the visited names are `names[..i + 1]`. */
    static lemma VisitedNext(names: seq<string>, i: int, visited: set<string>)
      requires 0 <= i < |names|
      requires forall n :: n in visited <==> n in names[..i]
      ensures forall n :: n in visited + {names[i]} <==> n in names[..i + 1]
    {
      assert names[..i + 1] == names[..i] + [names[i]];
    }

    /** A sweep over every name without error ends where the loop ends. */
    static lemma WorkOverDone(sw0: Sweep, names: seq<string>, b: Beat, host: Host, spawns: string -> Result<int>,
                              cron: TimeTriggers.Cron, schedule: map<string, int>, started: seq<string>)
      requires WorkOver(sw0, names, b, host, spawns, cron)
        == WorkOver(Sweep(schedule, started, None), names[|names|..], b, host, spawns, cron)
      ensures WorkOver(sw0, names, b, host, spawns, cron) == Sweep(schedule, started, None)
    {
      assert names[|names|..] == [];
    }

    /** One iteration of `work` for `name`; `visited` are the names the
        loop has been through, with `s0` the schedule before it. */
    method Visit(ctx: Context, name: string, now: Result<Attr>, host: Host, spawns: string -> Result<int>,
                 clock: int, cron: TimeTriggers.Cron, verdict: Verdict, ghost s0: map<string, int>,
                 started: seq<string>, ghost visited: set<string>, ghost b: Beat)
      returns (r: Result<()>, started': seq<string>)
      requires name in s0 && name !in visited
      requires Kept(ctx.processRunning.Keys, ctx.processAll, schedule, s0, started, visited, now)
      requires Complete(ctx.processRunning.Keys, ctx.processAll, schedule, s0, started, visited, now, clock, cron)
      requires b.running == ctx.processRunning.Keys && b.all == ctx.processAll && b.now == now && b.clock == clock
      requires b.pre == ctx.PublishRaised(TaskPreStart, verdict) && b.post == ctx.PublishRaised(TaskRunning, verdict)
      requires PoppedFrom(b.sleeping, b.stopped, Elements(started), ctx.processSleeping, ctx.processStopped)
      modifies this`schedule, ctx`processSleeping, ctx`processStopped, ctx.bus
      modifies ctx.processSleeping.Values, ctx.processStopped.Values
      ensures forall k :: ctx.bus.Handlers(k) == old(ctx.bus.Handlers(k))
      ensures ctx.processSleeping.Values <= old(ctx.processSleeping.Values)
      ensures ctx.processStopped.Values <= old(ctx.processStopped.Values)
      ensures started' == started ==>
        ctx.processSleeping == old(ctx.processSleeping) && ctx.processStopped == old(ctx.processStopped)
      ensures started' != started ==>
        started' == started + [name]
        && ctx.processSleeping == old(ctx.processSleeping) - {name}
        && ctx.processStopped == old(ctx.processStopped) - (if name in old(ctx.processSleeping) then {} else {name})
      ensures Kept(ctx.processRunning.Keys, ctx.processAll, schedule, s0, started', visited + {name}, now)
      ensures r.Ok? ==> Complete(ctx.processRunning.Keys, ctx.processAll, schedule, s0, started', visited + {name}, now, clock, cron)
      ensures Sweep(schedule, started', ErrorOf(r)) == Step(Sweep(old(schedule), started, None), name, b, host, spawns, cron)
      ensures ctx.PublishRaised(TaskPreStart, verdict) == old(ctx.PublishRaised(TaskPreStart, verdict))
      ensures ctx.PublishRaised(TaskRunning, verdict) == old(ctx.PublishRaised(TaskRunning, verdict))
    {
      ghost var running, all, sch := ctx.processRunning.Keys, ctx.processAll, schedule;
      ghost var sw := Sweep(schedule, started, None);
      started' := started;
      KeptVisited(running, all, sch, s0, started, visited, now, name);
      var d := Decide(ctx.processRunning.Keys, ctx.processAll, schedule, now, name);
      if d.Err? {
        StepOf(sw, name, b, host, spawns, cron, d, Ok(()), Ok(0));
        return Err(d.error), started';
      }
      if !d.value {
        StepOf(sw, name, b, host, spawns, cron, d, Ok(()), Ok(0));
        CompleteSkip(running, all, sch, s0, started, visited, now, clock, cron, name);
        return Ok(()), started';
      }
      KeptStart(running, all, sch, s0, started, visited, now, name);
      RunPopped(b, Elements(started), ctx.processSleeping, ctx.processStopped, name, host, spawns(name));
      var pm := ctx.processAll[name];
      started' := started + [name];
      var ran := Launch(ctx, name, host, spawns(name), clock, verdict);
      if ran.Err? {
        StepOf(sw, name, b, host, spawns, cron, d, ran, Ok(0));
        return ran, started';
      }
      var next := cron(pm.config.cronExpression, clock);
      StepOf(sw, name, b, host, spawns, cron, d, ran, next);
      if next.Err? {
        return Err(next.error), started';
      }
      Renewed(running, all, sch, s0, started, visited, now, clock, cron, name, next.value);
      schedule := schedule[name := next.value];
      r := Ok(());
    }

    /** The sweep over `names` once `i` of them are visited without error
        and the next one is visited to `next`. */
    static lemma WorkOverStep(sw0: Sweep, names: seq<string>, i: int, b: Beat, host: Host,
                              spawns: string -> Result<int>, cron: TimeTriggers.Cron,
                              schedule: map<string, int>, started: seq<string>, next: Sweep)
      requires 0 <= i < |names|
      requires WorkOver(sw0, names, b, host, spawns, cron)
        == WorkOver(Sweep(schedule, started, None), names[i..], b, host, spawns, cron)
      requires next == Step(Sweep(schedule, started, None), names[i], b, host, spawns, cron)
      ensures next.error.Some? ==> WorkOver(sw0, names, b, host, spawns, cron) == next
      ensures next.error.None? ==>
        WorkOver(sw0, names, b, host, spawns, cron)
        == WorkOver(Sweep(next.schedule, next.started, None), names[i + 1..], b, host, spawns, cron)
    {
      assert names[i..][0] == names[i] && names[i..][1..] == names[i + 1..];
      if next.error.None? {
        assert next == Sweep(next.schedule, next.started, None);
      }
    }

    /** One step of `work` by the outcomes of its three calls: Decide
        (`d`), `run` (`ran`) and croniter (`next`). */
    static lemma StepOf(sw: Sweep, name: string, b: Beat, host: Host, spawns: string -> Result<int>,
                        cron: TimeTriggers.Cron, d: Result<bool>, ran: Result<()>, next: Result<int>)
      requires d == Decide(b.running, b.all, sw.schedule, b.now, name)
      requires d == Ok(true) ==> ran == RunResult(b.sleeping, b.stopped, name, b.pre, b.post, host, spawns(name))
      requires d == Ok(true) && ran.Ok? ==> next == cron(b.all[name].config.cronExpression, b.clock)
      ensures Step(sw, name, b, host, spawns, cron) ==
        if d.Err? then Sweep(sw.schedule, sw.started, Some(d.error))
        else if !d.value then sw
        else if ran.Err? then Sweep(sw.schedule, sw.started + [name], Some(ran.error))
        else if next.Err? then Sweep(sw.schedule, sw.started + [name], Some(next.error))
        else Sweep(sw.schedule[name := next.value], sw.started + [name], None)
    {
    }

    /** `run` of a name not yet popped sees the heartbeat's tables. */
    static lemma RunPopped(b: Beat, popped: set<string>, sleeping: map<string, SubProcess>,
                           stopped: map<string, SubProcess>, name: string, host: Host, spawn: Result<int>)
      requires PoppedFrom(b.sleeping, b.stopped, popped, sleeping, stopped) && name !in popped
      ensures RunResult(sleeping, stopped, name, b.pre, b.post, host, spawn)
        == RunResult(b.sleeping, b.stopped, name, b.pre, b.post, host, spawn)
    {
      assert name in sleeping <==> name in b.sleeping;
      assert name in sleeping ==> sleeping[name] == b.sleeping[name];
    }

    /** The next name of a list without repeats is not among the earlier ones. */
    static lemma NextUnvisited(names: seq<string>, i: int, visited: set<string>)
      requires Distinct(names) && 0 <= i < |names|
      requires forall n :: n in visited <==> n in names[..i]
      ensures names[i] !in visited
    {
      forall j | 0 <= j < i ensures names[j] != names[i] {}
    }

    /** Popping `name`, not popped before, from PROCESS_SLEEPING, or else
        from PROCESS_STOPPED, adds it to the popped names. */
    static lemma Popped(sleeping0: map<string, SubProcess>, stopped0: map<string, SubProcess>, started: seq<string>,
                        sleeping: map<string, SubProcess>, stopped: map<string, SubProcess>, name: string,
                        sleeping': map<string, SubProcess>, stopped': map<string, SubProcess>)
      requires name !in started && PoppedFrom(sleeping0, stopped0, Elements(started), sleeping, stopped)
      requires sleeping' == sleeping - {name}
      requires stopped' == stopped - (if name in sleeping then {} else {name})
      ensures PoppedFrom(sleeping0, stopped0, Elements(started + [name]), sleeping', stopped')
    {
      assert Elements(started + [name]) == Elements(started) + {name};
    }

    /** The names of `started`, as a set. */
    static ghost function Elements(started: seq<string>): set<string>
    {
      set n | n in started
    }

    /** PROCESS_SLEEPING and PROCESS_STOPPED once each name in `popped`
        has been popped from the first, or else from the second. */
    static ghost predicate PoppedFrom(sleeping0: map<string, SubProcess>, stopped0: map<string, SubProcess>,
                                      popped: set<string>,
                                      sleeping: map<string, SubProcess>, stopped: map<string, SubProcess>)
    {
      sleeping == sleeping0 - popped && stopped == stopped0 - (popped - sleeping0.Keys)
    }

    /** A visit that starts nothing and changes no entry keeps Kept. */
    static lemma KeptVisited(running: set<string>, all: map<string, SubProcess>, schedule: map<string, int>,
                             s0: map<string, int>, started: seq<string>, visited: set<string>, now: Result<Attr>,
                             name: string)
      requires Kept(running, all, schedule, s0, started, visited, now) && name !in visited
      ensures Kept(running, all, schedule, s0, started, visited + {name}, now)
      ensures name in s0 ==> name in schedule && schedule[name] == s0[name]
    {
    }

    /** A visited name that is running, or not due, is not started. */
    static lemma CompleteSkip(running: set<string>, all: map<string, SubProcess>, schedule: map<string, int>,
                              s0: map<string, int>, started: seq<string>, visited: set<string>, now: Result<Attr>,
                              clock: int, cron: TimeTriggers.Cron, name: string)
      requires Kept(running, all, schedule, s0, started, visited, now) && name !in visited
      requires Complete(running, all, schedule, s0, started, visited, now, clock, cron)
      requires name !in running ==> name in all && !DueAt(s0, name, now)
      ensures Complete(running, all, schedule, s0, started, visited + {name}, now, clock, cron)
    {
    }

    /** Starting a due name that is not running keeps Kept. */
    static lemma KeptStart(running: set<string>, all: map<string, SubProcess>, schedule: map<string, int>,
                           s0: map<string, int>, started: seq<string>, visited: set<string>, now: Result<Attr>,
                           name: string)
      requires Kept(running, all, schedule, s0, started, visited, now) && name !in visited
      requires name !in running && name in all && DueAt(s0, name, now)
      ensures Kept(running, all, schedule, s0, started + [name], visited + {name}, now)
    {
    }

    /** The started name's new entry: Kept and Complete both hold after it. */
    static lemma Renewed(running: set<string>, all: map<string, SubProcess>, schedule: map<string, int>,
                         s0: map<string, int>, started: seq<string>, visited: set<string>, now: Result<Attr>,
                         clock: int, cron: TimeTriggers.Cron, name: string, next: int)
      requires Kept(running, all, schedule, s0, started, visited, now) && name !in visited
      requires Complete(running, all, schedule, s0, started, visited, now, clock, cron)
      requires name !in running && name in all && DueAt(s0, name, now)
      requires cron(all[name].config.cronExpression, clock) == Ok(next)
      ensures Kept(running, all, schedule[name := next], s0, started + [name], visited + {name}, now)
      ensures Complete(running, all, schedule[name := next], s0, started + [name], visited + {name}, now, clock, cron)
    {
    }

    /** `context.run(name)`, seen from `work`: only the frame matters
        here, and which table the manager is popped from; what it does to
        the manager is Contexts.Context.Run's contract. `work` calls it only
        for a name that is not running. */
    static method Launch(ctx: Context, name: string, host: Host, spawn: Result<int>, clock: int, verdict: Verdict)
      returns (r: Result<()>)
      requires name !in ctx.processRunning
      modifies ctx`processSleeping, ctx`processStopped, ctx.bus, ctx.processSleeping.Values, ctx.processStopped.Values
      ensures forall k :: ctx.bus.Handlers(k) == old(ctx.bus.Handlers(k))
      ensures ctx.processSleeping.Values <= old(ctx.processSleeping.Values)
      ensures ctx.processStopped.Values <= old(ctx.processStopped.Values)
      ensures ctx.processRunning == old(ctx.processRunning) && ctx.processAll == old(ctx.processAll)
      ensures ctx.processSleeping == old(ctx.processSleeping) - {name}
      ensures ctx.processStopped == old(ctx.processStopped) - (if name in old(ctx.processSleeping) then {} else {name})
      ensures r == RunResult(old(ctx.processSleeping), old(ctx.processStopped), name,
                             old(ctx.PublishRaised(TaskPreStart, verdict)), old(ctx.PublishRaised(TaskRunning, verdict)),
                             host, spawn)
    {
      r := ctx.Run(name, host, spawn, clock, verdict);
    }

    /** The context as one heartbeat of `work` finds it. */
    static ghost function BeatOf(ctx: Context, now: Result<Attr>, clock: int, verdict: Verdict): Beat
      reads ctx, ctx.bus
    {
      Beat(ctx.processRunning.Keys, ctx.processAll, ctx.processSleeping, ctx.processStopped,
           ctx.PublishRaised(TaskPreStart, verdict), ctx.PublishRaised(TaskRunning, verdict), now, clock)
    }

    /** What `work` has done once it has visited `visited`, seen through
        the names in PROCESS_RUNNING, PROCESS_ALL and the schedule: the keys
        stand, `started` lists distinct visited names, each then not
        running, registered and due, and every name not started keeps its
        entry. */
    static ghost predicate Kept(running: set<string>, all: map<string, SubProcess>, schedule: map<string, int>,
                                s0: map<string, int>, started: seq<string>, visited: set<string>, now: Result<Attr>)
    {
      schedule.Keys == s0.Keys && Distinct(started)
      && (forall n :: n in started ==> n in visited)
      && (forall n :: n in started ==> n !in running && n in all && DueAt(s0, n, now))
      && (forall n :: n in s0 && n !in started ==> schedule[n] == s0[n])
    }

    /** ... and, while no error has occurred, every started name has its
        new entry and every visited name not running was started exactly
        when due. */
    static ghost predicate Complete(running: set<string>, all: map<string, SubProcess>, schedule: map<string, int>,
                                    s0: map<string, int>, started: seq<string>, visited: set<string>,
                                    now: Result<Attr>, clock: int, cron: TimeTriggers.Cron)
    {
      (forall n :: n in started ==>
         n in all && n in schedule && cron(all[n].config.cronExpression, clock) == Ok(schedule[n]))
      && (forall n :: n in visited && n !in running ==>
            n in all && (n in started <==> DueAt(s0, n, now)))
    }
  }
}
