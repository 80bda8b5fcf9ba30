# lk-flow supervision core in Dafny

lk-flow is a Python process supervisor. A `Context` keeps every managed
task in four registries: PROCESS_ALL, RUNNING, STOPPED and SLEEPING. Each
entry is a `SubProcess` manager, which prepares and starts the child
process and tracks its state. A synchronous `EventBus` delivers events
(HEARTBEAT, TASK_ADD and so on) to the listeners that plugins subscribe.
Plugins are `ModAbstraction` subclasses, discovered by scanning plugin
directories and driven by `core/mod.py`. This project models:

- the event vocabulary and bus (`core/event.py`, module `Events`);
- the registry and its `run` / `state_check` (`core/context.py`, module `Contexts`);
- the Task record (`models/tasks.py`, module `Tasks`);
- start-up preparation and the state machine of a manager (`models/subprocess.py`, module `Subprocesses`);
- the hook plugin (`plugin/hook_trigger.py`, modules `HookTables` for the token language and the table functions, `HookTriggers` for the plugin class);
- the cron plugin (`plugin/time_trigger.py`, module `TimeTriggers`);
- the older, database-backed cron plugin (`plugin/trigger.py`, module `LegacyTriggers`);
- the plugin registry and drivers (`core/mod.py`, module `Mods`).

Class-level dictionaries (`Context.PROCESS_*`, `HookTrigger.hook_listeners`,
`TimeTrigger.PROCESS_SCHEDULE`, `_sub_class_map`) are fields of one
instance of the corresponding Dafny class. Each method of that class
states its new state as a function of the old one, and the lemmas beside
those functions state what the source promises. Where the iteration order
of a dict matters, the class keeps the dict's insertion order beside it
(`order` in both cron plugins; `_sub_class_map` is a sequence of pairs).
Python's string methods and `os.path` helpers that the core relies on are
in module `PyStr`. `Option`, `Result` and the error constructors named
after `lk_flow/errors.py` are in module `Outcomes`.

Nothing outside the core is executed or simulated. Each such dependency
is either a parameter or a recorded call:

- the wall clock and `event.now` are integers (seconds);
- croniter is a function parameter `cron(expr, base)`, which may raise;
- the file system is a `Host` value (the paths that exist, the paths
  whose `os.stat` raises an error other than FileNotFoundError, the
  directories that can be entered, the environment, the log directory);
- what spawning a child yields is a parameter `spawn`: its pid, or the
  exception `create_subprocess_exec` raises;
- what a listener does is an oracle `verdict`: it returns a falsy or a
  truthy value, or raises. A raising listener ends the publish, and the
  exception leaves `publish_event` and the caller;
- what a plugin classmethod raises or returns is an oracle parameter;
- the database is reduced to "does the `task` table exist" and its rows;
- a plugin directory is its listing, with each file's namespace as
  (name, is-a-ModAbstraction-subclass, class) triples.

Context members that the plugins call but `context.py` does not define
(`add_task`, `start_task`, `get_process`, `get_all_processes`,
`delete_task`, `add_mod_map`, `get_mod_map`) append a `Call` to
`Context.calls` and change nothing else. Calls into plugin classmethods
are recorded the same way. Since `get_process` is defined nowhere, what
it does for a name with no manager is the model's choice: it raises
`TaskNotFound`, an error of this model that no source file defines.

Where the source and its documentation disagree, the model follows the
code:

- `Context.run` never inserts the started manager into PROCESS_RUNNING.
  Only PROCESS_SLEEPING or PROCESS_STOPPED shrink.
- `Context.run` publishes TASK_PRE_START and TASK_RUNNING without a
  `task_name` attribute. `HookTrigger.task_hook_trigger` therefore raises
  AttributeError on them (`Triggered`), and that exception leaves `run`
  (`Run`).

Two declarations that the rest of the source relies on are incomplete as
written. The model completes them, keeps the as-written behaviour beside
the completion, and lists both under "## Findings":

- `EVENT` (`core/event.py`) declares eight members. `context.py`, the
  plugins and `main.py` use eight more: HEARTBEAT, SYSTEM_SETUP,
  SYSTEM_CLOSE, EXEC_SYSTEM_CLOSE, SYSTEM_TEARDOWN, TASK_ADD, TASK_DELETE
  and TASK_STOP. `EventKind` has all sixteen, each valued by its lower-case
  name. As written, constructing a `Context` raises AttributeError
  (`InitAsWritten`), and `EVENT("heartbeat")` is a ValueError
  (`FromValueAsWritten`).
- `Task` (`models/tasks.py`) declares no `stdout_logfile` or
  `stderr_logfile`, although `SubProcess.__init__` reads both. The model's
  Task carries them as optional fields that default to None. As written,
  constructing a manager raises AttributeError (`NewAsWritten`).

## Model

| member | source | states |
|---|---|---|
| Tasks.NewTask | lk_flow/models/tasks.py:10-21 | only `name` is required; the command, directory, environment, cron expression and trigger events default to None, `auto_restart` to False, `restart_retries` to 0 and `extra_json` to "{}" |
| Tasks.FieldAsWritten | lk_flow/models/tasks.py:10-21 | reading a Task attribute succeeds exactly for the nine declared fields, and raises AttributeError naming it otherwise |
| Events.FromValue | lk_flow/core/event.py:10-22 | `EVENT(s)` finds the member whose value is `s`, and finds none exactly when no member has that value |
| Events.FromValueValue | lk_flow/core/event.py:10-22 | every member is found again from its own value |
| Events.FromValueAsWritten | lk_flow/core/event.py:10-22 | over the enum as declared, a value is found exactly when it is one of the eight declared members' values |
| Events.UndeclaredValues | lk_flow/core/event.py:10-22 | each of the eight members the enum lacks, such as "heartbeat" and "system_close", is a ValueError as written and is found by the completed enum |
| Events.Attribute | lk_flow/core/event.py:25-28 | reading an event attribute succeeds exactly when it was given as a keyword, or is `event_type`, and raises AttributeError naming it otherwise |
| Events.NewEvent | lk_flow/core/event.py:26-28 | the event carries its keyword attributes, and `event_type` overrides a keyword of the same name |
| Events.TaskOf | lk_flow/plugin/hook_trigger.py:71 | `event.task` raises AttributeError when absent; a non-Task value fails on the field read next |
| Events.AsKey | lk_flow/plugin/time_trigger.py:56 | using an attribute as a dict key fails exactly for a Task (unhashable, TypeError); a string is its own key |
| Events.InvokedIsStoppingPrefix | lk_flow/core/event.py:41-45 | a publish invokes a prefix of the registered listeners in which every listener but the last returned falsy, and which is shorter than the list only when cut by a listener that returned truthy or raised |
| Events.RaisedByLastInvoked | lk_flow/core/event.py:41-45 | a publish raises exactly when the last listener it reached raised, and then raises that listener's exception |
| Events.InvokedAllWhenNoneStops | lk_flow/core/event.py:41-45 | with every listener returning falsy, every registered listener runs once, in order, and nothing is raised |
| Events.InvokedUpToFirstStop | lk_flow/core/event.py:43-45 | the invoked list ends exactly at the first listener that returns truthy or raises |
| Events.EventsOfAppend | lk_flow/core/event.py:41-45 | the published events of two runs of publishes are the concatenation of each run's events |
| Events.Reach | lk_flow/core/event.py:42-45 | the loop over the listeners invokes exactly Invoked and raises exactly Raised |
| Events.EventBus.AddListener | lk_flow/core/event.py:38-39 | `add_listener` appends to the list of one event type and leaves every other list unchanged |
| Events.EventBus.Publish | lk_flow/core/event.py:41-45 | `publish_event` invokes the listeners of the event's type in registration order up to the first that returns truthy or raises, propagates that exception, changes no list, and records the event as published |
| Contexts.GetInstance | lk_flow/core/context.py:34-43 | `get_instance` succeeds exactly when `Context._env` (the `Registry`) holds a context, returns that context, and otherwise raises RuntimeError |
| Contexts.Context.constructor | lk_flow/core/context.py:24-32 | a new context records itself as `Context._env`, so `get_instance` then returns it. It has the loop enabled, empty registries, and a fresh bus with `close_loop` on SYSTEM_CLOSE and `state_check` on HEARTBEAT and nothing else |
| Contexts.InitAsWritten | lk_flow/core/context.py:29-30 | over the enum as declared, the constructor raises AttributeError at `EVENT.SYSTEM_CLOSE` |
| Contexts.Context.CloseLoop | lk_flow/core/context.py:45-48 | `close_loop` clears `loop_enable` and returns a falsy value, so the publish continues |
| Contexts.Context.IsRunning | lk_flow/core/context.py:50-53 | a name for which `is_running` holds is one `run` leaves alone; a name that is not running but has a sleeping or stopped manager is one `run` starts |
| Contexts.Context.Run | lk_flow/core/context.py:55-68 | a running name is a no-op. Otherwise the manager is popped from SLEEPING, else STOPPED (KeyError when in neither, changing nothing). TASK_PRE_START is published; its listener's exception leaves `run` with the manager untouched. Otherwise the manager is started: a preparation or spawn error leaves `run`. Otherwise TASK_RUNNING is published and its exception is the result, with the manager running under the new pid and no exit code. Only the popped manager changes. For a name not running, the result is Contexts.RunResult of SLEEPING and STOPPED before the call |
| Contexts.RunResult | lk_flow/core/context.py:55-68 | the outcome of `run` for a name that is not running: KeyError when it is in neither SLEEPING nor STOPPED; success exactly when it is in one, neither publish raises and its config starts (the popped manager's, SLEEPING first) |
| Contexts.Context.StartPopped | lk_flow/core/context.py:62-68 | after the pop: TASK_PRE_START, the start, TASK_RUNNING, each only when nothing before it raised; the published events and the manager's state follow which step raised |
| Contexts.ExitCheckEvent | lk_flow/core/context.py:82-86 | the event published for an exited manager is TASK_FINISH for exit code 0 and TASK_RUNNING_ERROR otherwise, with no attributes |
| Contexts.ExitEventsSnoc | lk_flow/core/context.py:76-86 | one more moved manager adds exactly its exit event at the end |
| Contexts.Context.StateCheck | lk_flow/core/context.py:70-86 | the loop as intended over a snapshot: moved managers leave RUNNING and enter STOPPED under their name, and only exited ones move. Without error every exited manager moves and no exit publish raised; a raising exit listener ends the loop right after that manager's move and its exception leaves `state_check`. One exit event is published per moved entry in move order, other entries are unchanged, and disjoint RUNNING/STOPPED stay disjoint |
| Contexts.Context.StateCheckAsWritten | lk_flow/core/context.py:76 | the loop as written iterates keys and unpacks each into two names; it raises ValueError or AttributeError exactly when RUNNING is non-empty |
| Contexts.UnpackKey | lk_flow/core/context.py:76 | unpacking a string key into two names succeeds exactly for two-character keys and raises ValueError otherwise |
| Subprocesses.EnvPairsOk | lk_flow/models/subprocess.py:98-103 | parsing `environment` succeeds exactly when every non-empty `;` piece splits into exactly two parts at `=` |
| Subprocesses.EnvPairsLastWins | lk_flow/models/subprocess.py:100-103 | a later piece with the same key overrides an earlier one |
| Subprocesses.EnvPairsKeys | lk_flow/models/subprocess.py:100-103 | the parsed keys are exactly the keys of the well-formed non-empty pieces |
| Subprocesses.EnvPairsErrIsValueError | lk_flow/models/subprocess.py:102 | a malformed piece fails with ValueError (the failed unpack) |
| Subprocesses.Environment | lk_flow/models/subprocess.py:93-105 | `_make_env`: a falsy `environment` gives the base environment plus `LK_FLOW_ENABLED="1"`; otherwise the parsed pairs are laid over it, keeping every base key |
| Subprocesses.MarkerSet | lk_flow/models/subprocess.py:95 | `LK_FLOW_ENABLED` is "1" unless a piece of `environment` sets it |
| Subprocesses.MakeEnv | lk_flow/models/subprocess.py:93-105 | the method with its loop computes exactly Environment |
| Subprocesses.FirstIndexSpec | lk_flow/models/subprocess.py:115-121 | the search stops at the first of the directories holding the file |
| Subprocesses.Resolve | lk_flow/models/subprocess.py:107-122 | a filename with '/' resolves to itself exactly when it exists. Otherwise it resolves to the first of /bin, /usr/bin, /usr/local/bin holding it; an `os.stat` error other than FileNotFoundError on the way propagates as OSError; RunError when none holds it |
| Subprocesses.CheckFilenameExist | lk_flow/models/subprocess.py:107-122 | the loop over the three directories computes exactly Resolve |
| Subprocesses.SplitCommand | lk_flow/models/subprocess.py:83-87 | a command without a space is the filename with no arguments; one with a space is whitespace-split into filename and arguments, and an all-blank command cannot be unpacked |
| Subprocesses.PrepareStart | lk_flow/models/subprocess.py:69-91 | succeeds exactly when the directory can be entered, the environment parses, there is a command, it splits and its filename resolves; the result is then the resolved path, the arguments and the environment. Each failure is the first failing step's error: RunError for the directory or a None command, the parse, split or lookup error otherwise |
| Subprocesses.FormatLogFile | lk_flow/models/subprocess.py:49-67 | no path gives `<log dir>/<name>/<name>_<suffix>`; a relative path is placed under the log directory; a path whose directory does not exist raises DictionaryNotExist |
| Subprocesses.SubProcess.New | lk_flow/models/subprocess.py:30-47 | over the completed Task, a new manager has no pid, state sleeping, no exit code and no process, and its log paths are those FormatLogFile gives. The constructor fails exactly when a log path fails, with the stdout path's error if that one fails, else the stderr path's |
| Subprocesses.NewAsWritten | lk_flow/models/subprocess.py:42-47 | over the Task as declared, the constructor raises AttributeError reading `config.stdout_logfile` |
| Subprocesses.SubProcess.IsRunning | lk_flow/models/subprocess.py:228-232 | `is_running` needs a process handle; for a manager with a pid it holds exactly when that handle has no return code |
| Subprocesses.SubProcess.Start | lk_flow/models/subprocess.py:152-178 | the result is the preparation's error, else the spawn's, else success. A failed preparation changes nothing. After a successful one the exit code is cleared; a failed spawn then leaves no process handle. On success a fresh handle is current, the pid is its pid, the state running and the handle watched |
| Subprocesses.SubProcess.OnExit | lk_flow/models/subprocess.py:180-210 | in any state, the watcher always records the exit code and stop time. Only for the current handle does it clear the pid, set exit_normal or exit_error and publish TASK_FINISH or TASK_RUNNING_ERROR with the task name. A stale handle, such as the old child's after a failed spawn dropped it, publishes nothing and leaves pid and state |
| Subprocesses.SubProcess.Stop | lk_flow/models/subprocess.py:212-222 | in any state, `stop` is a no-op when not running, including a manager that holds a pid but no handle. Otherwise it ends with no pid and state stopped, and the watcher is cancelled; a running manager with no pid raises TypeError |
| Subprocesses.SubProcess.Restart | lk_flow/models/subprocess.py:224-226 | in any state, restart is stop then start. A stop that raises is the result; otherwise the result is the start's (preparation, then spawn error), and on success the manager runs with the new pid. After a start error the manager is as the stop left it, and a failed spawn has also dropped the handle and exit code |
| Subprocesses.ExitEvent | lk_flow/models/subprocess.py:201-209 | the watcher's event is TASK_FINISH for exit code 0 and TASK_RUNNING_ERROR otherwise, carrying the task name |
| HookTables.ParseToken | lk_flow/plugin/hook_trigger.py:49-50 | a token `P__h` parses to the event whose value is `P` lower-cased and to the hook task `h`, and `h` holds no further `__` (the split must give exactly two parts); anything else is a ValueError |
| HookTables.ParseTokenOf | lk_flow/plugin/hook_trigger.py:49-50 | `NAME__task` for any casing of an event's name parses back to that event and task |
| HookTables.RemoveFirst | lk_flow/plugin/hook_trigger.py:86-87 | `list.remove` drops one occurrence: the multiset loses one copy, and the list is unchanged when the name is absent |
| HookTables.RemoveFirstAt | lk_flow/plugin/hook_trigger.py:86-87 | the occurrence dropped is the first, and the rest keep their order |
| HookTables.AddAllLists | lk_flow/plugin/hook_trigger.py:46-51 | after `add_task_hook`, every list gains the task once per token naming it, in token order, and the error is that of the first token that fails to parse |
| HookTables.RemoveAllLists | lk_flow/plugin/hook_trigger.py:81-87 | `task_hook_remove` takes the first occurrence of the task off a named list once per token naming it, keeping the order of the rest, with the same error as the add |
| HookTables.RemoveAfterAdd | lk_flow/plugin/hook_trigger.py:38-87 | removing a task's hooks after adding them restores every list's contents, and restores each list exactly, order included, when the task was not in it before |
| HookTables.HookedTaskListed | lk_flow/plugin/hook_trigger.py:51 | a task is in the list of every hook its tokens declare before the first bad one |
| HookTables.Declared | lk_flow/plugin/hook_trigger.py:61-63 | `process_set_add` visits exactly the processes whose config has trigger events |
| HookTables.SetAddLists | lk_flow/plugin/hook_trigger.py:54-63 | at SYSTEM_SETUP every list gains the declaring tasks' names, in process order |
| HookTriggers.StartCalls | lk_flow/plugin/hook_trigger.py:93-94 | one `start_task` per listed name, in list order |
| HookTriggers.HookTrigger.SetupMod | lk_flow/plugin/hook_trigger.py:18-32 | `setup_mod` subscribes `process_set_add` to SYSTEM_SETUP, the add and remove listeners to TASK_ADD and TASK_DELETE, and `task_hook_trigger` to the six task events, after any existing listeners |
| HookTriggers.HookTrigger.AddTaskHook | lk_flow/plugin/hook_trigger.py:38-51 | the table afterwards is AddAll of the parsed tokens, and a bad token raises after the appends before it |
| HookTriggers.HookTrigger.TaskHookAdd | lk_flow/plugin/hook_trigger.py:65-72 | the event's `task` is added with its trigger events; an event without a task raises AttributeError and changes nothing |
| HookTriggers.HookTrigger.TaskHookRemove | lk_flow/plugin/hook_trigger.py:74-87 | the event's `task` leaves every list its tokens name, one occurrence each; without a task nothing changes |
| HookTriggers.HookTrigger.Triggered | lk_flow/plugin/hook_trigger.py:93 | the tasks to start are the list under the event's type and its string `task_name`; an event without `task_name` raises AttributeError, and a Task-valued one TypeError |
| HookTriggers.HookTrigger.TaskHookTrigger | lk_flow/plugin/hook_trigger.py:89-94 | `start_task` is called for every listed task, in order, and for none when the lookup fails |
| HookTriggers.HookTrigger.ProcessSetAdd | lk_flow/plugin/hook_trigger.py:53-63 | asks the context for all processes once, then adds the hooks of each hooked process in order |
| TimeTriggers.AddOne | lk_flow/plugin/time_trigger.py:81-91 | a task with a cron expression gets the next fire time after now, replacing any entry of its name; a task without one leaves the schedule unchanged; a croniter error changes nothing |
| TimeTriggers.AddEachKeys | lk_flow/plugin/time_trigger.py:93-101 | after the initial load the schedule's names are the old ones plus every scheduled task's name |
| TimeTriggers.AddEachUnscheduled | lk_flow/plugin/time_trigger.py:87 | a name no scheduled config carries keeps its entry, or its absence |
| TimeTriggers.Dropped | lk_flow/plugin/time_trigger.py:54-56 | `pop(task_name, None)` removes exactly that name's entry and keeps every other one; AttributeError when the event has no `task_name`, TypeError when it is a Task |
| TimeTriggers.AddThenDrop | lk_flow/plugin/time_trigger.py:54-91 | deleting a task just added removes exactly its entry |
| TimeTriggers.AddOneListed | lk_flow/plugin/time_trigger.py:81-91 | `_add_task` keeps the insertion order a listing of the schedule's keys |
| TimeTriggers.WithoutListed | lk_flow/plugin/time_trigger.py:56 | popping an entry keeps the insertion order a listing of the remaining keys |
| TimeTriggers.WithoutAt | lk_flow/plugin/time_trigger.py:56 | popping an entry removes it from the insertion order and keeps the order of the rest |
| TimeTriggers.ShouldStart | lk_flow/plugin/time_trigger.py:103-108 | true exactly when now >= the entry; a missing entry raises KeyError and a non-time `now` raises TypeError |
| TimeTriggers.WorkKeys | lk_flow/plugin/time_trigger.py:42-52 | a heartbeat never adds or removes a schedule entry |
| TimeTriggers.WorkEmits | lk_flow/plugin/time_trigger.py:42-52 | the sweep only appends calls |
| TimeTriggers.RunningNotStarted | lk_flow/plugin/time_trigger.py:44-45 | a task that is running is never started by the sweep |
| TimeTriggers.WorkOthers | lk_flow/plugin/time_trigger.py:42-52 | names the sweep does not visit keep their entry and are not started |
| TimeTriggers.WorkEntry | lk_flow/plugin/time_trigger.py:42-52 | in a sweep without error a task is started exactly when it is due (not running, entry <= now), and then its entry is the next fire time of its cron expression; otherwise its entry is unchanged |
| TimeTriggers.TimeTrigger.AddTask | lk_flow/plugin/time_trigger.py:81-91 | the schedule becomes AddOne of the old schedule, and the insertion order gains the name last when it is new |
| TimeTriggers.TimeTrigger.AddTaskEventListener | lk_flow/plugin/time_trigger.py:58-79 | TASK_ADD adds the event's task; an event without a task raises and changes nothing |
| TimeTriggers.TimeTrigger.DeleteTaskEventListener | lk_flow/plugin/time_trigger.py:54-56 | TASK_DELETE leaves the schedule Dropped gives, and drops that name from the insertion order |
| TimeTriggers.TimeTrigger.InitTimeTrigger | lk_flow/plugin/time_trigger.py:93-101 | asks the context for all processes once and adds each config in turn, in that order |
| TimeTriggers.TimeTrigger.SetupMod | lk_flow/plugin/time_trigger.py:18-29 | subscribes `_work` to HEARTBEAT, seeds the schedule from the registered processes and, only when that returns, subscribes the TASK_ADD and TASK_DELETE listeners |
| TimeTriggers.TimeTrigger.Work | lk_flow/plugin/time_trigger.py:31-52 | the loop over the schedule in insertion order computes exactly WorkOver over that order: the calls made, the new schedule and the error that stopped it |
| LegacyTriggers.LegacyTrigger.SetupMod | lk_flow/plugin/trigger.py:46-64 | without SQLALCHEMY_DATABASE_URI in the plugin config nothing is subscribed; with it, `init_time_trigger` on SYSTEM_SETUP and `work` on HEARTBEAT |
| LegacyTriggers.FreshNames | lk_flow/plugin/trigger.py:92-98 | the loaded rows carry exactly the row names not registered before, each once |
| LegacyTriggers.InitAsWritten | lk_flow/plugin/trigger.py:86-98 | as written, the loop raises on the first row of a non-empty table, because line 93 tests a Task against the name keys |
| LegacyTriggers.AsWrittenLoadsNothing | lk_flow/plugin/trigger.py:93 | a table with a new row is rejected as written, although the intended loop would load that row |
| LegacyTriggers.LegacyTrigger.InitTimeTrigger | lk_flow/plugin/trigger.py:85-105 | a missing table raises RuntimeError before any change. Each row whose name is new gets one sleeping manager under its name in both PROCESS_ALL and PROCESS_SLEEPING; no other key appears, and existing entries of both maps are kept. Scheduled rows get the next fire time, new names going last in the schedule's insertion order. With the table present, the error is exactly LoadError of the fresh rows: that of the first fresh row whose manager or fire time fails |
| LegacyTriggers.LegacyTrigger.LoadRows | lk_flow/plugin/trigger.py:92-103 | the loop over the rows keeps the earlier registrations; its error is LoadError of the fresh rows, and when it ends without error the loaded rows are exactly the fresh ones and the schedule and its order are AddEach and OrderEach of them |
| LegacyTriggers.BuildError | lk_flow/plugin/trigger.py:96 | `SubProcess(task)` fails exactly when formatting the stdout or the stderr log path fails, with the stdout error first |
| LegacyTriggers.RowError | lk_flow/plugin/trigger.py:96-103 | a row loads exactly when its manager builds and, for a row with a cron expression, its next fire time is computed; a build error comes before a cron error |
| LegacyTriggers.LoadError | lk_flow/plugin/trigger.py:92-103 | the loop over loaded rows ends without error exactly when every row loads |
| LegacyTriggers.LoadErrorFirst | lk_flow/plugin/trigger.py:92-103 | a failed load reports the error of a row all of whose predecessors load |
| LegacyTriggers.LoadErrorAppend | lk_flow/plugin/trigger.py:92-103 | rows that all load before others leave the error to the others |
| LegacyTriggers.LegacyTrigger.Build | lk_flow/plugin/trigger.py:96 | a fresh sleeping manager of the row's config, no pid, or exactly BuildError's error |
| LegacyTriggers.LegacyTrigger.RegisterRow | lk_flow/plugin/trigger.py:96-98 | one manager is shared by PROCESS_ALL and PROCESS_SLEEPING under the task's name |
| LegacyTriggers.LegacyTrigger.ScheduleRow | lk_flow/plugin/trigger.py:100-103 | a loaded row's schedule entry and insertion order are those AddEach and OrderEach give for one more row; it fails exactly when the row has a cron expression whose next fire time fails, with that error |
| LegacyTriggers.Decide | lk_flow/plugin/trigger.py:75-79 | a running task is passed over; a task missing from PROCESS_ALL raises KeyError; otherwise it is started exactly when `should_start` says it is due (entry <= now) |
| LegacyTriggers.LegacyTrigger.Launch | lk_flow/plugin/trigger.py:80 | `run` of a name that is not running pops it from SLEEPING, or else from STOPPED, and changes no other registry entry; its result is Contexts.RunResult |
| LegacyTriggers.LegacyTrigger.VisitAll | lk_flow/plugin/trigger.py:73-83 | the loop ends with the schedule, the started names in order and the error of WorkOver over the names against the context it started from; every visited task that is not running was started exactly when due and has its new entry; no entry is added or removed; exactly the started names left SLEEPING, or else STOPPED |
| LegacyTriggers.WorkOverInOrder | lk_flow/plugin/trigger.py:73-81 | a sweep only appends to the started names, and what it appends is a selection of the visited names in visiting order |
| LegacyTriggers.LegacyTrigger.Work | lk_flow/plugin/trigger.py:70-83 | each entry is visited once in insertion order and running tasks are skipped. A task is started exactly when due (entry <= now), and its entry then becomes the next fire time of its config's cron expression. Exactly the started names leave SLEEPING, or else STOPPED. Other entries are unchanged, and no entry is added or removed. The schedule, the started names and the error are those of WorkOver over the insertion order: the first Decide, `run` or croniter error ends the loop, with the entries set before it kept |
| Mods.DiscoveredMembers | lk_flow/core/mod.py:80-98 | a plugin directory registers exactly the ModAbstraction subclasses, other than the one named ModAbstraction, found in its `.py` files |
| Mods.RegisterUnique | lk_flow/core/mod.py:96-98 | plugin names stay unique in `_sub_class_map` |
| Mods.RegisterAll | lk_flow/core/mod.py:90-98 | loading succeeds exactly when the discovered names are new and distinct, and then appends them all in discovery order |
| Mods.RegisterStops | lk_flow/core/mod.py:96-97 | a duplicate name raises KeyError at the first clash, keeping the registrations before it |
| Mods.BootSpec | lk_flow/core/mod.py:108-121 | a successful load registers the system plugins and then, when `mod_dir` is truthy, the user plugins |
| Mods.BootClash | lk_flow/core/mod.py:96-105 | a system plugin directory with two registrations of one name makes every load raise KeyError |
| Mods.ShippedPluginsClash | lk_flow/plugin/trigger.py:33 | the shipped plugin directory, where `trigger.py` and `time_trigger.py` both define TimeTrigger and `__init__.py` imports a third, makes `loading_plugin` raise KeyError |
| Mods.ModLoader.LoadPlugin | lk_flow/core/mod.py:80-99 | the loops over files and namespaces compute exactly Register of the discovered plugins |
| Mods.ModLoader.LoadingPlugin | lk_flow/core/mod.py:108-121 | already loaded: nothing changes; otherwise system then user plugins are loaded, and the flag is set exactly when loading succeeds |
| Mods.ActiveMembers | lk_flow/core/mod.py:46-50 | the drivers visit exactly the plugins that have a config whose `enable` is absent or truthy |
| Mods.PlanShape | lk_flow/core/mod.py:51-53 | every plugin is registered with `add_mod_map` right before its classmethod is called |
| Mods.DrivenSpec | lk_flow/core/mod.py:43-68 | the drivers make a prefix of the planned calls in map order. They finish without error exactly when every plugin has a config and no classmethod raises, and then they made every planned call |
| Mods.DrivenKeyError | lk_flow/core/mod.py:47 | a KeyError names a registered plugin without a config |
| Mods.ModLoader.ModInit | lk_flow/core/mod.py:43-54 | `mod_init` records exactly Driven's calls for `init_mod` and raises its error |
| Mods.ModLoader.SetupMod | lk_flow/core/mod.py:57-68 | `setup_mod` records exactly Driven's calls for `setup_mod` and raises its error |
| Mods.TornSpec | lk_flow/core/mod.py:71-77 | teardown calls a prefix of every plugin's `teardown_mod` in order, and all of them exactly when none raises |
| Mods.ModLoader.TeardownMod | lk_flow/core/mod.py:71-77 | `teardown_mod` asks for the mod map once, then calls exactly Torn's calls |
| Mods.OverlayKeys | lk_flow/core/mod.py:133-135 | the merged command map has exactly the keys of the plugins' maps |
| Mods.OverlayLast | lk_flow/core/mod.py:135 | a later plugin's command overrides an earlier one of the same name |
| Mods.ModLoader.LoadingPluginCommand | lk_flow/core/mod.py:124-138 | loads the plugins, then merges the command maps of the enabled ones in map order; a missing config raises KeyError; the flag is set on success |

## Left out

- I/O and concurrency: logging, `asyncio` scheduling, the log-stream coroutines, `os.chdir`, `os.makedirs`, `os.kill`/`killpg`/`getpgid`, and `SubProcess.__del__`. Start and stop are single atomic steps, and a watcher runs when the caller invokes `OnExit`.
- The database and engine of `plugin/trigger.py` (`init_mod`, `TaskOrm`, `create_engine`, sessions): reduced to the existence of the `task` table and its rows.
- croniter, `datetime.now()` and the module import machinery are parameters, as described above.
- `teardown_mod` of the hook and legacy cron plugins is `pass`; it has no member.
- Reading a nested defaultdict inserts empty entries; the table treats an absent entry as the empty list, which is observationally the same for every operation modelled.
- The bus decides a publish from the `verdict` oracle: which listeners it reaches and what it raises. What a listener does to other state is a separate call of that plugin's method, not run from inside the publish.
- The RuntimeError Python raises when a dict changes size during iteration cannot occur in the modelled loops: `_work` and `work` only reassign existing keys.
- `setup_mod` of the plugins obtains the context through `Context.get_instance()`; the model passes the context (GetInstance models the lookup itself).
- Contexts.Context.Run assumes `run` is called where no event loop is running. Its only caller in the repository is the legacy plugin's HEARTBEAT listener (`plugin/trigger.py:80`), which `main.py` reaches from the running `start_server` coroutine. There `loop.run_until_complete` raises RuntimeError ("This event loop is already running") after the manager was popped and TASK_PRE_START published, and the manager is never started. LegacyTriggers.LegacyTrigger.Work inherits the same assumption. The event loop is not part of this model.
- LegacyTriggers.LegacyTrigger.Work: states the sweep (the schedule, the started names in order, the error) and which managers left SLEEPING/STOPPED, not each started manager's new pid and state, which is Contexts.Context.Run's contract for one call.
- LegacyTriggers.LegacyTrigger.InitTimeTrigger: the loaded managers are stated to be sleeping managers of the row's config, not that each is a new object.
- StateCheck (Contexts.Context.StateCheck) visits RUNNING in an order the model chooses, not in insertion order: nothing in the core inserts into RUNNING (`run` never does), so there is no insertion order to follow. With several exited managers and a raising exit listener, which ones moved before the exception is therefore not determined.
- FromValue (Events.FromValue) runs over the completed sixteen-member enum; over the enum as declared, the eight added values are a ValueError (Events.FromValueAsWritten, Events.UndeclaredValues, "## Findings").
- ParseToken (HookTables.ParseToken) lower-cases with ASCII rules only (PyStr.Lower). Python's `str.lower` also maps other characters, e.g. KELVIN SIGN U+212A to `k`, so the token `TASK_FINISH__job`, whose fourth character is U+212A, parses in Python but is a ValueError here. It also accepts the eight event values the enum as declared lacks, such as `HEARTBEAT__job` ("## Findings").
- New (Subprocesses.SubProcess.New) reads the completed Task's log fields; as written the constructor raises AttributeError (Subprocesses.NewAsWritten, "## Findings").
- NewTask (Tasks.NewTask) also gives the two log fields the completed Task adds, both None.
- Mods.ModLoader.TeardownMod: `get_mod_map` is not defined in `context.py`; its answer is taken to be (name, class) pairs.
- Mods.ModLoader.ModInit: what `init_mod` / `setup_mod` of a plugin does is not run; only the call and whether it raised are modelled.
- Subprocesses.FormatLogFile: `os.path.abspath` normalisation (`..`, `.`) of a relative path is not modelled; the path is joined under the log directory as given.
- Subprocesses.SubProcess.Start: the watcher's first steps (state running, start time) happen at once with the spawn, because the event loop is not modelled; `os.chdir` into the task's directory during preparation is the supervisor's own working directory and is not tracked.
- `ModAbstraction.init_mod`'s default body only logs; `get_commands` returning None is one of the oracle's answers.

## Findings

| source | as written | input that shows it | evidently intended | confidence | as-written member | corrected member |
|---|---|---|---|---|---|---|
| lk_flow/core/context.py:76 | `for name, subprocess in self.PROCESS_RUNNING.copy()` iterates the keys and unpacks each string | any non-empty PROCESS_RUNNING, e.g. one entry "job" (ValueError) or "ab" (AttributeError on `exit_code`) | `.items()`: move each exited manager from RUNNING to STOPPED and publish its exit event | not executed | Contexts.Context.StateCheckAsWritten | Contexts.Context.StateCheck |
| lk_flow/plugin/trigger.py:93 | `if task in cls.context.PROCESS_ALL` tests a Task against the name keys | any table with one row: the membership test raises TypeError (an unhashable model), so no row is ever loaded | `task.name in PROCESS_ALL`: skip rows whose name is registered and load the others | not executed | LegacyTriggers.AsWrittenLoadsNothing | LegacyTriggers.LegacyTrigger.InitTimeTrigger |
| lk_flow/core/event.py:10-22 | the enum declares eight members; HEARTBEAT, SYSTEM_CLOSE and six more used by `context.py` and the plugins are missing | `Context(config)`: `EVENT.SYSTEM_CLOSE` raises AttributeError; `EVENT("heartbeat")` raises ValueError | all sixteen members, each valued by its lower-case name | not executed | Contexts.InitAsWritten | Contexts.Context.constructor |
| lk_flow/models/subprocess.py:42-47 | the constructor reads `config.stdout_logfile` and `config.stderr_logfile`, which Task does not declare | `SubProcess(Task(name="job"))` raises AttributeError | optional log paths defaulting to None, so the default path `<log dir>/job/job_out.log` is used | not executed | Subprocesses.NewAsWritten | Subprocesses.SubProcess.New |
| lk_flow/plugin/trigger.py:33 | `trigger.py` and `time_trigger.py` both define a ModAbstraction subclass named TimeTrigger, and both live in the system plugin directory | `loading_plugin(None)`: the second TimeTrigger met raises KeyError, so no plugin map is ever complete | distinct plugin names, so that every system plugin registers | not executed | Mods.ShippedPluginsClash | Mods.RegisterAll |
