/** lk_flow/core/event.py: the EVENT vocabulary, the Event payload and the
    synchronous EventBus. */
module Events {
  import opened Outcomes
  import opened Tasks

  /** EVENT. The enum in event.py declares the first eight members; the other
      eight are used by context.py, main.py and the plugins, and are added
      here with the same naming rule: the value is the lower-case name. */
  datatype EventKind =
    | PostSystemInit | TaskReady | TaskPreStart | TaskRunning | TaskFinish
    | TaskAfterFinish | TaskRunningError | TaskFinishError
    | Heartbeat | SystemSetup | SystemClose | ExecSystemClose | SystemTeardown
    | TaskAdd | TaskDelete | TaskStop

  /** The enum member's string value. */
  function Value(k: EventKind): string
  {
    match k
    case PostSystemInit => "post_system_init"
    case TaskReady => "task_ready"
    case TaskPreStart => "task_pre_start"
    case TaskRunning => "task_running"
    case TaskFinish => "task_finish"
    case TaskAfterFinish => "task_after_finish"
    case TaskRunningError => "task_running_error"
    case TaskFinishError => "task_finish_error"
    case Heartbeat => "heartbeat"
    case SystemSetup => "system_setup"
    case SystemClose => "system_close"
    case ExecSystemClose => "exec_system_close"
    case SystemTeardown => "system_teardown"
    case TaskAdd => "task_add"
    case TaskDelete => "task_delete"
    case TaskStop => "task_stop"
  }

  /** `EVENT(s)`: lookup by value; an unknown value has no member
      (Python raises ValueError). */
  function FromValue(s: string): (r: Option<EventKind>)
    ensures r.Some? ==> Value(r.value) == s
    ensures r.None? ==> forall k :: Value(k) != s
  {
    if s == "post_system_init" then Some(PostSystemInit)
    else if s == "task_ready" then Some(TaskReady)
    else if s == "task_pre_start" then Some(TaskPreStart)
    else if s == "task_running" then Some(TaskRunning)
    else if s == "task_finish" then Some(TaskFinish)
    else if s == "task_after_finish" then Some(TaskAfterFinish)
    else if s == "task_running_error" then Some(TaskRunningError)
    else if s == "task_finish_error" then Some(TaskFinishError)
    else if s == "heartbeat" then Some(Heartbeat)
    else if s == "system_setup" then Some(SystemSetup)
    else if s == "system_close" then Some(SystemClose)
    else if s == "exec_system_close" then Some(ExecSystemClose)
    else if s == "system_teardown" then Some(SystemTeardown)
    else if s == "task_add" then Some(TaskAdd)
    else if s == "task_delete" then Some(TaskDelete)
    else if s == "task_stop" then Some(TaskStop)
    else None
  }

  /** Every member is found again from its value. */
  lemma FromValueValue(k: EventKind)
    ensures FromValue(Value(k)) == Some(k)
  {
  }

  /** The members the enum in event.py itself declares. */
  predicate DeclaredInSource(k: EventKind)
  {
    k.PostSystemInit? || k.TaskReady? || k.TaskPreStart? || k.TaskRunning? || k.TaskFinish?
    || k.TaskAfterFinish? || k.TaskRunningError? || k.TaskFinishError?
  }

  /** `EVENT(s)` over the enum as event.py declares it: only the eight
      declared values are found. */
  function FromValueAsWritten(s: string): (r: Option<EventKind>)
    ensures r.Some? <==> FromValue(s).Some? && DeclaredInSource(FromValue(s).value)
    ensures r.Some? ==> r == FromValue(s)
  {
    match FromValue(s)
    case Some(k) => if DeclaredInSource(k) then Some(k) else None
    case None => None
  }

  /** The values that context.py, main.py and the plugins use but the enum
      as written lacks: each of them fails the as-written lookup. */
  lemma UndeclaredValues()
    ensures forall k :: !DeclaredInSource(k) ==> FromValueAsWritten(Value(k)).None? && FromValue(Value(k)) == Some(k)
    ensures FromValueAsWritten("heartbeat").None? && FromValueAsWritten("system_close").None?
  {
    forall k | !DeclaredInSource(k)
      ensures FromValueAsWritten(Value(k)).None? && FromValue(Value(k)) == Some(k)
    {
      FromValueValue(k);
    }
    assert Value(Heartbeat) == "heartbeat" && Value(SystemClose) == "system_close";
  }

  /** The values of keyword attributes that the core reads back. */
  datatype Attr =
    | Text(text: string)
    | Time(time: int)
    | TaskValue(task: Task)
    | KindValue(kind: EventKind)
    | Opaque(id: nat)  // any other (hashable) Python object

  /** Using an attribute value as a dict key: a string is looked up as
      itself, any other hashable value matches no string key, and a Task
      (a pydantic model, which defines `__eq__` but no `__hash__`) raises
      TypeError. */
  function AsKey(a: Attr): (r: Result<Option<string>>)
    ensures r.Err? <==> a.TaskValue?
    ensures r.Err? ==> r.error == TypeError("unhashable type: 'Task'")
    ensures r.Ok? && r.value.Some? <==> a.Text?
    ensures a.Text? ==> r == Ok(Some(a.text))
  {
    match a
    case Text(s) => Ok(Some(s))
    case TaskValue(_) => Err(TypeError("unhashable type: 'Task'"))
    case _ => Ok(None)
  }

  /** An Event: its type and the keyword attributes given at construction.
      `attrs` never holds "event_type"; that attribute is `eventType`. */
  datatype Event = Event(eventType: EventKind, attrs: map<string, Attr>)

  /** `getattr(event, name)` when it exists. */
  function Get(e: Event, name: string): Option<Attr>
  {
    if name == "event_type" then Some(KindValue(e.eventType))
    else if name in e.attrs then Some(e.attrs[name])
    else None
  }

  /** `event.name`, raising AttributeError when it was not given. */
  function Attribute(e: Event, name: string): (r: Result<Attr>)
    ensures r.Ok? <==> Get(e, name).Some?
    ensures r.Ok? ==> Some(r.value) == Get(e, name)
    ensures r.Err? ==> r.error == AttributeError(name)
  {
    match Get(e, name)
    case Some(a) => Ok(a)
    case None => Err(AttributeError(name))
  }

  /** `task: Task = event.task` followed by a read of the task's `field`:
      AttributeError for a missing `task`, and for a `task` that is not a
      Task, the one on `field`. */
  function TaskOf(e: Event, field: string): (r: Result<Task>)
    ensures r.Ok? <==> Get(e, "task").Some? && Get(e, "task").value.TaskValue?
    ensures r.Ok? ==> Get(e, "task") == Some(TaskValue(r.value))
    ensures r.Err? ==> r.error == (if Get(e, "task").None? then AttributeError("task") else AttributeError(field))
  {
    match Attribute(e, "task")
    case Err(err) => Err(err)
    case Ok(TaskValue(t)) => Ok(t)
    case Ok(_) => Err(AttributeError(field))
  }

  /** `Event(event_type, **kwargs)`: the keyword attributes plus
      `event_type`, which wins over a keyword of the same name. */
  function NewEvent(k: EventKind, kwargs: map<string, Attr>): (e: Event)
    ensures Get(e, "event_type") == Some(KindValue(k))
    ensures forall a :: a != "event_type" ==>
      Get(e, a) == (if a in kwargs then Some(kwargs[a]) else None)
  {
    Event(k, kwargs - {"event_type"})
  }

  /** Every listener the core and its built-in plugins subscribe, plus
      listeners of other plugins, known only by an identity. */
  datatype Handler =
    | CloseLoop | StateCheck
    | HookProcessSetAdd | HookTaskAdd | HookTaskRemove | HookTaskTrigger
    | TimeWork | TimeAddTask | TimeDeleteTask
    | LegacyInit | LegacyWork
    | External(id: nat)

  /** What a handler does with an event: it returns a truthy (`Ok(true)`)
      or falsy (`Ok(false)`) value, or raises. */
  type Verdict = (Handler, Event) -> Result<bool>

  /** A handler ends the publish when it returns a truthy value or raises:
      `publish_event` has no try, so the exception leaves it. */
  predicate Stops(verdict: Verdict, h: Handler, e: Event)
  {
    verdict(h, e) != Ok(false)
  }

  /** The handlers one publish of `e` invokes: registration order, stopping
      after the first that does not return a falsy value. */
  function Invoked(hs: seq<Handler>, e: Event, verdict: Verdict): seq<Handler>
  {
    if hs == [] then []
    else if Stops(verdict, hs[0], e) then [hs[0]]
    else [hs[0]] + Invoked(hs[1..], e, verdict)
  }

  /** What one publish of `e` raises: the exception of the first handler
      that raises before any handler returns a truthy value. */
  function Raised(hs: seq<Handler>, e: Event, verdict: Verdict): Result<()>
  {
    if hs == [] then Ok(())
    else if verdict(hs[0], e).Err? then Err(verdict(hs[0], e).error)
    else if verdict(hs[0], e) == Ok(false) then Raised(hs[1..], e, verdict)
    else Ok(())
  }

  /** What publishing invokes: a prefix of the registered handlers in which
      every handler but the last returned falsy, and which stops short of
      the whole list only at a handler that returned truthy or raised. */
  lemma {:induction false} InvokedIsStoppingPrefix(hs: seq<Handler>, e: Event, verdict: Verdict)
    ensures Invoked(hs, e, verdict) <= hs
    ensures forall i :: 0 <= i < |Invoked(hs, e, verdict)| - 1 ==> verdict(Invoked(hs, e, verdict)[i], e) == Ok(false)
    ensures Invoked(hs, e, verdict) == hs || Stops(verdict, Invoked(hs, e, verdict)[|Invoked(hs, e, verdict)| - 1], e)
  {
    if hs != [] && !Stops(verdict, hs[0], e) {
      InvokedIsStoppingPrefix(hs[1..], e, verdict);
      var rest := Invoked(hs[1..], e, verdict);
      assert Invoked(hs, e, verdict) == [hs[0]] + rest;
      assert hs == [hs[0]] + hs[1..];
      if rest != [] {
        assert Invoked(hs, e, verdict)[|Invoked(hs, e, verdict)| - 1] == rest[|rest| - 1];
      }
    }
  }

  /** A publish raises exactly when the last handler it reaches raised, and
      then it raises that handler's exception. */
  lemma {:induction false} RaisedByLastInvoked(hs: seq<Handler>, e: Event, verdict: Verdict)
    ensures var inv := Invoked(hs, e, verdict);
      Raised(hs, e, verdict) ==
        if inv != [] && verdict(inv[|inv| - 1], e).Err? then Err(verdict(inv[|inv| - 1], e).error) else Ok(())
  {
    if hs != [] && !Stops(verdict, hs[0], e) {
      RaisedByLastInvoked(hs[1..], e, verdict);
      var rest := Invoked(hs[1..], e, verdict);
      assert Invoked(hs, e, verdict) == [hs[0]] + rest;
      if rest != [] {
        assert Invoked(hs, e, verdict)[|Invoked(hs, e, verdict)| - 1] == rest[|rest| - 1];
      }
    } else if hs != [] {
      assert Invoked(hs, e, verdict) == [hs[0]];
    }
  }

  /** With every handler returning falsy, every registered handler runs
      exactly once and nothing is raised. */
  lemma {:induction false} InvokedAllWhenNoneStops(hs: seq<Handler>, e: Event, verdict: Verdict)
    requires forall i :: 0 <= i < |hs| ==> verdict(hs[i], e) == Ok(false)
    ensures Invoked(hs, e, verdict) == hs
    ensures Raised(hs, e, verdict) == Ok(())
  {
    if hs != [] {
      InvokedAllWhenNoneStops(hs[1..], e, verdict);
      assert hs == [hs[0]] + hs[1..];
    }
  }

  /** The invoked list ends exactly at the first handler that does not
      return falsy. */
  lemma {:induction false} InvokedUpToFirstStop(hs: seq<Handler>, e: Event, verdict: Verdict, k: nat)
    requires k < |hs| && Stops(verdict, hs[k], e)
    requires forall i :: 0 <= i < k ==> !Stops(verdict, hs[i], e)
    ensures Invoked(hs, e, verdict) == hs[..k + 1]
  {
    if k > 0 {
      InvokedUpToFirstStop(hs[1..], e, verdict, k - 1);
      assert hs[..k + 1] == [hs[0]] + hs[1..][..k];
    }
  }

  /** One publish: the event and the handlers it reached. */
  datatype Delivery = Delivery(event: Event, invoked: seq<Handler>)

  /** The events of a sequence of publishes, in order. */
  function EventsOf(ds: seq<Delivery>): (es: seq<Event>)
    ensures |es| == |ds|
    ensures forall i :: 0 <= i < |ds| ==> es[i] == ds[i].event
  {
    if ds == [] then [] else [ds[0].event] + EventsOf(ds[1..])
  }

  lemma EventsOfAppend(a: seq<Delivery>, b: seq<Delivery>)
    ensures EventsOf(a + b) == EventsOf(a) + EventsOf(b)
  {
    assert forall i :: 0 <= i < |a + b| ==> EventsOf(a + b)[i] == (EventsOf(a) + EventsOf(b))[i];
  }

  /** The handlers registered for `k` in a listener map; an absent key
      reads as []. */
  function Listening(listeners: map<EventKind, seq<Handler>>, k: EventKind): seq<Handler>
  {
    if k in listeners then listeners[k] else []
  }

  /** The loop of `publish_event` over the handlers `hs` of `e`'s type. */
  method Reach(hs: seq<Handler>, e: Event, verdict: Verdict) returns (r: Result<()>, invoked: seq<Handler>)
    ensures invoked == Invoked(hs, e, verdict)
    ensures r == Raised(hs, e, verdict)
  {
    invoked := [];
    var i := 0;
    assert hs[0..] == hs;
    while i < |hs|
      invariant 0 <= i <= |hs|
      invariant invoked + Invoked(hs[i..], e, verdict) == Invoked(hs, e, verdict)
      invariant Raised(hs[i..], e, verdict) == Raised(hs, e, verdict)
    {
      assert hs[i..][0] == hs[i] && hs[i..][1..] == hs[i + 1..];
      invoked := invoked + [hs[i]];
      var v := verdict(hs[i], e);
      if v != Ok(false) {
        r := if v.Err? then Err(v.error) else Ok(());
        return;
      }
      i := i + 1;
    }
    r := Ok(());
  }

  /** EventBus: `_listeners` is a defaultdict(list) from event type to
      handlers in subscription order. */
  class EventBus {
    var listeners: map<EventKind, seq<Handler>>
    /** Every publish so far, in order. */
    ghost var published: seq<Delivery>

    /** The handlers registered for `k`; an absent key reads as []. */
    function Handlers(k: EventKind): seq<Handler>
      reads this
    {
      Listening(listeners, k)
    }

    constructor ()
      ensures listeners == map[] && published == []
    {
      listeners := map[];
      published := [];
    }

    /** `add_listener`: append `h` to the list of `k`; no other list changes. */
    method AddListener(k: EventKind, h: Handler)
      modifies this
      ensures Handlers(k) == old(Handlers(k)) + [h]
      ensures forall k' :: k' != k ==> Handlers(k') == old(Handlers(k'))
      ensures listeners == old(listeners)[k := old(Handlers(k)) + [h]]
      ensures published == old(published)
    {
      listeners := listeners[k := Handlers(k) + [h]];
    }

    /** `publish_event`: call the handlers of `e.eventType` in order, stopping
        after the first that returns a truthy value or raises (`verdict`);
        what that handler raises leaves `publish_event`. Reading the
        defaultdict inserts an empty list for an unseen type. */
    method Publish(e: Event, verdict: Verdict) returns (r: Result<()>, invoked: seq<Handler>)
      modifies this
      ensures invoked == Invoked(old(Handlers(e.eventType)), e, verdict)
      ensures r == Raised(old(Handlers(e.eventType)), e, verdict)
      ensures forall k :: Handlers(k) == old(Handlers(k))
      ensures listeners.Keys == old(listeners.Keys) + {e.eventType}
      ensures published == old(published) + [Delivery(e, invoked)]
      ensures EventsOf(published) == EventsOf(old(published)) + [e]
    {
      var hs := Handlers(e.eventType);
      if e.eventType !in listeners {
        listeners := listeners[e.eventType := []];
      }
      r, invoked := Reach(hs, e, verdict);
      EventsOfAppend(published, [Delivery(e, invoked)]);
      published := published + [Delivery(e, invoked)];
    }
  }
}
