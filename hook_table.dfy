/** The token language of lk_flow/plugin/hook_trigger.py and the loops over
    it, on the value of the `hook_listeners` table: a task's
    `trigger_events` is a whitespace-separated list of tokens
    `EVENT_NAME__hook_task`, each subscribing the task to the event
    EVENT_NAME of the task `hook_task`. */
module HookTables {
  import opened Outcomes
  import opened Tasks
  import opened PyStr
  import opened Events

  type Table = map<EventKind, map<string, seq<string>>>

  /** `hook_listeners[k][h]`: an absent entry reads as []. */
  function Listed(t: Table, k: EventKind, h: string): seq<string>
  {
    if k in t && h in t[k] then t[k][h] else []
  }

  /** Store `l` under `(k, h)`; every other list stays. */
  function Put(t: Table, k: EventKind, h: string, l: seq<string>): (t': Table)
    ensures Listed(t', k, h) == l
    ensures forall k', h' :: (k' != k || h' != h) ==> Listed(t', k', h') == Listed(t, k', h')
  {
    t[k := (if k in t then t[k] else map[])[h := l]]
  }

  const Sep := "__"

  /** `event_name, hook = token.split("__")` then `EVENT(event_name.lower())`:
      a ValueError unless the token has exactly one "__" and the part
      before it, lower-cased, is the value of an EVENT member. */
  function ParseToken(tok: string): (r: Result<(EventKind, string)>)
    ensures r.Err? ==> r.error.ValueError?
    ensures r.Ok? ==> exists p :: tok == p + Sep + r.value.1 && Lower(p) == Value(r.value.0)
    ensures r.Ok? ==> forall i :: 0 <= i < |r.value.1| ==> !StartsAt(r.value.1, i, Sep)
  {
    var parts := SplitOn(tok, Sep);
    if |parts| != 2 then Err(ValueError("expected 2 values to unpack"))
    else match FromValue(Lower(parts[0]))
      case None => Err(ValueError("is not a valid EVENT"))
      case Some(k) =>
        SplitOnJoin(tok, Sep);
        SplitOnLast(tok, Sep);
        assert tok == parts[0] + Sep + parts[1];
        Ok((k, parts[1]))
  }

  /** No "__" starts inside `a`, even one that runs on into what follows:
      every '_' of `a` is followed by a character of `a` other than '_'. */
  predicate SingleUnderscores(a: string)
  {
    forall i :: 0 <= i < |a| && a[i] == '_' ==> i + 1 < |a| && a[i + 1] != '_'
  }

  lemma ValueSingleUnderscores(k: EventKind)
    ensures SingleUnderscores(Value(k))
  {
    if k in {PostSystemInit, TaskReady, TaskPreStart, TaskRunning, TaskFinish, TaskAfterFinish, TaskRunningError, TaskFinishError} {
      TaskValuesSingleUnderscores(k);
    } else {
      SystemValuesSingleUnderscores(k);
    }
  }

  lemma TaskValuesSingleUnderscores(k: EventKind)
    requires k in {PostSystemInit, TaskReady, TaskPreStart, TaskRunning, TaskFinish, TaskAfterFinish, TaskRunningError, TaskFinishError}
    ensures SingleUnderscores(Value(k))
  {
    var v := Value(k);
    forall i | 0 <= i < |v| && v[i] == '_' ensures i + 1 < |v| && v[i + 1] != '_' {
      match k
      case PostSystemInit =>
      case TaskReady =>
      case TaskPreStart =>
      case TaskRunning =>
      case TaskFinish =>
      case TaskAfterFinish =>
      case TaskRunningError =>
      case TaskFinishError =>
    }
  }

  lemma SystemValuesSingleUnderscores(k: EventKind)
    requires k in {Heartbeat, SystemSetup, SystemClose, ExecSystemClose, SystemTeardown, TaskAdd, TaskDelete, TaskStop}
    ensures SingleUnderscores(Value(k))
  {
    var v := Value(k);
    forall i | 0 <= i < |v| && v[i] == '_' ensures i + 1 < |v| && v[i + 1] != '_' {
      match k
      case Heartbeat =>
      case SystemSetup =>
      case SystemClose =>
      case ExecSystemClose =>
      case SystemTeardown =>
      case TaskAdd =>
      case TaskDelete =>
      case TaskStop =>
    }
  }

  /** Lower-casing keeps every '_' and makes none. */
  lemma LowerUnderscores(p: string)
    ensures SingleUnderscores(Lower(p)) ==> SingleUnderscores(p)
  {
    forall i | 0 <= i < |p| ensures p[i] == '_' <==> Lower(p)[i] == '_' {
    }
  }

  /** No "__" starts inside `p` in `p + "__" + h`. */
  lemma NoSepInside(p: string, h: string)
    requires SingleUnderscores(p)
    ensures forall i :: 0 <= i < |p| ==> !StartsAt(p + Sep + h, i, Sep)
  {
    var s := p + Sep + h;
    forall i | 0 <= i < |p| ensures !StartsAt(s, i, Sep) {
      assert s[i] == p[i];
      if p[i] == '_' {
        assert s[i + 1] == p[i + 1];
      }
    }
  }

  /** The token format round-trips: any spelling `p` of an event name that
      lower-cases to its value, "__", and a hook name free of "__". */
  lemma ParseTokenOf(k: EventKind, p: string, h: string)
    requires Lower(p) == Value(k)
    requires forall i :: 0 <= i < |h| ==> !StartsAt(h, i, Sep)
    ensures ParseToken(p + Sep + h) == Ok((k, h))
  {
    ValueSingleUnderscores(k);
    LowerUnderscores(p);
    NoSepInside(p, h);
    SplitOnFirst(p, h, Sep);
    SplitOnAbsent(h, Sep);
    assert SplitOn(p + Sep + h, Sep) == [p, h];
    FromValueValue(k);
  }

  /** What one of the hook loops leaves: the table, and the error that
      stopped it, if any. */
  datatype Outcome = Outcome(table: Table, error: Option<Error>)

  /** The tokens of `trigger_events`; None and "" have none. */
  function Tokens(triggerEvents: Option<string>): seq<string>
  {
    if Truthy(triggerEvents) then SplitWs(triggerEvents.value) else []
  }

  /** The outcome of parsing one token. */
  type Parse = Result<(EventKind, string)>

  /** The parse of each token, in order. */
  function Parses(toks: seq<string>): (rs: seq<Parse>)
    ensures |rs| == |toks|
    ensures forall i :: 0 <= i < |toks| ==> rs[i] == ParseToken(toks[i])
  {
    seq(|toks|, i requires 0 <= i < |toks| => ParseToken(toks[i]))
  }

  /** The parsed hooks a `trigger_events` value declares. */
  function Hooks(triggerEvents: Option<string>): seq<Parse>
  {
    Parses(Tokens(triggerEvents))
  }

  /** The `add_task_hook` loop: append `name` to the list of each token in
      turn; a token that fails to parse stops the loop with its error and
      the appends before it stay. */
  function AddAll(t: Table, rs: seq<Parse>, name: string): Outcome
    decreases |rs|
  {
    if rs == [] then Outcome(t, None)
    else match rs[0]
      case Err(err) => Outcome(t, Some(err))
      case Ok((k, h)) => AddAll(AddOne(t, k, h, name), rs[1..], name)
  }

  /** The `task_hook_remove` loop: drop one occurrence of `name` from the
      list of each token in turn, when it is there; stops like AddAll. */
  function RemoveAll(t: Table, rs: seq<Parse>, name: string): Outcome
    decreases |rs|
  {
    if rs == [] then Outcome(t, None)
    else match rs[0]
      case Err(err) => Outcome(t, Some(err))
      case Ok((k, h)) => RemoveAll(RemoveOne(t, k, h, name), rs[1..], name)
  }

  /** `if name in l: l.remove(name)` for the list `(k, h)`. */
  function RemoveOne(t: Table, k: EventKind, h: string, name: string): (t': Table)
    ensures multiset(Listed(t', k, h)) == multiset(Listed(t, k, h)) - multiset{name}
    ensures forall k', h' :: (k' != k || h' != h) ==> Listed(t', k', h') == Listed(t, k', h')
  {
    if name in Listed(t, k, h) then Put(t, k, h, RemoveFirst(Listed(t, k, h), name)) else t
  }

  /** The list RemoveOne leaves is `l.remove(name)`'s, `name` there or not. */
  lemma RemoveOneList(t: Table, k: EventKind, h: string, name: string)
    ensures Listed(RemoveOne(t, k, h, name), k, h) == RemoveFirst(Listed(t, k, h), name)
  {
  }

  /** The position of the first occurrence of `x` in `l`. */
  ghost function Occurrence(l: seq<string>, x: string): (i: nat)
    requires x in l
    ensures i < |l| && l[i] == x && x !in l[..i]
  {
    if l[0] == x then 0
    else
      var j := Occurrence(l[1..], x);
      assert l[..j + 1] == [l[0]] + l[1..][..j];
      j + 1
  }

  /** `l.remove(x)`: drop the first occurrence of `x`. */
  function RemoveFirst(l: seq<string>, x: string): (r: seq<string>)
    ensures multiset(r) == multiset(l) - multiset{x}
    ensures x !in l ==> r == l
  {
    if l == [] then []
    else if l[0] == x then
      assert l == [l[0]] + l[1..];
      l[1..]
    else
      assert l == [l[0]] + l[1..];
      [l[0]] + RemoveFirst(l[1..], x)
  }

  /** What `l.remove(x)` drops is the first occurrence of `x`; the other
      elements keep their order. */
  lemma {:induction false} RemoveFirstAt(l: seq<string>, x: string)
    requires x in l
    ensures RemoveFirst(l, x) == l[..Occurrence(l, x)] + l[Occurrence(l, x) + 1..]
  {
    if l[0] == x {
      assert Occurrence(l, x) == 0 && l[..0] + l[1..] == l[1..];
    } else {
      var rest := RemoveFirst(l[1..], x);
      assert RemoveFirst(l, x) == [l[0]] + rest;
      RemoveFirstAt(l[1..], x);
      OccurrenceCons(l, x, rest);
    }
  }

  /** Past a first element other than `x`, the first occurrence is one
      further on. */
  lemma OccurrenceCons(l: seq<string>, x: string, rest: seq<string>)
    requires l != [] && l[0] != x && x in l
    requires rest == l[1..][..Occurrence(l[1..], x)] + l[1..][Occurrence(l[1..], x) + 1..]
    ensures [l[0]] + rest == l[..Occurrence(l, x)] + l[Occurrence(l, x) + 1..]
  {
    var j := Occurrence(l[1..], x);
    assert Occurrence(l, x) == j + 1;
    assert l[..j + 1] == [l[0]] + l[1..][..j];
    assert l[j + 2..] == l[1..][j + 1..];
  }

  /** `n` successive `l.remove(x)`, each when `x` is still there. */
  function RemoveFirstN(l: seq<string>, x: string, n: nat): seq<string>
    decreases n
  {
    if n == 0 then l else RemoveFirstN(RemoveFirst(l, x), x, n - 1)
  }

  /** Removing `n` times takes `n` copies of `x` out of the multiset, as
      far as there are copies. */
  lemma {:induction false} RemoveFirstNCount(l: seq<string>, x: string, n: nat)
    ensures multiset(RemoveFirstN(l, x, n)) == multiset(l) - multiset(Repeat(x, n))
    decreases n
  {
    if n == 0 {
      assert Repeat(x, 0) == [];
    } else {
      var l1 := RemoveFirst(l, x);
      RemoveFirstNCount(l1, x, n - 1);
      RepeatCount(x, n - 1, true);
      Subtracted(multiset(l), multiset(l1), multiset(RemoveFirstN(l, x, n)), multiset{x},
                 multiset(Repeat(x, n - 1)), multiset(Repeat(x, n)));
    }
  }

  /** The parses of the tokens before the first one that fails. */
  function Parsed(rs: seq<Parse>): seq<(EventKind, string)>
  {
    if rs == [] then []
    else match rs[0]
      case Err(_) => []
      case Ok(p) => [p] + Parsed(rs[1..])
  }

  /** The error of the first token that fails to parse. */
  function FirstError(rs: seq<Parse>): Option<Error>
  {
    if rs == [] then None
    else match rs[0]
      case Err(err) => Some(err)
      case Ok(_) => FirstError(rs[1..])
  }

  function Repeat(x: string, n: nat): (r: seq<string>)
    ensures |r| == n && forall i :: 0 <= i < n ==> r[i] == x
  {
    seq(n, _ => x)
  }

  lemma RepeatSucc(x: string, n: nat)
    ensures Repeat(x, n + 1) == [x] + Repeat(x, n)
  {
  }

  lemma RepeatCount(x: string, c: nat, hit: bool)
    ensures multiset(Repeat(x, c + (if hit then 1 else 0)))
      == (if hit then multiset{x} else multiset{}) + multiset(Repeat(x, c))
  {
    if hit {
      RepeatSucc(x, c);
    }
  }

  /** Taking away `a` and then `b` takes away `a + b`. */
  lemma Subtracted(m: multiset<string>, m1: multiset<string>, mf: multiset<string>,
                   a: multiset<string>, b: multiset<string>, ab: multiset<string>)
    requires m1 == m - a && mf == m1 - b && ab == a + b
    ensures mf == m - ab
  {
    assert forall x :: mf[x] == (m - ab)[x];
  }

  /** How many of the parsed tokens name `(k, h)`. */
  function Count(rs: seq<Parse>, k: EventKind, h: string): nat
  {
    multiset(Parsed(rs))[(k, h)]
  }

  lemma CountCons(rs: seq<Parse>, k: EventKind, h: string)
    requires rs != [] && rs[0].Ok?
    ensures Count(rs, k, h) == Count(rs[1..], k, h) + (if rs[0].value == (k, h) then 1 else 0)
  {
    assert Parsed(rs) == [rs[0].value] + Parsed(rs[1..]);
  }

  lemma {:induction false} AddAllError(t: Table, rs: seq<Parse>, name: string)
    ensures AddAll(t, rs, name).error == FirstError(rs)
    decreases |rs|
  {
    if rs != [] && rs[0].Ok? {
      var (k0, h0) := rs[0].value;
      AddAllError(AddOne(t, k0, h0, name), rs[1..], name);
    }
  }

  /** `hook_listeners[k][h].append(name)`. */
  function AddOne(t: Table, k: EventKind, h: string, name: string): (t': Table)
    ensures Listed(t', k, h) == Listed(t, k, h) + [name]
    ensures forall k', h' :: (k' != k || h' != h) ==> Listed(t', k', h') == Listed(t, k', h')
  {
    Put(t, k, h, Listed(t, k, h) + [name])
  }

  lemma {:induction false} AddAllList(t: Table, rs: seq<Parse>, name: string, k: EventKind, h: string)
    ensures Listed(AddAll(t, rs, name).table, k, h) == Listed(t, k, h) + Repeat(name, Count(rs, k, h))
    decreases |rs|
  {
    if rs != [] && rs[0].Ok? {
      var p := rs[0].value;
      AddAllList(AddOne(t, p.0, p.1, name), rs[1..], name, k, h);
      AddAllStep(t, rs, name, k, h);
    } else {
      assert Repeat(name, 0) == [];
    }
  }

  /** The inductive step of AddAllList. */
  lemma AddAllStep(t: Table, rs: seq<Parse>, name: string, k: EventKind, h: string)
    requires rs != [] && rs[0].Ok?
    requires var p := rs[0].value;
      var t1 := AddOne(t, p.0, p.1, name);
      Listed(AddAll(t1, rs[1..], name).table, k, h) == Listed(t1, k, h) + Repeat(name, Count(rs[1..], k, h))
    ensures Listed(AddAll(t, rs, name).table, k, h) == Listed(t, k, h) + Repeat(name, Count(rs, k, h))
  {
    var p := rs[0].value;
    var t1 := AddOne(t, p.0, p.1, name);
    AddAllCons(t, rs, name);
    CountCons(rs, k, h);
    AppendStep(Listed(t, k, h), Listed(t1, k, h), name, Count(rs[1..], k, h), p == (k, h));
  }

  lemma AddAllCons(t: Table, rs: seq<Parse>, name: string)
    requires rs != [] && rs[0].Ok?
    ensures AddAll(t, rs, name) == AddAll(AddOne(t, rs[0].value.0, rs[0].value.1, name), rs[1..], name)
  {
  }

  /** Appending `name` and then `c` copies of it appends `c + 1` copies. */
  lemma AppendStep(l: seq<string>, l1: seq<string>, name: string, c: nat, hit: bool)
    requires l1 == l + (if hit then [name] else [])
    ensures l1 + Repeat(name, c) == l + Repeat(name, c + (if hit then 1 else 0))
  {
    if hit {
      RepeatSucc(name, c);
      assert l1 + Repeat(name, c) == l + ([name] + Repeat(name, c));
    }
  }

  /** `add_task_hook`: each list ends with `name` once per parsed token
      naming it, duplicates kept, every other list unchanged; the error is
      that of the first malformed token. */
  lemma AddAllLists(t: Table, rs: seq<Parse>, name: string)
    ensures AddAll(t, rs, name).error == FirstError(rs)
    ensures forall k, h :: Listed(AddAll(t, rs, name).table, k, h) == Listed(t, k, h) + Repeat(name, Count(rs, k, h))
  {
    AddAllError(t, rs, name);
    forall k, h ensures Listed(AddAll(t, rs, name).table, k, h) == Listed(t, k, h) + Repeat(name, Count(rs, k, h)) {
      AddAllList(t, rs, name, k, h);
    }
  }

  lemma {:induction false} RemoveAllError(t: Table, rs: seq<Parse>, name: string)
    ensures RemoveAll(t, rs, name).error == FirstError(rs)
    decreases |rs|
  {
    if rs != [] && rs[0].Ok? {
      var (k0, h0) := rs[0].value;
      RemoveAllError(RemoveOne(t, k0, h0, name), rs[1..], name);
    }
  }

  lemma {:induction false} RemoveAllOrder(t: Table, rs: seq<Parse>, name: string, k: EventKind, h: string)
    ensures Listed(RemoveAll(t, rs, name).table, k, h) == RemoveFirstN(Listed(t, k, h), name, Count(rs, k, h))
    decreases |rs|
  {
    if rs != [] && rs[0].Ok? {
      var p := rs[0].value;
      RemoveAllOrder(RemoveOne(t, p.0, p.1, name), rs[1..], name, k, h);
      RemoveAllOrderStep(t, rs, name, k, h);
    }
  }

  /** The inductive step of RemoveAllOrder. */
  lemma RemoveAllOrderStep(t: Table, rs: seq<Parse>, name: string, k: EventKind, h: string)
    requires rs != [] && rs[0].Ok?
    requires var p := rs[0].value;
      var t1 := RemoveOne(t, p.0, p.1, name);
      Listed(RemoveAll(t1, rs[1..], name).table, k, h) == RemoveFirstN(Listed(t1, k, h), name, Count(rs[1..], k, h))
    ensures Listed(RemoveAll(t, rs, name).table, k, h) == RemoveFirstN(Listed(t, k, h), name, Count(rs, k, h))
  {
    var t1 := RemoveOne(t, rs[0].value.0, rs[0].value.1, name);
    var hit := rs[0].value == (k, h);
    RemoveAllCons(t, rs, name);
    CountCons(rs, k, h);
    if hit {
      RemoveOneList(t, k, h, name);
    }
    RemoveOrderStep(Listed(RemoveAll(t, rs, name).table, k, h), Listed(t, k, h), Listed(t1, k, h), name,
                    Count(rs[1..], k, h), Count(rs, k, h), hit);
  }

  /** One turn of the `add_task_hook` loop at token `i`. */
  lemma AddAllAt(t: Table, rs: seq<Parse>, i: nat, name: string)
    requires i < |rs|
    ensures rs[i].Err? ==> AddAll(t, rs[i..], name) == Outcome(t, Some(rs[i].error))
    ensures rs[i].Ok? ==>
      AddAll(t, rs[i..], name) == AddAll(AddOne(t, rs[i].value.0, rs[i].value.1, name), rs[i + 1..], name)
  {
    assert rs[i..][0] == rs[i] && rs[i..][1..] == rs[i + 1..];
  }

  /** One turn of the `remove_task_hook` loop at token `i`. */
  lemma RemoveAllAt(t: Table, rs: seq<Parse>, i: nat, name: string)
    requires i < |rs|
    ensures rs[i].Err? ==> RemoveAll(t, rs[i..], name) == Outcome(t, Some(rs[i].error))
    ensures rs[i].Ok? ==>
      RemoveAll(t, rs[i..], name) == RemoveAll(RemoveOne(t, rs[i].value.0, rs[i].value.1, name), rs[i + 1..], name)
  {
    assert rs[i..][0] == rs[i] && rs[i..][1..] == rs[i + 1..];
  }

  lemma RemoveAllCons(t: Table, rs: seq<Parse>, name: string)
    requires rs != [] && rs[0].Ok?
    ensures RemoveAll(t, rs, name) == RemoveAll(RemoveOne(t, rs[0].value.0, rs[0].value.1, name), rs[1..], name)
  {
  }

  /** Removing once and then `c` times removes `c + 1` times. */
  lemma RemoveOrderStep(f: seq<string>, l: seq<string>, l1: seq<string>, name: string, c: nat, total: nat, hit: bool)
    requires f == RemoveFirstN(l1, name, c)
    requires l1 == (if hit then RemoveFirst(l, name) else l)
    requires total == c + (if hit then 1 else 0)
    ensures f == RemoveFirstN(l, name, total)
  {
    if hit {
      assert total != 0 && total - 1 == c;
      assert RemoveFirstN(l, name, total) == RemoveFirstN(RemoveFirst(l, name), name, c);
    } else {
      assert total == c && l1 == l;
    }
  }

  /** `task_hook_remove`: each list loses, once per parsed token naming
      it, the first occurrence of `name` still there, the rest keeping
      their order; the error is that of the first malformed token. */
  lemma RemoveAllLists(t: Table, rs: seq<Parse>, name: string)
    ensures RemoveAll(t, rs, name).error == FirstError(rs)
    ensures forall k, h ::
      Listed(RemoveAll(t, rs, name).table, k, h) == RemoveFirstN(Listed(t, k, h), name, Count(rs, k, h))
    ensures forall k, h :: (multiset(Listed(RemoveAll(t, rs, name).table, k, h))
      == multiset(Listed(t, k, h)) - multiset(Repeat(name, Count(rs, k, h))))
  {
    RemoveAllError(t, rs, name);
    forall k, h ensures
      && Listed(RemoveAll(t, rs, name).table, k, h) == RemoveFirstN(Listed(t, k, h), name, Count(rs, k, h))
      && multiset(Listed(RemoveAll(t, rs, name).table, k, h))
         == multiset(Listed(t, k, h)) - multiset(Repeat(name, Count(rs, k, h)))
    {
      RemoveAllOrder(t, rs, name, k, h);
      RemoveFirstNCount(Listed(t, k, h), name, Count(rs, k, h));
    }
  }

  /** Removing the `c` copies of `name` appended to a list without it
      gives the list back. */
  lemma {:induction false} RemoveRepeat(l: seq<string>, name: string, c: nat)
    requires name !in l
    ensures RemoveFirstN(l + Repeat(name, c), name, c) == l
  {
    if c == 0 {
      assert l + Repeat(name, 0) == l;
    } else {
      RepeatSucc(name, c - 1);
      FirstAfter(l, name, Repeat(name, c));
      assert Repeat(name, c)[1..] == Repeat(name, c - 1);
      RemoveRepeat(l, name, c - 1);
    }
  }

  /** The first occurrence of `name` in `l + rest`, when `l` has none and
      `rest` starts with it, is the head of `rest`. */
  lemma FirstAfter(l: seq<string>, name: string, rest: seq<string>)
    requires name !in l && rest != [] && rest[0] == name
    ensures RemoveFirst(l + rest, name) == l + rest[1..]
  {
    var l' := l + rest;
    assert l'[|l|] == name;
    var i := Occurrence(l', name);
    RemoveFirstAt(l', name);
    assert l'[..i] == l && l'[i + 1..] == rest[1..];
  }

  /** Removing a task's hooks after adding them gives every list back its
      former contents, as a multiset: the occurrence removed is the first,
      which need not be the one added; a list that did not hold the task
      comes back exactly, order included. */
  lemma RemoveAfterAdd(t: Table, rs: seq<Parse>, name: string)
    ensures forall k, h :: (multiset(Listed(RemoveAll(AddAll(t, rs, name).table, rs, name).table, k, h))
      == multiset(Listed(t, k, h)))
    ensures forall k, h :: name !in Listed(t, k, h) ==>
      Listed(RemoveAll(AddAll(t, rs, name).table, rs, name).table, k, h) == Listed(t, k, h)
  {
    AddAllLists(t, rs, name);
    RemoveAllLists(AddAll(t, rs, name).table, rs, name);
    forall k, h | name !in Listed(t, k, h)
      ensures Listed(RemoveAll(AddAll(t, rs, name).table, rs, name).table, k, h) == Listed(t, k, h)
    {
      RemoveRepeat(Listed(t, k, h), name, Count(rs, k, h));
    }
  }

  /** A task hooked on `(k, h)` is among those started for `h`'s event `k`. */
  lemma HookedTaskListed(t: Table, rs: seq<Parse>, name: string, k: EventKind, h: string)
    requires (k, h) in Parsed(rs)
    ensures name in Listed(AddAll(t, rs, name).table, k, h)
  {
    AddAllList(t, rs, name, k, h);
    var r := Repeat(name, Count(rs, k, h));
    assert r[0] == name;
    assert (Listed(t, k, h) + r)[|Listed(t, k, h)|] == name;
  }
  /** What `process_set_add` hands to `add_task_hook`, in config order:
      the name and parsed hooks of each config whose `trigger_events` is
      non-empty; the other configs are skipped. */
  function Declared(configs: seq<Task>): (ds: seq<(string, seq<Parse>)>)
    ensures |ds| <= |configs|
    ensures forall c :: c in configs && HasHooks(c) ==> (c.name, Hooks(c.triggerEvents)) in ds
    ensures forall d :: d in ds ==> exists c :: c in configs && HasHooks(c) && d == (c.name, Hooks(c.triggerEvents))
    decreases |configs|
  {
    if configs == [] then []
    else
      var rest := Declared(configs[1..]);
      assert forall c :: c in configs[1..] ==> c in configs;
      if HasHooks(configs[0]) then [(configs[0].name, Hooks(configs[0].triggerEvents))] + rest else rest
  }

  /** The `process_set_add` loop: `add_task_hook` for each declaration,
      stopping at the first error. */
  function SetAdd(t: Table, ds: seq<(string, seq<Parse>)>): Outcome
    decreases |ds|
  {
    if ds == [] then Outcome(t, None)
    else
      var o := AddAll(t, ds[0].1, ds[0].0);
      if o.error.Some? then o else SetAdd(o.table, ds[1..])
  }

  /** The names `process_set_add` appends under `(k, h)`: each declaring
      task once per hook of its own naming `(k, h)`, in declaration order. */
  function Subscribers(ds: seq<(string, seq<Parse>)>, k: EventKind, h: string): seq<string>
  {
    if ds == [] then []
    else Repeat(ds[0].0, Count(ds[0].1, k, h)) + Subscribers(ds[1..], k, h)
  }

  lemma {:induction false} SetAddList(t: Table, ds: seq<(string, seq<Parse>)>, k: EventKind, h: string)
    requires SetAdd(t, ds).error.None?
    ensures Listed(SetAdd(t, ds).table, k, h) == Listed(t, k, h) + Subscribers(ds, k, h)
    decreases |ds|
  {
    if ds == [] {
      assert Listed(t, k, h) + [] == Listed(t, k, h);
    } else {
      var o := AddAll(t, ds[0].1, ds[0].0);
      SetAddCons(t, ds);
      SetAddList(o.table, ds[1..], k, h);
      SetAddStep(t, ds, k, h);
    }
  }

  /** The inductive step of SetAddList. */
  lemma SetAddStep(t: Table, ds: seq<(string, seq<Parse>)>, k: EventKind, h: string)
    requires ds != [] && SetAdd(t, ds).error.None?
    requires var o := AddAll(t, ds[0].1, ds[0].0);
      Listed(SetAdd(o.table, ds[1..]).table, k, h) == Listed(o.table, k, h) + Subscribers(ds[1..], k, h)
    ensures Listed(SetAdd(t, ds).table, k, h) == Listed(t, k, h) + Subscribers(ds, k, h)
  {
    var (name, rs) := ds[0];
    var o := AddAll(t, rs, name);
    SetAddCons(t, ds);
    AddAllList(t, rs, name, k, h);
    SubscribersCons(ds, k, h);
    Regrouped(Listed(t, k, h), Listed(o.table, k, h), Listed(SetAdd(t, ds).table, k, h),
              Repeat(name, Count(rs, k, h)), Subscribers(ds[1..], k, h));
  }

  lemma SubscribersCons(ds: seq<(string, seq<Parse>)>, k: EventKind, h: string)
    requires ds != []
    ensures Subscribers(ds, k, h) == Repeat(ds[0].0, Count(ds[0].1, k, h)) + Subscribers(ds[1..], k, h)
  {
  }

  lemma Regrouped(a: seq<string>, b: seq<string>, c: seq<string>, r: seq<string>, rest: seq<string>)
    requires b == a + r && c == b + rest
    ensures c == a + (r + rest)
  {
  }

  lemma SetAddCons(t: Table, ds: seq<(string, seq<Parse>)>)
    requires ds != [] && SetAdd(t, ds).error.None?
    ensures AddAll(t, ds[0].1, ds[0].0).error.None?
    ensures SetAdd(t, ds) == SetAdd(AddAll(t, ds[0].1, ds[0].0).table, ds[1..])
  {
  }

  /** `process_set_add` with no malformed token leaves each list extended
      by exactly the declaring tasks that name it, in order. */
  lemma SetAddLists(t: Table, ds: seq<(string, seq<Parse>)>)
    requires SetAdd(t, ds).error.None?
    ensures forall k, h :: Listed(SetAdd(t, ds).table, k, h) == Listed(t, k, h) + Subscribers(ds, k, h)
  {
    forall k, h ensures Listed(SetAdd(t, ds).table, k, h) == Listed(t, k, h) + Subscribers(ds, k, h) {
      SetAddList(t, ds, k, h);
    }
  }
}
