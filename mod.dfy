/** lk_flow/core/mod.py: the plugin registry and the drivers that walk it.
    The module-level `_sub_class_map` and the `conf.mod_loaded` flag are the
    fields of one ModLoader. Importing a plugin directory is an input: the
    directory listing, and for each file the (name, value) pairs of its
    namespace in order, each already classified by the `inspect.isclass`
    and `issubclass(_, ModAbstraction)` test. A plugin classmethod
    (`init_mod`, `setup_mod`, `teardown_mod`, `get_commands`) is recorded as
    a Call on the Context, and what it raises or returns is an oracle
    parameter. */
module Mods {
  import opened Outcomes
  import opened PyStr
  import opened Tasks
  import opened Contexts

  /** The message of the KeyError raised on a duplicate plugin name. */
  const DuplicateMod := "存在相同名称的Mod"

  /** One (name, value) pair of an imported plugin file's namespace;
      `isModClass` says whether the value is a class deriving from
      ModAbstraction. */
  datatype Member = Member(name: string, isModClass: bool, cls: ModClass)

  /** A directory entry and, for a `.py` file, its namespace in order. */
  datatype PluginFile = PluginFile(fileName: string, members: seq<Member>)

  /** One item of `_sub_class_map`, in insertion order. */
  type Entry = (string, ModClass)

  /** A command callable a plugin contributes, known by identity. */
  datatype Command = Command(id: nat)

  /** The four plugin classmethods the drivers call in a loop. */
  datatype Phase = InitPhase | SetupPhase

  /** What a driver loop did: the calls it made, in order, and the error
      that stopped it, if any. */
  datatype Drive = Drive(calls: seq<Call>, error: Option<Error>)

  /** What a registration pass left in the map, and the error that stopped it. */
  datatype Registered = Registered(entries: seq<Entry>, error: Option<Error>)

  // ---------------------------------------------------------------- discovery

  /** A namespace member that `_loading_plugin` registers: a ModAbstraction
      subclass bound to any name except "ModAbstraction" itself. */
  predicate Registers(m: Member)
  {
    m.name != "ModAbstraction" && m.isModClass
  }

  /** The registrations one imported file asks for, in namespace order. */
  function Found(ms: seq<Member>): seq<Entry>
  {
    if ms == [] then []
    else (if Registers(ms[0]) then [(ms[0].name, ms[0].cls)] else []) + Found(ms[1..])
  }

  /** One member's step of `Found`, ahead of the registrations `tail`. */
  lemma FoundStep(ms: seq<Member>, j: nat, tail: seq<Entry>)
    requires j < |ms|
    ensures Found(ms[j..]) + tail
      == (if Registers(ms[j]) then [(ms[j].name, ms[j].cls)] else []) + (Found(ms[j + 1..]) + tail)
  {
    assert ms[j..][1..] == ms[j + 1..];
  }

  /** What one directory entry contributes: nothing unless it ends in ".py". */
  function FileEntries(f: PluginFile): seq<Entry>
  {
    if EndsWith(f.fileName, ".py") then Found(f.members) else []
  }

  /** The registrations a whole directory listing asks for, in order. */
  function Discovered(files: seq<PluginFile>): seq<Entry>
  {
    if files == [] then [] else FileEntries(files[0]) + Discovered(files[1..])
  }

  lemma DiscoveredStep(files: seq<PluginFile>, i: nat)
    requires i < |files|
    ensures Discovered(files[i..]) == FileEntries(files[i]) + Discovered(files[i + 1..])
  {
    assert files[i..][1..] == files[i + 1..];
  }

  lemma {:induction false} FoundMembers(ms: seq<Member>)
    ensures forall e :: e in Found(ms) <==> exists m :: m in ms && Registers(m) && e == (m.name, m.cls)
  {
    if ms != [] {
      FoundMembers(ms[1..]);
      assert forall m :: m in ms <==> m == ms[0] || m in ms[1..];
    }
  }

  /** A registration comes from a `.py` file of the listing, from a member
      that is a ModAbstraction subclass not named "ModAbstraction"; and every
      such member is registered. */
  lemma {:induction false} DiscoveredMembers(files: seq<PluginFile>)
    ensures forall e :: e in Discovered(files) <==>
      exists f, m :: f in files && EndsWith(f.fileName, ".py") && m in f.members && Registers(m) && e == (m.name, m.cls)
  {
    if files != [] {
      DiscoveredMembers(files[1..]);
      FoundMembers(files[0].members);
      assert forall f :: f in files <==> f == files[0] || f in files[1..];
    }
  }

  // ------------------------------------------------------------- registration

  /** The names in the map. */
  function Names(es: seq<Entry>): set<string>
  {
    set e | e in es :: e.0
  }

  /** No name occurs twice: the map's keys. */
  predicate Unique(es: seq<Entry>)
  {
    forall i, j :: 0 <= i < j < |es| ==> es[i].0 != es[j].0
  }

  /** Inserting `regs` one at a time into the map `es`; a name already
      present raises KeyError and leaves the map as it is at that point. */
  function Register(es: seq<Entry>, regs: seq<Entry>): Registered
    decreases |regs|
  {
    if regs == [] then Registered(es, None)
    else if regs[0].0 in Names(es) then Registered(es, Some(KeyError(DuplicateMod)))
    else Register(es + [regs[0]], regs[1..])
  }

  lemma RegisterCons(es: seq<Entry>, e: Entry, rest: seq<Entry>)
    ensures Register(es, [e] + rest) ==
      if e.0 in Names(es) then Registered(es, Some(KeyError(DuplicateMod))) else Register(es + [e], rest)
  {
    assert ([e] + rest)[1..] == rest;
  }

  lemma UniqueSnoc(es: seq<Entry>, e: Entry)
    requires Unique(es) && e.0 !in Names(es)
    ensures Unique(es + [e])
  {
    forall i | 0 <= i < |es|
      ensures es[i].0 != e.0
    {
      assert es[i] in es;
    }
  }

  /** Registration keeps the keys unique. */
  lemma {:induction false} RegisterUnique(es: seq<Entry>, regs: seq<Entry>)
    requires Unique(es)
    decreases |regs|
    ensures Unique(Register(es, regs).entries)
  {
    if regs != [] && regs[0].0 !in Names(es) {
      UniqueSnoc(es, regs[0]);
      RegisterUnique(es + [regs[0]], regs[1..]);
    }
  }

  /** Registration succeeds exactly when the new names are unique and
      fresh, and then appends them all in order. */
  lemma {:induction false} RegisterAll(es: seq<Entry>, regs: seq<Entry>)
    requires Unique(es)
    decreases |regs|
    ensures Register(es, regs).error.None? <==> Unique(es + regs)
    ensures Register(es, regs).error.None? ==> Register(es, regs).entries == es + regs
  {
    if regs == [] {
      assert es + regs == es;
    } else if regs[0].0 in Names(es) {
      var i :| 0 <= i < |es| && es[i].0 == regs[0].0;
      assert (es + regs)[i].0 == (es + regs)[|es|].0;
    } else {
      UniqueSnoc(es, regs[0]);
      RegisterAll(es + [regs[0]], regs[1..]);
      assert (es + [regs[0]]) + regs[1..] == es + regs;
    }
  }

  /** On a clash registration raises KeyError at the first name already
      present, having kept the registrations before it. */
  lemma {:induction false} RegisterStops(es: seq<Entry>, regs: seq<Entry>)
    decreases |regs|
    ensures Register(es, regs).error.Some? ==>
      Register(es, regs).error == Some(KeyError(DuplicateMod))
      && exists k :: 0 <= k < |regs| && Register(es, regs).entries == es + regs[..k]
                     && regs[k].0 in Names(es + regs[..k])
  {
    if regs != [] {
      if regs[0].0 in Names(es) {
        assert es + regs[..0] == es;
      } else {
        var r := regs[0];
        RegisterStops(es + [r], regs[1..]);
        if Register(es, regs).error.Some? {
          var k :| 0 <= k < |regs[1..]| && Register(es + [r], regs[1..]).entries == (es + [r]) + regs[1..][..k]
                   && regs[1..][k].0 in Names((es + [r]) + regs[1..][..k]);
          assert (es + [r]) + regs[1..][..k] == es + regs[..k + 1];
          assert regs[1..][k] == regs[k + 1];
          assert 0 <= k + 1 < |regs| && Register(es, regs).entries == es + regs[..k + 1]
                 && regs[k + 1].0 in Names(es + regs[..k + 1]);
        }
      }
    }
  }

  /** `loading_plugin` on a map that is not yet loaded: the system plugin
      directory, then the user directory when `mod_dir` is truthy. */
  function Boot(es: seq<Entry>, modDir: Option<string>, sys: seq<PluginFile>, user: seq<PluginFile>): Registered
  {
    var a := Register(es, Discovered(sys));
    if a.error.Some? || !Truthy(modDir) then a else Register(a.entries, Discovered(user))
  }

  /** A successful boot registers the system plugins, then the user plugins
      when a directory is given, and every name once. */
  lemma BootSpec(es: seq<Entry>, modDir: Option<string>, sys: seq<PluginFile>, user: seq<PluginFile>)
    requires Unique(es)
    ensures Unique(Boot(es, modDir, sys, user).entries)
    ensures Boot(es, modDir, sys, user).error.None? ==>
      Boot(es, modDir, sys, user).entries
        == es + Discovered(sys) + (if Truthy(modDir) then Discovered(user) else [])
  {
    RegisterUnique(es, Discovered(sys));
    RegisterAll(es, Discovered(sys));
    var a := Register(es, Discovered(sys));
    if a.error.None? {
      if Truthy(modDir) {
        RegisterUnique(a.entries, Discovered(user));
        RegisterAll(a.entries, Discovered(user));
      } else {
        assert es + Discovered(sys) + [] == es + Discovered(sys);
      }
    }
  }

  /** A system plugin directory in which two registrations share a name
      makes every boot raise KeyError, whatever `mod_dir` is. */
  lemma BootClash(es: seq<Entry>, modDir: Option<string>, sys: seq<PluginFile>, user: seq<PluginFile>,
                  i: nat, j: nat)
    requires Unique(es)
    requires i < j < |Discovered(sys)| && Discovered(sys)[i].0 == Discovered(sys)[j].0
    ensures Boot(es, modDir, sys, user).error == Some(KeyError(DuplicateMod))
  {
    var regs := Discovered(sys);
    RegisterAll(es, regs);
    RegisterStops(es, regs);
    assert (es + regs)[|es| + i].0 == (es + regs)[|es| + j].0;
  }

  /** The files of the shipped plugin directory that bind the name
      TimeTrigger: `__init__.py` imports the class of the package's
      `trigger` module, and `time_trigger.py` and `trigger.py` each define
      one (each file is executed as a fresh module, so the three are
      distinct classes). The other shipped plugins register other names. */
  const ShippedPlugins := [
    PluginFile("__init__.py", [Member("TimeTrigger", true, ModClass(3))]),
    PluginFile("time_trigger.py", [Member("ModAbstraction", true, ModClass(0)), Member("TimeTrigger", true, ModClass(1))]),
    PluginFile("trigger.py", [Member("ModAbstraction", true, ModClass(0)), Member("TimeTrigger", true, ModClass(2))])
  ]

  /** Loading the shipped plugin directory raises KeyError, so
      `loading_plugin` never completes. */
  lemma ShippedPluginsClash(modDir: Option<string>, user: seq<PluginFile>)
    ensures Boot([], modDir, ShippedPlugins, user).error == Some(KeyError(DuplicateMod))
  {
    assert Discovered(ShippedPlugins) ==
      [("TimeTrigger", ModClass(3)), ("TimeTrigger", ModClass(1)), ("TimeTrigger", ModClass(2))];
    BootClash([], modDir, ShippedPlugins, user, 0, 1);
  }

  // ------------------------------------------------------------------ drivers

  /** `not mod_config.get("enable", True)` fails: the key is absent, or its
      value is truthy. */
  predicate Enabled(c: ModConfig)
  {
    c.enable.None? || Truthful(c.enable.value)
  }

  function HookCall(p: Phase, mod: ModClass, c: ModConfig): Call
  {
    match p
    case InitPhase => Call.InitMod(mod, c)
    case SetupPhase => Call.SetupMod(mod, c)
  }

  /** The loop of `mod_init` / `setup_mod` over the map: the config lookup
      raises KeyError for a plugin without one, a disabled plugin is passed
      over, an enabled one is registered with `add_mod_map` and then its
      classmethod is called; `hook` is what that call raises, which ends
      the loop. */
  function Driven(es: seq<Entry>, cfg: map<string, ModConfig>, p: Phase, hook: Call -> Option<Error>): Drive
  {
    if es == [] then Drive([], None)
    else if es[0].0 !in cfg then Drive([], Some(KeyError(es[0].0)))
    else if !Enabled(cfg[es[0].0]) then Driven(es[1..], cfg, p, hook)
    else
      var c := HookCall(p, es[0].1, cfg[es[0].0]);
      var head := [Call.AddModMap(es[0].0, es[0].1), c];
      if hook(c).Some? then Drive(head, hook(c))
      else
        var rest := Driven(es[1..], cfg, p, hook);
        Drive(head + rest.calls, rest.error)
  }

  /** The plugins a driver visits: configured and enabled, in map order,
      with their config. */
  function Active(es: seq<Entry>, cfg: map<string, ModConfig>): seq<(string, ModClass, ModConfig)>
  {
    if es == [] then []
    else if es[0].0 in cfg && Enabled(cfg[es[0].0]) then [(es[0].0, es[0].1, cfg[es[0].0])] + Active(es[1..], cfg)
    else Active(es[1..], cfg)
  }

  /** The calls of a driver that nothing stops: register, then call, plugin
      by plugin. */
  function Plan(ts: seq<(string, ModClass, ModConfig)>, p: Phase): seq<Call>
  {
    if ts == [] then [] else [Call.AddModMap(ts[0].0, ts[0].1), HookCall(p, ts[0].1, ts[0].2)] + Plan(ts[1..], p)
  }

  /** The visited plugins are exactly the configured, enabled ones. */
  lemma {:induction false} ActiveMembers(es: seq<Entry>, cfg: map<string, ModConfig>)
    ensures forall t :: t in Active(es, cfg) <==>
      (t.0, t.1) in es && t.0 in cfg && t.2 == cfg[t.0] && Enabled(t.2)
  {
    if es != [] {
      ActiveMembers(es[1..], cfg);
      assert forall e :: e in es <==> e == es[0] || e in es[1..];
    }
  }

  /** Plugin k is registered at step 2k and its classmethod called at step
      2k + 1: every call is preceded by its `add_mod_map`. */
  lemma {:induction false} PlanShape(ts: seq<(string, ModClass, ModConfig)>, p: Phase)
    ensures |Plan(ts, p)| == 2 * |ts|
    ensures forall k :: 0 <= k < |ts| ==>
      Plan(ts, p)[2 * k] == Call.AddModMap(ts[k].0, ts[k].1) && Plan(ts, p)[2 * k + 1] == HookCall(p, ts[k].1, ts[k].2)
  {
    if ts != [] {
      var rest := Plan(ts[1..], p);
      PlanShape(ts[1..], p);
      assert Plan(ts, p) == [Call.AddModMap(ts[0].0, ts[0].1), HookCall(p, ts[0].1, ts[0].2)] + rest;
      forall k | 1 <= k < |ts|
        ensures Plan(ts, p)[2 * k] == Call.AddModMap(ts[k].0, ts[k].1)
        ensures Plan(ts, p)[2 * k + 1] == HookCall(p, ts[k].1, ts[k].2)
      {
        assert ts[k] == ts[1..][k - 1];
        assert Plan(ts, p)[2 * k] == rest[2 * (k - 1)];
        assert Plan(ts, p)[2 * k + 1] == rest[2 * (k - 1) + 1];
      }
    }
  }

  /** A driver makes a prefix of the planned calls (an error stops it
      early); it finishes without error exactly when every plugin has a
      config and no planned call raises, and then it made all of them. */
  lemma {:induction false} DrivenSpec(es: seq<Entry>, cfg: map<string, ModConfig>, p: Phase, hook: Call -> Option<Error>)
    ensures Driven(es, cfg, p, hook).calls <= Plan(Active(es, cfg), p)
    ensures Driven(es, cfg, p, hook).error.None? ==> Driven(es, cfg, p, hook).calls == Plan(Active(es, cfg), p)
    ensures Driven(es, cfg, p, hook).error.None? <==>
      (forall e :: e in es ==> e.0 in cfg) && (forall t :: t in Active(es, cfg) ==> hook(HookCall(p, t.1, t.2)).None?)
  {
    if es != [] {
      DrivenSpec(es[1..], cfg, p, hook);
      assert forall e :: e in es <==> e == es[0] || e in es[1..];
      if es[0].0 in cfg && Enabled(cfg[es[0].0]) {
        var c := HookCall(p, es[0].1, cfg[es[0].0]);
        var rest := Plan(Active(es[1..], cfg), p);
        var plan := Plan(Active(es, cfg), p);
        assert plan == [Call.AddModMap(es[0].0, es[0].1), c] + rest;
        assert forall x :: x in plan <==> x == Call.AddModMap(es[0].0, es[0].1) || x == c || x in rest;
        assert Active(es, cfg) == [(es[0].0, es[0].1, cfg[es[0].0])] + Active(es[1..], cfg);
        assert forall t :: t in Active(es, cfg) <==> t == (es[0].0, es[0].1, cfg[es[0].0]) || t in Active(es[1..], cfg);
      }
    }
  }

  /** A missing config stops the driver with KeyError naming that plugin. */
  lemma {:induction false} DrivenKeyError(es: seq<Entry>, cfg: map<string, ModConfig>, p: Phase, hook: Call -> Option<Error>, n: string)
    requires Driven(es, cfg, p, hook).error == Some(KeyError(n))
    requires forall c :: hook(c) != Some(KeyError(n))
    ensures n !in cfg && exists m :: (n, m) in es
  {
    if es[0].0 in cfg {
      DrivenKeyError(es[1..], cfg, p, hook, n);
      var m :| (n, m) in es[1..];
      assert (n, m) in es;
    } else {
      assert (es[0].0, es[0].1) in es;
    }
  }

  /** The loop of `teardown_mod` over the (name, class) pairs
      `get_mod_map` answers: every plugin's `teardown_mod` in order, until
      one raises. */
  function Torn(pairs: seq<Entry>, hook: Call -> Option<Error>): Drive
  {
    if pairs == [] then Drive([], None)
    else
      var c := Call.TeardownMod(pairs[0].1);
      if hook(c).Some? then Drive([c], hook(c))
      else
        var rest := Torn(pairs[1..], hook);
        Drive([c] + rest.calls, rest.error)
  }

  lemma Regroup(a: seq<Call>, b: seq<Call>, c: seq<Call>)
    ensures a + b + c == a + (b + c)
  {
  }

  lemma TornStep(pairs: seq<Entry>, i: nat, hook: Call -> Option<Error>)
    requires i < |pairs|
    ensures Torn(pairs[i..], hook) ==
      var c := Call.TeardownMod(pairs[i].1);
      if hook(c).Some? then Drive([c], hook(c))
      else Drive([c] + Torn(pairs[i + 1..], hook).calls, Torn(pairs[i + 1..], hook).error)
  {
    assert pairs[i..][1..] == pairs[i + 1..];
  }

  function Teardowns(pairs: seq<Entry>): (cs: seq<Call>)
    ensures |cs| == |pairs|
    ensures forall k :: 0 <= k < |pairs| ==> cs[k] == Call.TeardownMod(pairs[k].1)
  {
    seq(|pairs|, k requires 0 <= k < |pairs| => Call.TeardownMod(pairs[k].1))
  }

  /** No plugin's `teardown_mod` raises. */
  predicate NoneRaise(pairs: seq<Entry>, hook: Call -> Option<Error>)
  {
    forall k :: 0 <= k < |pairs| ==> hook(Call.TeardownMod(pairs[k].1)).None?
  }

  lemma TeardownsCons(pairs: seq<Entry>)
    requires pairs != []
    ensures Teardowns(pairs) == [Call.TeardownMod(pairs[0].1)] + Teardowns(pairs[1..])
  {
  }

  lemma NoneRaiseCons(pairs: seq<Entry>, hook: Call -> Option<Error>)
    requires pairs != []
    ensures NoneRaise(pairs, hook) <==>
      hook(Call.TeardownMod(pairs[0].1)).None? && NoneRaise(pairs[1..], hook)
  {
    if hook(Call.TeardownMod(pairs[0].1)).None? && NoneRaise(pairs[1..], hook) {
      forall k | 1 <= k < |pairs|
        ensures hook(Call.TeardownMod(pairs[k].1)).None?
      {
        assert pairs[k] == pairs[1..][k - 1];
      }
    }
  }

  /** Teardown calls a prefix of all plugins' `teardown_mod`, and all of
      them exactly when none raises. */
  lemma {:induction false} TornSpec(pairs: seq<Entry>, hook: Call -> Option<Error>)
    ensures Torn(pairs, hook).calls <= Teardowns(pairs)
    ensures Torn(pairs, hook).error.None? <==> NoneRaise(pairs, hook)
    ensures Torn(pairs, hook).error.None? ==> Torn(pairs, hook).calls == Teardowns(pairs)
  {
    if pairs != [] {
      TornSpec(pairs[1..], hook);
      TeardownsCons(pairs);
      NoneRaiseCons(pairs, hook);
    }
  }

  // --------------------------------------------------------------- commands

  /** The command maps of the configured, enabled plugins in map order
      (None, the default of `get_commands`, contributes the empty map);
      a missing config raises KeyError, and an error `get_commands` raises
      ends the walk. */
  function Contributions(es: seq<Entry>, cfg: map<string, ModConfig>,
                         commands: (ModClass, ModConfig) -> Result<Option<map<string, Command>>>): Result<seq<map<string, Command>>>
  {
    if es == [] then Ok([])
    else if es[0].0 !in cfg then Err(KeyError(es[0].0))
    else if !Enabled(cfg[es[0].0]) then Contributions(es[1..], cfg, commands)
    else
      var got := commands(es[0].1, cfg[es[0].0]);
      if got.Err? then Err(got.error)
      else
        var rest := Contributions(es[1..], cfg, commands);
        if rest.Err? then rest
        else Ok([if got.value.Some? then got.value.value else map[]] + rest.value)
  }

  /** `dict.update` with each map in turn. */
  function Overlay(acc: map<string, Command>, ms: seq<map<string, Command>>): map<string, Command>
    decreases |ms|
  {
    if ms == [] then acc else Overlay(acc + ms[0], ms[1..])
  }

  /** The command map `loading_plugin_command` builds on top of `acc`. */
  function Merged(acc: map<string, Command>, es: seq<Entry>, cfg: map<string, ModConfig>,
                  commands: (ModClass, ModConfig) -> Result<Option<map<string, Command>>>): Result<map<string, Command>>
  {
    var ms := Contributions(es, cfg, commands);
    if ms.Err? then Err(ms.error) else Ok(Overlay(acc, ms.value))
  }

  /** One plugin's step of the merge. */
  lemma MergedCons(acc: map<string, Command>, e: Entry, rest: seq<Entry>, cfg: map<string, ModConfig>,
                   commands: (ModClass, ModConfig) -> Result<Option<map<string, Command>>>)
    ensures Merged(acc, [e] + rest, cfg, commands) ==
      if e.0 !in cfg then Err(KeyError(e.0))
      else if !Enabled(cfg[e.0]) then Merged(acc, rest, cfg, commands)
      else if commands(e.1, cfg[e.0]).Err? then Err(commands(e.1, cfg[e.0]).error)
      else if commands(e.1, cfg[e.0]).value.Some? then Merged(acc + commands(e.1, cfg[e.0]).value.value, rest, cfg, commands)
      else Merged(acc, rest, cfg, commands)
  {
    assert ([e] + rest)[1..] == rest;
    var m: map<string, Command> := map[];
    assert acc + m == acc;
  }

  /** Keys of the overlay: those of the base and of every map. */
  lemma {:induction false} OverlayKeys(acc: map<string, Command>, ms: seq<map<string, Command>>)
    decreases |ms|
    ensures forall k :: k in Overlay(acc, ms) <==> k in acc || exists i :: 0 <= i < |ms| && k in ms[i]
  {
    if ms != [] {
      OverlayKeys(acc + ms[0], ms[1..]);
      forall k | k in Overlay(acc, ms) && k !in acc
        ensures exists i :: 0 <= i < |ms| && k in ms[i]
      {
        assert k in Overlay(acc + ms[0], ms[1..]);
        if k !in ms[0] {
          var i :| 0 <= i < |ms[1..]| && k in ms[1..][i];
          assert k in ms[i + 1];
        }
      }
      forall k, i | 0 <= i < |ms| && k in ms[i]
        ensures k in Overlay(acc, ms)
      {
        if i > 0 {
          assert k in ms[1..][i - 1];
        }
      }
    }
  }

  /** Later plugins override earlier ones: a key takes the value of the
      last map holding it, and keeps the base value when no map holds it. */
  lemma {:induction false} OverlayLast(acc: map<string, Command>, ms: seq<map<string, Command>>, k: string, i: int)
    requires 0 <= i < |ms| && k in ms[i]
    requires forall j :: i < j < |ms| ==> k !in ms[j]
    decreases |ms|
    ensures k in Overlay(acc, ms) && Overlay(acc, ms)[k] == ms[i][k]
  {
    if i == 0 {
      OverlayUntouched(acc + ms[0], ms[1..], k);
    } else {
      OverlayLast(acc + ms[0], ms[1..], k, i - 1);
    }
  }

  lemma {:induction false} OverlayUntouched(acc: map<string, Command>, ms: seq<map<string, Command>>, k: string)
    requires k in acc
    requires forall j :: 0 <= j < |ms| ==> k !in ms[j]
    decreases |ms|
    ensures k in Overlay(acc, ms) && Overlay(acc, ms)[k] == acc[k]
  {
    if ms != [] {
      assert k !in ms[0];
      OverlayUntouched(acc + ms[0], ms[1..], k);
    }
  }

  // ------------------------------------------------------------------ state

  class ModLoader {
    /** `_sub_class_map`, as its items in insertion order. */
    var subClassMap: seq<Entry>
    /** `conf.mod_loaded`. */
    var modLoaded: bool

    /** Import time: nothing registered, nothing loaded. */
    constructor ()
      ensures subClassMap == [] && !modLoaded
    {
      subClassMap := [];
      modLoaded := false;
    }

    /** `_loading_plugin`: every `.py` file of the listing, every member
        that is a ModAbstraction subclass, inserted in order; a duplicate
        name raises KeyError and keeps what was inserted before it. */
    method LoadPlugin(files: seq<PluginFile>) returns (r: Result<()>)
      modifies this`subClassMap
      ensures Registered(subClassMap, ErrorOf(r)) == Register(old(subClassMap), Discovered(files))
    {
      ghost var goal := Register(subClassMap, Discovered(files));
      var i := 0;
      while i < |files|
        invariant 0 <= i <= |files|
        invariant goal == Register(subClassMap, Discovered(files[i..]))
      {
        var f := files[i];
        ghost var tail := Discovered(files[i + 1..]);
        DiscoveredStep(files, i);
        if EndsWith(f.fileName, ".py") {
          r := LoadMembers(f.members, tail);
          if r.Err? {
            return;
          }
        } else {
          assert FileEntries(f) + tail == tail;
        }
        i := i + 1;
      }
      assert files[i..] == [];
      r := Ok(());
    }

    /** The inner loop of `_loading_plugin` over one file's namespace;
        `tail` stands for the registrations still to come after it. */
    method LoadMembers(ms: seq<Member>, ghost tail: seq<Entry>) returns (r: Result<()>)
      modifies this`subClassMap
      ensures r.Ok? ==> Register(old(subClassMap), Found(ms) + tail) == Register(subClassMap, tail)
      ensures r.Err? ==> Register(old(subClassMap), Found(ms) + tail) == Registered(subClassMap, Some(r.error))
    {
      ghost var goal := Register(subClassMap, Found(ms) + tail);
      assert ms[0..] == ms;
      var j := 0;
      while j < |ms|
        invariant 0 <= j <= |ms|
        invariant goal == Register(subClassMap, Found(ms[j..]) + tail)
      {
        var m := ms[j];
        FoundStep(ms, j, tail);
        if Registers(m) {
          RegisterCons(subClassMap, (m.name, m.cls), Found(ms[j + 1..]) + tail);
          if m.name in Names(subClassMap) {
            return Err(KeyError(DuplicateMod));
          }
          subClassMap := subClassMap + [(m.name, m.cls)];
        } else {
          assert [] + (Found(ms[j + 1..]) + tail) == Found(ms[j + 1..]) + tail;
        }
        j := j + 1;
      }
      assert Found(ms[j..]) + tail == tail;
      r := Ok(());
    }

    /** `loading_plugin`: nothing when already loaded; otherwise the system
        plugins, then the user directory when `mod_dir` is truthy, and the
        flag is set only when both succeed. */
    method LoadingPlugin(modDir: Option<string>, sys: seq<PluginFile>, user: seq<PluginFile>) returns (r: Result<()>)
      modifies this
      ensures old(modLoaded) ==> r.Ok? && subClassMap == old(subClassMap) && modLoaded
      ensures !old(modLoaded) ==>
        Registered(subClassMap, ErrorOf(r)) == Boot(old(subClassMap), modDir, sys, user)
        && modLoaded == r.Ok?
    {
      if modLoaded {
        return Ok(());
      }
      r := LoadPlugin(sys);
      if r.Err? {
        return;
      }
      if modDir.Some? && modDir.value != "" {
        r := LoadPlugin(user);
        if r.Err? {
          return;
        }
      }
      modLoaded := true;
    }

    /** The shared loop of `mod_init` and `setup_mod`. */
    method Drive(ctx: Context, p: Phase, hook: Call -> Option<Error>) returns (r: Result<()>)
      modifies ctx`calls
      ensures ctx.calls == old(ctx.calls) + Driven(subClassMap, ctx.config.modConfig, p, hook).calls
      ensures ErrorOf(r) == Driven(subClassMap, ctx.config.modConfig, p, hook).error
    {
      var es := subClassMap;
      var cfg := ctx.config.modConfig;
      ghost var c0 := ctx.calls;
      var i := 0;
      while i < |es|
        invariant 0 <= i <= |es|
        invariant c0 + Driven(es, cfg, p, hook).calls == ctx.calls + Driven(es[i..], cfg, p, hook).calls
        invariant Driven(es, cfg, p, hook).error == Driven(es[i..], cfg, p, hook).error
      {
        var (name, mod) := es[i];
        assert es[i..][1..] == es[i + 1..];
        if name !in cfg {
          return Err(KeyError(name));
        }
        if Enabled(cfg[name]) {
          var c := HookCall(p, mod, cfg[name]);
          ctx.AddModMap(name, mod);
          ctx.Record(c);
          if hook(c).Some? {
            return Err(hook(c).value);
          }
          assert ctx.calls + Driven(es[i..], cfg, p, hook).calls
            == ctx.calls + ([Call.AddModMap(name, mod), c] + Driven(es[i + 1..], cfg, p, hook).calls);
        }
        i := i + 1;
      }
      assert es[i..] == [];
      return Ok(());
    }

    /** `mod_init`. */
    method ModInit(ctx: Context, hook: Call -> Option<Error>) returns (r: Result<()>)
      modifies ctx`calls
      ensures ctx.calls == old(ctx.calls) + Driven(subClassMap, ctx.config.modConfig, InitPhase, hook).calls
      ensures ErrorOf(r) == Driven(subClassMap, ctx.config.modConfig, InitPhase, hook).error
    {
      r := Drive(ctx, InitPhase, hook);
    }

    /** `setup_mod`. */
    method SetupMod(ctx: Context, hook: Call -> Option<Error>) returns (r: Result<()>)
      modifies ctx`calls
      ensures ctx.calls == old(ctx.calls) + Driven(subClassMap, ctx.config.modConfig, SetupPhase, hook).calls
      ensures ErrorOf(r) == Driven(subClassMap, ctx.config.modConfig, SetupPhase, hook).error
    {
      r := Drive(ctx, SetupPhase, hook);
    }

    /** `loading_plugin_command`: load the plugins, then merge the command
        maps of the enabled ones; the flag ends up set. */
    method LoadingPluginCommand(modDir: Option<string>, sys: seq<PluginFile>, user: seq<PluginFile>,
                                cfg: map<string, ModConfig>,
                                commands: (ModClass, ModConfig) -> Result<Option<map<string, Command>>>)
      returns (r: Result<map<string, Command>>)
      modifies this
      ensures old(modLoaded) ==> subClassMap == old(subClassMap) && r == Merged(map[], subClassMap, cfg, commands)
      ensures !old(modLoaded) ==>
        var b := Boot(old(subClassMap), modDir, sys, user);
        subClassMap == b.entries
        && (b.error.Some? ==> r == Err(b.error.value) && !modLoaded)
        && (b.error.None? ==> r == Merged(map[], subClassMap, cfg, commands))
      ensures r.Ok? ==> modLoaded
    {
      var loaded := LoadingPlugin(modDir, sys, user);
      if loaded.Err? {
        return Err(loaded.error);
      }
      var es := subClassMap;
      var acc: map<string, Command> := map[];
      var i := 0;
      while i < |es|
        invariant 0 <= i <= |es|
        invariant subClassMap == es
        invariant Merged(map[], es, cfg, commands) == Merged(acc, es[i..], cfg, commands)
      {
        var (name, mod) := es[i];
        assert es[i..] == [es[i]] + es[i + 1..];
        MergedCons(acc, es[i], es[i + 1..], cfg, commands);
        if name !in cfg {
          return Err(KeyError(name));
        }
        if Enabled(cfg[name]) {
          var got := commands(mod, cfg[name]);
          if got.Err? {
            return Err(got.error);
          }
          if got.value.Some? && got.value.value != map[] {
            acc := acc + got.value.value;
          } else if got.value.Some? {
            assert acc + got.value.value == acc;
          }
        }
        i := i + 1;
      }
      assert es[i..] == [];
      modLoaded := true;
      return Ok(acc);
    }

    /** `teardown_mod`: ask the context for its mod map (`pairs` is its
        answer), then call every plugin's `teardown_mod` until one raises. */
    method TeardownMod(ctx: Context, pairs: seq<Entry>, hook: Call -> Option<Error>) returns (r: Result<()>)
      modifies ctx`calls
      ensures ctx.calls == old(ctx.calls) + [Call.GetModMap] + Torn(pairs, hook).calls
      ensures ErrorOf(r) == Torn(pairs, hook).error
    {
      ctx.Record(Call.GetModMap);
      ghost var c0 := ctx.calls;
      ghost var done: seq<Call> := [];
      var i := 0;
      while i < |pairs|
        invariant 0 <= i <= |pairs|
        invariant ctx.calls == c0 + done
        invariant Torn(pairs, hook).calls == done + Torn(pairs[i..], hook).calls
        invariant Torn(pairs, hook).error == Torn(pairs[i..], hook).error
      {
        var c := Call.TeardownMod(pairs[i].1);
        TornStep(pairs, i, hook);
        ctx.Record(c);
        Regroup(c0, done, [c]);
        if hook(c).Some? {
          assert Torn(pairs, hook).calls == done + [c];
          return Err(hook(c).value);
        }
        Regroup(done, [c], Torn(pairs[i + 1..], hook).calls);
        done := done + [c];
        i := i + 1;
      }
      assert pairs[i..] == [] && done + [] == done;
      return Ok(());
    }
  }
}
