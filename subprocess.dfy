/** lk_flow/models/subprocess.py: start-up preparation (environment, command
    split, executable lookup, log paths) as functions, and the SubProcess
    state machine as a class. The host is an input value: the paths that
    exist, the directories that can be entered, the supervisor's own
    environment and the configured log directory. Spawning is given as its
    outcome, a pid or the OSError the operating system raises; a spawned
    child is a fresh ProcessHandle, and the operating system reaping it is
    ProcessHandle.Exit. */
module Subprocesses {
  import opened Outcomes
  import opened PyStr
  import opened Tasks
  import opened Events

  datatype ProcessStatus = Sleeping | ExitNormal | ExitError | Stopped | Running

  datatype Host = Host(
    paths: set<string>,              // os.stat / os.path.exists succeed
    statErrors: set<string>,         // os.stat raises an OSError other than FileNotFoundError
    dirs: set<string>,               // os.chdir succeeds
    environ: map<string, string>,    // os.environ
    logSaveDir: string)              // conf.log_save_dir

  const Marker: string := "LK_FLOW_ENABLED"

  // ---------------------------------------------------------------------
  // _make_env

  predicate WellFormedPiece(p: string)
  {
    |SplitOn(p, "=")| == 2
  }

  function KeyOf(p: string): string
    requires WellFormedPiece(p)
  {
    SplitOn(p, "=")[0]
  }

  function ValOf(p: string): string
    requires WellFormedPiece(p)
  {
    SplitOn(p, "=")[1]
  }

  /** `k, v = piece.split("=")`: exactly one '=' or a ValueError. */
  function UnpackError(p: string): Error
  {
    if |SplitOn(p, "=")| < 2 then ValueError("not enough values to unpack (expected 2, got 1)")
    else ValueError("too many values to unpack (expected 2)")
  }

  /** Reference meaning of the `;`-separated pieces: empty pieces are
      skipped, the leftmost malformed piece is the error, and for each key
      the last piece that sets it wins. */
  function EnvPairs(ps: seq<string>): Result<map<string, string>>
  {
    if ps == [] then Ok(map[])
    else if ps[0] == [] then EnvPairs(ps[1..])
    else if !WellFormedPiece(ps[0]) then Err(UnpackError(ps[0]))
    else match EnvPairs(ps[1..])
      case Err(e) => Err(e)
      case Ok(m) => Ok(if KeyOf(ps[0]) in m then m else m[KeyOf(ps[0]) := ValOf(ps[0])])
  }

  /** Appending one piece: the last piece overrides what came before. */
  lemma {:induction false} EnvPairsSnoc(ps: seq<string>, p: string)
    ensures EnvPairs(ps + [p]) ==
      match EnvPairs(ps)
      case Err(e) => Err(e)
      case Ok(m) =>
        if p == [] then Ok(m)
        else if !WellFormedPiece(p) then Err(UnpackError(p))
        else Ok(m[KeyOf(p) := ValOf(p)])
  {
    if ps == [] {
      assert [p][1..] == [];
    } else {
      var q := ps[0];
      assert (ps + [p])[0] == q;
      assert (ps + [p])[1..] == ps[1..] + [p];
      EnvPairsSnoc(ps[1..], p);
      if q != [] && WellFormedPiece(q) && EnvPairs(ps[1..]).Ok? && p != [] && WellFormedPiece(p) {
        var m := EnvPairs(ps[1..]).value;
        var m' := m[KeyOf(p) := ValOf(p)];
        assert EnvPairs(ps[1..] + [p]) == Ok(m');
        var whole := if KeyOf(q) in m then m else m[KeyOf(q) := ValOf(q)];
        assert EnvPairs(ps) == Ok(whole);
        if KeyOf(q) == KeyOf(p) {
          assert whole[KeyOf(p) := ValOf(p)] == m';
        } else {
          assert (KeyOf(q) in m') == (KeyOf(q) in m);
          assert (if KeyOf(q) in m' then m' else m'[KeyOf(q) := ValOf(q)]) == whole[KeyOf(p) := ValOf(p)];
        }
      }
    }
  }

  /** Well-formedness is all or nothing: the pieces parse exactly when
      every non-empty piece holds one '='. */
  lemma {:induction false} EnvPairsOk(ps: seq<string>)
    ensures EnvPairs(ps).Ok? <==> forall i :: 0 <= i < |ps| && ps[i] != [] ==> WellFormedPiece(ps[i])
  {
    if ps != [] {
      EnvPairsOk(ps[1..]);
      assert forall i :: 1 <= i < |ps| ==> ps[i] == ps[1..][i - 1];
    }
  }

  /** The parsed keys are exactly the keys of the non-empty pieces, and a
      piece whose key no later piece repeats supplies that key's value. */
  lemma {:induction false} EnvPairsLastWins(ps: seq<string>, i: nat)
    requires EnvPairs(ps).Ok?
    requires i < |ps| && ps[i] != [] && WellFormedPiece(ps[i])
    requires forall j :: i < j < |ps| && ps[j] != [] && WellFormedPiece(ps[j]) ==> KeyOf(ps[j]) != KeyOf(ps[i])
    ensures KeyOf(ps[i]) in EnvPairs(ps).value
    ensures EnvPairs(ps).value[KeyOf(ps[i])] == ValOf(ps[i])
  {
    if i > 0 {
      forall j | i - 1 < j < |ps[1..]| && ps[1..][j] != [] && WellFormedPiece(ps[1..][j])
        ensures KeyOf(ps[1..][j]) != KeyOf(ps[1..][i - 1])
      {
        assert ps[1..][j] == ps[j + 1];
      }
      EnvPairsLastWins(ps[1..], i - 1);
    } else {
      EnvPairsKeys(ps[1..]);
      forall j | 0 <= j < |ps[1..]| && ps[1..][j] != [] && WellFormedPiece(ps[1..][j])
        ensures KeyOf(ps[1..][j]) != KeyOf(ps[0])
      {
        assert ps[1..][j] == ps[j + 1];
      }
      assert KeyOf(ps[0]) !in EnvPairs(ps[1..]).value;
    }
  }

  /** Every parsed key comes from a non-empty piece. */
  lemma {:induction false} EnvPairsKeys(ps: seq<string>)
    requires EnvPairs(ps).Ok?
    ensures forall k :: k in EnvPairs(ps).value <==>
      exists i :: 0 <= i < |ps| && ps[i] != [] && WellFormedPiece(ps[i]) && KeyOf(ps[i]) == k
  {
    if ps != [] {
      EnvPairsKeys(ps[1..]);
      forall i | 1 <= i < |ps| ensures ps[1..][i - 1] == ps[i] {
      }
    }
  }

  /** `_make_env`: the supervisor's environment, the marker
      LK_FLOW_ENABLED=1, then the task's pieces over both. */
  function Environment(base: map<string, string>, environment: Option<string>): (r: Result<map<string, string>>)
    ensures !Truthy(environment) ==> r == Ok(base[Marker := "1"])
    ensures r.Ok? ==> base.Keys + {Marker} <= r.value.Keys
    ensures r.Ok? && Truthy(environment) ==>
      var ps := SplitOn(Strip(environment.value), ";");
      EnvPairs(ps).Ok? && r.value == base[Marker := "1"] + EnvPairs(ps).value
    ensures r.Err? ==> Truthy(environment) && r.error.ValueError?
  {
    var env := base[Marker := "1"];
    if !Truthy(environment) then Ok(env)
    else
      EnvPairsErrIsValueError(SplitOn(Strip(environment.value), ";"));
      match EnvPairs(SplitOn(Strip(environment.value), ";"))
      case Err(e) => Err(e)
      case Ok(m) => Ok(env + m)
  }

  lemma {:induction false} EnvPairsErrIsValueError(ps: seq<string>)
    ensures EnvPairs(ps).Err? ==> EnvPairs(ps).error.ValueError?
  {
    if ps != [] {
      EnvPairsErrIsValueError(ps[1..]);
    }
  }

  /** `environment.strip().split(";")`. */
  function Pieces(environment: string): seq<string>
  {
    SplitOn(Strip(environment), ";")
  }

  /** No well-formed non-empty piece sets key `k`. */
  predicate KeyUnset(ps: seq<string>, k: string)
  {
    forall i :: 0 <= i < |ps| && ps[i] != [] && WellFormedPiece(ps[i]) ==> KeyOf(ps[i]) != k
  }

  lemma {:induction false} EnvPairsAbsent(ps: seq<string>, k: string)
    requires EnvPairs(ps).Ok? && KeyUnset(ps, k)
    ensures k !in EnvPairs(ps).value
  {
    if ps != [] {
      assert KeyUnset(ps[1..], k) by {
        forall i | 0 <= i < |ps[1..]| ensures ps[1..][i] == ps[i + 1] { }
      }
      EnvPairsAbsent(ps[1..], k);
    }
  }

  /** The marker is "1" unless one of the task's own pieces sets it. */
  lemma MarkerSet(base: map<string, string>, environment: Option<string>)
    requires Environment(base, environment).Ok?
    requires Truthy(environment) ==> KeyUnset(Pieces(environment.value), Marker)
    ensures Environment(base, environment).value[Marker] == "1"
  {
    if Truthy(environment) {
      EnvPairsAbsent(Pieces(environment.value), Marker);
    }
  }

  /** `_make_env` with its loop: builds the parsed dict piece by piece. */
  method MakeEnv(base: map<string, string>, environment: Option<string>) returns (r: Result<map<string, string>>)
    ensures r == Environment(base, environment)
  {
    var env := base[Marker := "1"];
    if !Truthy(environment) {
      return Ok(env);
    }
    var pieces := SplitOn(Strip(environment.value), ";");
    var parsed: map<string, string> := map[];
    var i := 0;
    while i < |pieces|
      invariant 0 <= i <= |pieces|
      invariant EnvPairs(pieces[..i]) == Ok(parsed)
    {
      EnvPairsStep(pieces, i, parsed);
      if pieces[i] != [] {
        var kv := SplitOn(pieces[i], "=");
        if |kv| != 2 {
          EnvPairsPrefixErr(pieces, i + 1);
          return Err(UnpackError(pieces[i]));
        }
        parsed := parsed[kv[0] := kv[1]];
      }
      i := i + 1;
    }
    assert pieces[..i] == pieces;
    r := Ok(env + parsed);
  }

  /** One piece of the `_make_env` loop: an empty piece is passed over, a
      malformed one ends the whole parse with its error, a well-formed one
      sets its key. */
  lemma EnvPairsStep(pieces: seq<string>, i: nat, parsed: map<string, string>)
    requires i < |pieces| && EnvPairs(pieces[..i]) == Ok(parsed)
    ensures pieces[i] != [] && !WellFormedPiece(pieces[i]) ==> EnvPairs(pieces[..i + 1]) == Err(UnpackError(pieces[i]))
    ensures pieces[i] == [] ==> EnvPairs(pieces[..i + 1]) == Ok(parsed)
    ensures pieces[i] != [] && WellFormedPiece(pieces[i]) ==>
      EnvPairs(pieces[..i + 1]) == Ok(parsed[KeyOf(pieces[i]) := ValOf(pieces[i])])
  {
    EnvPairsSnoc(pieces[..i], pieces[i]);
    assert pieces[..i + 1] == pieces[..i] + [pieces[i]];
  }

  /** An error in a prefix is the error of the whole. */
  lemma {:induction false} EnvPairsPrefixErr(ps: seq<string>, n: nat)
    requires n <= |ps| && EnvPairs(ps[..n]).Err?
    ensures EnvPairs(ps) == EnvPairs(ps[..n])
  {
    if ps != [] && n > 0 {
      assert ps[..n][1..] == ps[1..][..n - 1];
      if ps[0] != [] && WellFormedPiece(ps[0]) {
        EnvPairsPrefixErr(ps[1..], n - 1);
      } else if ps[0] == [] {
        EnvPairsPrefixErr(ps[1..], n - 1);
      }
    }
  }

  // ---------------------------------------------------------------------
  // _check_filename_exist

  const SearchDirs: seq<string> := ["/bin", "/usr/bin", "/usr/local/bin"]

  /** The position of the first of `dirs` under which `filename` is one of
      `hits`; `|dirs|` when there is none. */
  function FirstIndex(dirs: seq<string>, filename: string, hits: set<string>): (i: nat)
    ensures i <= |dirs|
  {
    if dirs == [] then 0
    else if Join(dirs[0], filename) in hits then 0
    else 1 + FirstIndex(dirs[1..], filename, hits)
  }

  /** FirstIndex is the first directory holding a hit. */
  lemma {:induction false} FirstIndexSpec(dirs: seq<string>, filename: string, hits: set<string>)
    ensures forall j :: 0 <= j < FirstIndex(dirs, filename, hits) ==> Join(dirs[j], filename) !in hits
    ensures FirstIndex(dirs, filename, hits) < |dirs| ==> Join(dirs[FirstIndex(dirs, filename, hits)], filename) in hits
  {
    if dirs != [] && Join(dirs[0], filename) !in hits {
      FirstIndexSpec(dirs[1..], filename, hits);
      forall j | 1 <= j < FirstIndex(dirs, filename, hits)
        ensures Join(dirs[j], filename) !in hits
      {
        assert dirs[j] == dirs[1..][j - 1];
      }
      if FirstIndex(dirs, filename, hits) < |dirs| {
        assert dirs[FirstIndex(dirs, filename, hits)] == dirs[1..][FirstIndex(dirs[1..], filename, hits)];
      }
    }
  }

  /** The OSError that os.stat raises for `path` when the error is not
      FileNotFoundError (the loop catches only that one). */
  function StatFailure(path: string): Error
  {
    OSError("os.stat failed: " + path)
  }

  /** Where `filename` resolves: itself when it names a path ('/' in it),
      else the first standard binary directory where os.stat does not raise
      FileNotFoundError. os.stat succeeding gives the path; it raising any
      other OSError ends the lookup with that error. */
  function Resolve(filename: string, command: string, host: Host): (r: Result<string>)
    ensures r.Ok? ==> r.value in host.paths
    ensures r.Err? ==> r.error.RunError? || r.error.OSError?
    ensures '/' in filename ==> (r.Ok? <==> filename in host.paths) && (r.Ok? ==> r.value == filename)
    ensures '/' in filename && r.Err? ==> (r.error.OSError? <==> filename in host.statErrors)
    ensures '/' !in filename ==>
      (r.Err? && r.error.RunError? <==>
        forall i :: 0 <= i < |SearchDirs| ==> Join(SearchDirs[i], filename) !in host.paths + host.statErrors)
    ensures '/' !in filename && r.Ok? ==>
      exists i :: 0 <= i < |SearchDirs| && r.value == Join(SearchDirs[i], filename)
        && forall j :: 0 <= j < i ==> Join(SearchDirs[j], filename) !in host.paths + host.statErrors
    ensures '/' !in filename && r.Err? && r.error.OSError? ==>
      exists i :: 0 <= i < |SearchDirs| && r.error == StatFailure(Join(SearchDirs[i], filename))
        && Join(SearchDirs[i], filename) in host.statErrors - host.paths
        && forall j :: 0 <= j < i ==> Join(SearchDirs[j], filename) !in host.paths + host.statErrors
  {
    if '/' in filename then
      if filename in host.paths then Ok(filename)
      else if filename in host.statErrors then Err(StatFailure(filename))
      else Err(RunError("未找到命令" + command))
    else
      FirstIndexSpec(SearchDirs, filename, host.paths + host.statErrors);
      var i := FirstIndex(SearchDirs, filename, host.paths + host.statErrors);
      if i == |SearchDirs| then Err(RunError("命令必须包含路径符'/'"))
      else if Join(SearchDirs[i], filename) in host.paths then Ok(Join(SearchDirs[i], filename))
      else Err(StatFailure(Join(SearchDirs[i], filename)))
  }

  /** `_check_filename_exist` with its loop over the search directories. */
  method CheckFilenameExist(filename: string, command: string, host: Host) returns (r: Result<string>)
    ensures r == Resolve(filename, command, host)
  {
    if '/' in filename {
      if filename in host.paths {
        return Ok(filename);
      } else if filename in host.statErrors {
        return Err(StatFailure(filename));
      }
      return Err(RunError("未找到命令" + command));
    }
    FirstIndexSpec(SearchDirs, filename, host.paths + host.statErrors);
    ghost var first := FirstIndex(SearchDirs, filename, host.paths + host.statErrors);
    var k := 0;
    while k < |SearchDirs|
      invariant 0 <= k <= first
    {
      var path := Join(SearchDirs[k], filename);
      if path in host.paths {
        return Ok(path);
      } else if path in host.statErrors {
        return Err(StatFailure(path));
      }
      k := k + 1;
    }
    return Err(RunError("命令必须包含路径符'/'"));
  }

  // ---------------------------------------------------------------------
  // _prepare_start

  /** The command split: whitespace-split when the command holds a space
      (an all-blank command cannot be unpacked), else taken whole. */
  function SplitCommand(command: string): (r: Result<(string, seq<string>)>)
    ensures ' ' !in command ==> r == Ok((command, []))
    ensures ' ' in command && r.Ok? ==> [r.value.0] + r.value.1 == SplitWs(command)
    ensures r.Err? <==> ' ' in command && SplitWs(command) == []
  {
    if ' ' in command then
      var parts := SplitWs(command);
      if parts == [] then Err(ValueError("not enough values to unpack (expected at least 1, got 0)"))
      else Ok((parts[0], parts[1..]))
    else Ok((command, []))
  }

  datatype Launch = Launch(filename: string, argv: seq<string>, env: map<string, string>)

  /** `os.chdir(directory)` succeeds (or there is no directory). */
  predicate EntersDirectory(t: Task, host: Host)
  {
    t.directory.None? || t.directory.value in host.dirs
  }

  /** `_prepare_start` without its last assignment: the directory check,
      the environment, the command check, the split, the lookup, in that
      order; the first failure is the result. */
  function PrepareStart(t: Task, host: Host): (r: Result<Launch>)
    ensures
      var env := Environment(host.environ, t.environment);
      var split := if t.command.Some? then SplitCommand(t.command.value) else Err(RunError(""));
      var path := if split.Ok? then Resolve(split.value.0, t.command.value, host) else Err(RunError(""));
      && (r.Ok? <==> EntersDirectory(t, host) && env.Ok? && t.command.Some? && split.Ok? && path.Ok?)
      && (r.Ok? ==> r.value == Launch(path.value, split.value.1, env.value))
      && (!EntersDirectory(t, host) ==> r.Err? && r.error.RunError?)
      && (EntersDirectory(t, host) && env.Err? ==> r == Err(env.error))
      && (EntersDirectory(t, host) && env.Ok? && t.command.None? ==> r.Err? && r.error.RunError?)
      && (EntersDirectory(t, host) && env.Ok? && t.command.Some? && split.Err? ==> r == Err(split.error))
      && (EntersDirectory(t, host) && env.Ok? && t.command.Some? && split.Ok? && path.Err? ==> r == Err(path.error))
  {
    if !EntersDirectory(t, host) then
      Err(RunError("couldn't chdir to " + t.directory.value))
    else match Environment(host.environ, t.environment)
      case Err(e) => Err(e)
      case Ok(env) =>
        if t.command.None? then Err(RunError("No command for " + t.name))
        else match SplitCommand(t.command.value)
          case Err(e) => Err(e)
          case Ok((filename, argv)) =>
            match Resolve(filename, t.command.value, host)
            case Err(e) => Err(e)
            case Ok(path) => Ok(Launch(path, argv, env))
  }

  /** What `start` raises: the preparation's error, else the spawn's. */
  function StartResult(t: Task, host: Host, spawn: Result<int>): Result<()>
  {
    if PrepareStart(t, host).Err? then Err(PrepareStart(t, host).error)
    else if spawn.Err? then Err(spawn.error)
    else Ok(())
  }

  // ---------------------------------------------------------------------
  // _format_log_file

  /** Where a log file goes: the default `<log dir>/<name>/<name>_<suffix>`
      when none is configured; a relative path is placed under the log
      directory; a configured path whose directory does not exist is a
      DictionaryNotExist. */
  function FormatLogFile(source: Option<string>, suffix: string, name: string, host: Host): (r: Result<string>)
    ensures source.None? ==> r == Ok(Join(Join(host.logSaveDir, name), name + "_" + suffix))
    ensures source.Some? ==>
      var full := if IsAbs(source.value) then source.value else Join(host.logSaveDir, source.value);
      (r.Ok? <==> Dirname(full) in host.paths) && (r.Ok? ==> r.value == full)
    ensures r.Err? ==> r.error.DictionaryNotExist?
  {
    match source
    case None => Ok(Join(Join(host.logSaveDir, name), name + "_" + suffix))
    case Some(p) =>
      var full := if IsAbs(p) then p else Join(host.logSaveDir, p);
      if Dirname(full) !in host.paths then Err(DictionaryNotExist(Dirname(full) + " not exists"))
      else Ok(full)
  }

  // ---------------------------------------------------------------------
  // The process and its manager

  /** An asyncio subprocess handle: `returncode` is None until the OS has
      reaped the child. */
  class ProcessHandle {
    const pid: int
    var returncode: Option<int>

    constructor (pid: int)
      ensures this.pid == pid && returncode.None?
    {
      this.pid := pid;
      returncode := None;
    }

    /** The child terminates and is reaped. */
    method Exit(code: int)
      requires returncode.None?
      modifies this
      ensures returncode == Some(code)
    {
      returncode := Some(code);
    }
  }

  class SubProcess {
    const config: Task
    const name: string
    const stdoutLogfile: string
    const stderrLogfile: string
    var pid: Option<int>
    var state: ProcessStatus
    var exitCode: Option<int>
    var process: ProcessHandle?
    var lastStart: Option<int>
    var lastStop: Option<int>
    /** Handles whose watcher coroutine is still pending (neither finished
        nor cancelled). */
    ghost var watched: set<ProcessHandle>

    /** A pid is held only for the current handle, and only while running. */
    ghost predicate Valid()
      reads this
    {
      pid.Some? ==> process != null && pid.value == process.pid && state == Running
    }

    /** `__init__` once both log paths are known. */
    constructor Init(config: Task, stdoutLogfile: string, stderrLogfile: string)
      ensures Valid()
      ensures this.config == config && name == config.name
      ensures this.stdoutLogfile == stdoutLogfile && this.stderrLogfile == stderrLogfile
      ensures pid.None? && state == Sleeping && exitCode.None? && process == null
      ensures lastStart.None? && lastStop.None? && watched == {}
    {
      this.config := config;
      name := config.name;
      this.stdoutLogfile := stdoutLogfile;
      this.stderrLogfile := stderrLogfile;
      pid := None;
      state := Sleeping;
      exitCode := None;
      process := null;
      lastStart := None;
      lastStop := None;
      watched := {};
    }

    /** `SubProcess(config)` with the Task's log-path fields completed:
        formats both log paths (stdout first), then builds a sleeping
        manager. */
    static method New(config: Task, host: Host) returns (r: Result<SubProcess>)
      ensures r.Err? ==> (FormatLogFile(config.stdoutLogfile, "out.log", config.name, host).Err?
                          || FormatLogFile(config.stderrLogfile, "err.log", config.name, host).Err?)
      ensures r.Err? ==>
        var out := FormatLogFile(config.stdoutLogfile, "out.log", config.name, host);
        r.error == (if out.Err? then out.error else FormatLogFile(config.stderrLogfile, "err.log", config.name, host).error)
      ensures r.Ok? ==> fresh(r.value) && r.value.Valid() && r.value.config == config
      ensures r.Ok? ==> r.value.pid.None? && r.value.state == Sleeping && r.value.exitCode.None?
      ensures r.Ok? ==> r.value.process == null && r.value.watched == {}
      ensures r.Ok? ==> Ok(r.value.stdoutLogfile) == FormatLogFile(config.stdoutLogfile, "out.log", config.name, host)
      ensures r.Ok? ==> Ok(r.value.stderrLogfile) == FormatLogFile(config.stderrLogfile, "err.log", config.name, host)
    {
      var out := FormatLogFile(config.stdoutLogfile, "out.log", config.name, host);
      if out.Err? {
        return Err(out.error);
      }
      var err := FormatLogFile(config.stderrLogfile, "err.log", config.name, host);
      if err.Err? {
        return Err(err.error);
      }
      var p := new SubProcess.Init(config, out.value, err.value);
      return Ok(p);
    }

    /** `is_running`: a handle exists and has no returncode yet. For a
        manager holding a pid, that is whether its child is still unreaped. */
    predicate IsRunning(): (b: bool)
      reads this, process
      ensures b ==> process != null
      ensures Valid() && pid.Some? ==> (b <==> process.returncode.None?)
    {
      process != null && process.returncode.None?
    }

    /** `start`, with the watcher's first step (state and start time) run
        at once: prepare, drop the old handle, spawn a fresh child and watch
        it. A failed preparation changes nothing; `exitCode` is reset only
        after every check passed. A failed spawn raises its OSError after
        the old handle is dropped, leaving `pid` and `state` as they were. */
    method Start(host: Host, spawn: Result<int>, now: int) returns (r: Result<()>)
      modifies this
      ensures r == StartResult(config, host, spawn)
      ensures old(Valid()) && (old(pid).None? || PrepareStart(config, host).Err?) ==> Valid()
      ensures r.Ok? ==> Valid()
      ensures PrepareStart(config, host).Err? ==>
        (pid == old(pid) && state == old(state) && exitCode == old(exitCode)
         && process == old(process) && lastStart == old(lastStart) && watched == old(watched))
      ensures PrepareStart(config, host).Ok? ==> exitCode.None?
      ensures PrepareStart(config, host).Ok? && spawn.Err? ==>
        (process == null && pid == old(pid) && state == old(state)
         && lastStart == old(lastStart) && watched == old(watched))
      ensures r.Ok? ==> fresh(process) && process.returncode.None? && process.pid == spawn.value
      ensures r.Ok? ==> pid == Some(spawn.value) && state == Running && lastStart == Some(now)
      ensures r.Ok? ==> watched == old(watched) + {process}
      ensures lastStop == old(lastStop)
    {
      var prepared := PrepareStart(config, host);
      if prepared.Err? {
        return Err(prepared.error);
      }
      exitCode := None;
      process := null;
      if spawn.Err? {
        return Err(spawn.error);
      }
      Spawn(spawn.value, now);
      r := Ok(());
    }

    /** The part of `start` after a successful spawn: hold the fresh
        handle, watch it, and enter the running state. */
    method Spawn(newPid: int, now: int)
      modifies this
      ensures Valid()
      ensures fresh(process) && process.returncode.None? && process.pid == newPid
      ensures pid == Some(newPid) && state == Running && lastStart == Some(now)
      ensures watched == old(watched) + {process}
      ensures exitCode == old(exitCode) && lastStop == old(lastStop)
    {
      var h := new ProcessHandle(newPid);
      process := h;
      pid := Some(newPid);
      watched := watched + {h};
      state := Running;
      lastStart := Some(now);
    }

    /** The watcher's completion for handle `h`: the exit code and stop time
        are always recorded; only when `h` is still the current handle is
        the pid cleared, the exit state set and TASK_FINISH or
        TASK_RUNNING_ERROR published with the task name; what a listener
        raises there leaves the watcher (`r`). The handle need not be the
        current one: a failed spawn drops the current handle but leaves the
        pid, and the old child's watcher still completes afterwards. */
    method OnExit(h: ProcessHandle, now: int, bus: EventBus, verdict: Verdict) returns (r: Result<()>)
      requires h in watched && h.returncode.Some?
      modifies this, bus
      ensures old(Valid() || process == h) ==> Valid()
      ensures exitCode == h.returncode && lastStop == Some(now) && watched == old(watched) - {h}
      ensures process == old(process) && lastStart == old(lastStart)
      ensures bus.listeners == old(bus.listeners) || old(process) == h
      ensures old(process) == h ==>
        (pid.None? && state == (if h.returncode.value == 0 then ExitNormal else ExitError)
         && |bus.published| == |old(bus.published)| + 1
         && bus.published[..|old(bus.published)|] == old(bus.published)
         && bus.published[|old(bus.published)|].event == ExitEvent(name, h.returncode.value)
         && r == Raised(old(bus.Handlers(ExitEvent(name, h.returncode.value).eventType)),
                        ExitEvent(name, h.returncode.value), verdict))
      ensures old(process) != h ==>
        (r.Ok? && pid == old(pid) && state == old(state)
         && bus.published == old(bus.published) && bus.listeners == old(bus.listeners))
    {
      exitCode := h.returncode;
      lastStop := Some(now);
      watched := watched - {h};
      r := Ok(());
      if process == h {
        pid := None;
        state := if h.returncode.value == 0 then ExitNormal else ExitError;
        var invoked;
        r, invoked := bus.Publish(ExitEvent(name, h.returncode.value), verdict);
      }
    }

    /** `stop`: nothing unless running; otherwise cancel the watcher, record
        the stop time and kill the child. The kill looks up the pid, which a
        previous stop of the same, not yet reaped, child already cleared:
        that second stop fails with TypeError. A manager whose handle was
        dropped by a failed spawn is not running, so stopping it does
        nothing, even though it still holds a pid. */
    method Stop(now: int) returns (r: Result<()>)
      modifies this
      ensures old(Valid() || IsRunning()) ==> Valid()
      ensures process == old(process) && exitCode == old(exitCode) && lastStart == old(lastStart)
      ensures !old(IsRunning()) ==>
        (r.Ok? && pid == old(pid) && state == old(state) && lastStop == old(lastStop) && watched == old(watched))
      ensures old(IsRunning()) ==> lastStop == Some(now) && watched == old(watched) - {process}
      ensures old(IsRunning()) && old(pid).Some? ==> r.Ok? && pid.None? && state == Stopped
      ensures old(IsRunning()) && old(pid).None? ==> r.Err? && r.error.TypeError? && pid.None? && state == old(state)
    {
      if IsRunning() {
        lastStop := Some(now);
        watched := watched - {process};
        if pid.None? {
          return Err(TypeError("an integer is required (got type NoneType)"));
        }
        pid := None;
        state := Stopped;
      }
      r := Ok(());
    }

    /** `restart`: stop, then start. A stop that fails ends it; otherwise
        the result is the start's. A manager that is not running keeps its
        pid and state through the stop, so after a failed spawn it may hold
        a pid with no handle. */
    method Restart(host: Host, spawn: Result<int>, now: int) returns (r: Result<()>)
      modifies this
      ensures old(pid.None? || IsRunning()) ==> Valid()
      ensures old(IsRunning() && pid.None?) ==>
        r.Err? && r.error.TypeError? && state == old(state) && process == old(process)
        && pid == old(pid) && exitCode == old(exitCode) && lastStop == Some(now)
      ensures !old(IsRunning() && pid.None?) ==> r == StartResult(config, host, spawn)
      ensures r.Ok? ==> Valid() && state == Running && pid == Some(spawn.value) && fresh(process)
      ensures r.Err? && !old(IsRunning() && pid.None?) ==>
        pid == (if old(IsRunning()) then None else old(pid))
        && state == (if old(IsRunning()) then Stopped else old(state))
        && lastStop == (if old(IsRunning()) then Some(now) else old(lastStop))
        && lastStart == old(lastStart)
        && (PrepareStart(config, host).Err? ==> process == old(process) && exitCode == old(exitCode))
        && (PrepareStart(config, host).Ok? ==> process == null && exitCode.None?)
    {
      r := Stop(now);
      if r.Err? {
        return;
      }
      r := Start(host, spawn, now);
    }
  }

  /** `SubProcess(config)` over the Task that tasks.py declares: the
      constructor reads `config.name` and then `config.stdout_logfile`,
      which that Task does not have, so it raises AttributeError before any
      log path is formatted. */
  function NewAsWritten(config: Task): (r: Result<()>)
    ensures r == Err(AttributeError("stdout_logfile"))
  {
    match FieldAsWritten("name")
    case Err(e) => Err(e)
    case Ok(_) =>
      match FieldAsWritten("stdout_logfile")
      case Err(e) => Err(e)
      case Ok(_) => FieldAsWritten("stderr_logfile")
  }

  /** The event a watcher publishes for the current handle's exit. */
  function ExitEvent(name: string, code: int): (e: Event)
    ensures e.eventType == (if code == 0 then TaskFinish else TaskRunningError)
    ensures Get(e, "task_name") == Some(Text(name))
  {
    NewEvent(if code == 0 then TaskFinish else TaskRunningError, map["task_name" := Text(name)])
  }
}
