/** Spawn-parameter defaulting and command assembly, in the two revisions
    the program carries: shared/spawn.go (used by the daemon) and
    app/spawn.go (the older client-side spawner). Opening the log files,
    starting and releasing the OS process and writing the PID file are
    effects outside the model; `PATH` lookup is a parameter. Every error
    modelled here is logged with `Fatal`, which exits the program; an
    `Err` result stands for that exit. The older spawner's later failures
    (marshalling, the PID file, release, start) log an error and return
    nil instead; they come after the part modelled here. */
module Spawn {
  import opened Wrappers
  import opened GoStrings

  /** shared/spawn.go's `SpawnParams` (without the logger and open files). */
  datatype SpawnParams = SpawnParams(
    name: string,
    executablePath: string,
    args: seq<string>,
    cwd: string,
    autoRestart: bool,
    pidFilePath: string,
    logFilePath: string,
    errFilePath: string)

  datatype SpawnError =
    | ExecutablePathRequired   // `fillDefaults` rejects an empty executable path
    | PythonArgsIndexPanic     // the python check indexes `Args[0]` of an empty list
    | ExecutableNotFound       // `exec.LookPath` fails

  /** Where a process's PID file and two log files live: under the main
      directory, named after the lower-cased process name. */
  function PidFileFor(mainDir: string, name: string): string {
    PathJoin([mainDir, "pids", ToLower(name) + ".pid"])
  }

  function OutLogFor(mainDir: string, name: string): string {
    PathJoin([mainDir, "logs", ToLower(name) + "-out.log"])
  }

  function ErrLogFor(mainDir: string, name: string): string {
    PathJoin([mainDir, "logs", ToLower(name) + "-err.log"])
  }

  /** shared/spawn.go `fillDefaults`. `workDir` is what `os.Getwd` returns
      (its error is ignored, giving ""). */
  function FillDefaults(p: SpawnParams, mainDir: string, workDir: string): (r: Result<SpawnParams, SpawnError>)
    ensures r.Err? <==> p.executablePath == ""
    ensures r.Err? ==> r.error == ExecutablePathRequired
    ensures r.Ok? ==> r.value.name == (if p.name == "" then ToLower(p.executablePath) else p.name)
    ensures r.Ok? ==> r.value.cwd == (if p.cwd == "" then workDir else p.cwd)
    ensures r.Ok? ==> r.value.executablePath == p.executablePath && r.value.args == p.args
    ensures r.Ok? ==> r.value.autoRestart == p.autoRestart
    ensures r.Ok? ==> r.value.pidFilePath == PidFileFor(mainDir, r.value.name)
    ensures r.Ok? ==> r.value.logFilePath == OutLogFor(mainDir, r.value.name)
    ensures r.Ok? ==> r.value.errFilePath == ErrLogFor(mainDir, r.value.name)
  {
    if p.executablePath == "" then Err(ExecutablePathRequired)
    else
      var name := if p.name == "" then ToLower(p.executablePath) else p.name;
      var cwd := if p.cwd == "" then workDir else p.cwd;
      Ok(p.(name := name, cwd := cwd,
            pidFilePath := PidFileFor(mainDir, name),
            logFilePath := OutLogFor(mainDir, name),
            errFilePath := ErrLogFor(mainDir, name)))
  }

  /** Filling in defaults a second time changes nothing. */
  lemma FillDefaultsIdempotent(p: SpawnParams, mainDir: string, workDir: string)
    requires FillDefaults(p, mainDir, workDir).Ok?
    ensures var q := FillDefaults(p, mainDir, workDir).value;
            FillDefaults(q, mainDir, workDir) == Ok(q)
  {
    var q := FillDefaults(p, mainDir, workDir).value;
    if p.name == "" {
      ToLowerIdempotent(p.executablePath);
      assert q.name != "";
    }
  }

  /** Names that differ only in (ASCII) case share their three files. */
  lemma PathsIgnoreCase(mainDir: string, a: string, b: string)
    requires ToLower(a) == ToLower(b)
    ensures PidFileFor(mainDir, a) == PidFileFor(mainDir, b)
    ensures OutLogFor(mainDir, a) == OutLogFor(mainDir, b)
    ensures ErrLogFor(mainDir, a) == ErrLogFor(mainDir, b)
  {
  }

  lemma LowerKeepsSlashFree(name: string)
    requires '/' !in name
    ensures '/' !in ToLower(name)
  {
    var lower := ToLower(name);
    forall i | 0 <= i < |lower| ensures lower[i] != '/' {
      assert lower[i] == LowerChar(name[i]);
    }
  }

  lemma PlainSuffixed(s: string, suffix: string)
    requires '/' !in s
    requires suffix == ".pid" || suffix == "-out.log" || suffix == "-err.log"
    ensures PlainSegment(s + suffix)
  {
    var t := s + suffix;
    assert t[|t| - 1] == suffix[|suffix| - 1];
    assert '/' !in suffix;
  }

  lemma SubdirsArePlain()
    ensures PlainSegment("pids") && PlainSegment("logs")
  {
    var p := "pids";
    var l := "logs";
    assert forall i | 0 <= i < |p| :: p[i] != '/';
    assert forall i | 0 <= i < |l| :: l[i] != '/';
    assert p[0] != '.' && l[0] != '.';
  }

  lemma PlainFileJoin(dirSegs: seq<string>, sub: string, name: string, suffix: string)
    requires |dirSegs| >= 1
    requires forall k | 0 <= k < |dirSegs| :: PlainSegment(dirSegs[k])
    requires sub == "pids" || sub == "logs"
    requires suffix == ".pid" || suffix == "-out.log" || suffix == "-err.log"
    requires '/' !in name
    ensures var mainDir := "/" + JoinWith(dirSegs, '/');
            PathJoin([mainDir, sub, ToLower(name) + suffix]) == mainDir + "/" + sub + "/" + (ToLower(name) + suffix)
  {
    var lower := ToLower(name);
    var file := lower + suffix;
    LowerKeepsSlashFree(name);
    PlainSuffixed(lower, suffix);
    SubdirsArePlain();
    PathJoinPlain(dirSegs, sub, file);
  }

  /** A name free of "/" under a clean absolute main directory lands
      directly in the `pids` and `logs` sub-directories. */
  lemma PathsArePlainJoins(dirSegs: seq<string>, name: string)
    requires |dirSegs| >= 1
    requires forall k | 0 <= k < |dirSegs| :: PlainSegment(dirSegs[k])
    requires '/' !in name
    ensures var mainDir := "/" + JoinWith(dirSegs, '/');
            && PidFileFor(mainDir, name) == mainDir + "/" + "pids" + "/" + (ToLower(name) + ".pid")
            && OutLogFor(mainDir, name) == mainDir + "/" + "logs" + "/" + (ToLower(name) + "-out.log")
            && ErrLogFor(mainDir, name) == mainDir + "/" + "logs" + "/" + (ToLower(name) + "-err.log")
  {
    PlainFileJoin(dirSegs, "pids", name, ".pid");
    PlainFileJoin(dirSegs, "logs", name, "-out.log");
    PlainFileJoin(dirSegs, "logs", name, "-err.log");
  }

  /** The last element of a slash-separated path. */
  function BaseName(path: string): string {
    var parts := SplitOn(path, '/');
    parts[|parts| - 1]
  }

  /** The part of `SpawnNewProcess` that runs before the OS is asked to
      start anything: the command line and working directory to use. */
  datatype Launch = Launch(
    params: SpawnParams,     // the filled parameters, executable resolved
    argv: seq<string>,       // the argument vector handed to the OS
    warnUnbuffered: bool)    // python started without "-u": a warning only

  /** shared/spawn.go `SpawnNewProcess` up to `os.StartProcess`: defaults,
      the python buffering check (which indexes `Args[0]` without a length
      check), `PATH` resolution, and the argument vector. */
  function PrepareSpawn(p: SpawnParams, mainDir: string, workDir: string, lookPath: string -> Option<string>): (r: Result<Launch, SpawnError>)
    ensures p.executablePath == "" ==> r == Err(ExecutablePathRequired)
    ensures p.executablePath != "" && BaseName(p.executablePath) == "python" && |p.args| == 0 ==>
              r == Err(PythonArgsIndexPanic)
    ensures r.Ok? ==> lookPath(p.executablePath) == Some(r.value.params.executablePath)
    ensures r.Ok? ==> |r.value.argv| == |p.args| + 1
    ensures r.Ok? ==> r.value.argv[0] == r.value.params.executablePath && r.value.argv[1..] == p.args
    ensures r.Ok? ==> r.value.params == FillDefaults(p, mainDir, workDir).value.(executablePath := r.value.params.executablePath)
    ensures r.Ok? <==> p.executablePath != "" && !(BaseName(p.executablePath) == "python" && |p.args| == 0)
                        && lookPath(p.executablePath).Some?
    ensures r == Err(ExecutableNotFound) <==>
              p.executablePath != "" && !(BaseName(p.executablePath) == "python" && |p.args| == 0)
              && lookPath(p.executablePath).None?
    ensures r.Ok? ==> (r.value.warnUnbuffered <==> BaseName(p.executablePath) == "python" && p.args[0] != "-u")
  {
    match FillDefaults(p, mainDir, workDir)
    case Err(e) => Err(e)
    case Ok(q) =>
      if BaseName(q.executablePath) == "python" && |q.args| == 0 then Err(PythonArgsIndexPanic)
      else
        var warn := BaseName(q.executablePath) == "python" && q.args[0] != "-u";
        match lookPath(q.executablePath)
        case None => Err(ExecutableNotFound)
        case Some(resolved) =>
          Ok(Launch(q.(executablePath := resolved), [resolved] + q.args, warn))
  }

  /** app/spawn.go's `SpawnParams`: no working directory, no auto-restart. */
  datatype AppSpawnParams = AppSpawnParams(
    name: string,
    executablePath: string,
    args: seq<string>,
    pidFileName: string,
    logFileName: string,
    errFileName: string)

  /** app/spawn.go `fillDefaults`. */
  function FillAppDefaults(p: AppSpawnParams, mainDir: string): (r: Result<AppSpawnParams, SpawnError>)
    ensures r.Err? <==> p.executablePath == ""
    ensures r.Ok? ==> r.value.name == (if p.name == "" then ToLower(p.executablePath) else p.name)
    ensures r.Ok? ==> r.value.executablePath == p.executablePath && r.value.args == p.args
  {
    if p.executablePath == "" then Err(ExecutablePathRequired)
    else
      var name := if p.name == "" then ToLower(p.executablePath) else p.name;
      Ok(p.(name := name,
            pidFileName := PidFileFor(mainDir, name),
            logFileName := OutLogFor(mainDir, name),
            errFileName := ErrLogFor(mainDir, name)))
  }

  /** Both revisions derive the same three files from the same name. */
  lemma AppAndSharedAgreeOnPaths(p: SpawnParams, mainDir: string, workDir: string)
    requires p.executablePath != ""
    ensures var a := FillAppDefaults(AppSpawnParams(p.name, p.executablePath, p.args, "", "", ""), mainDir).value;
            var s := FillDefaults(p, mainDir, workDir).value;
            a.name == s.name && a.pidFileName == s.pidFilePath
            && a.logFileName == s.logFilePath && a.errFileName == s.errFilePath
  {
  }

  /** The command app/spawn.go starts, which runs in directory ".". */
  datatype AppLaunch = AppLaunch(params: AppSpawnParams, argv: seq<string>, dir: string)

  /** app/spawn.go `SpawnNewProcess` up to `os.StartProcess`. */
  function PrepareAppSpawn(p: AppSpawnParams, mainDir: string, lookPath: string -> Option<string>): (r: Result<AppLaunch, SpawnError>)
    ensures p.executablePath == "" ==> r == Err(ExecutablePathRequired)
    ensures p.executablePath != "" && lookPath(p.executablePath).None? ==> r == Err(ExecutableNotFound)
    ensures r.Ok? ==> |r.value.argv| == |p.args| + 1 && r.value.argv[1..] == p.args
    ensures r.Ok? ==> lookPath(p.executablePath) == Some(r.value.argv[0])
    ensures r.Ok? ==> r.value.dir == "."
    ensures r.Ok? <==> p.executablePath != "" && lookPath(p.executablePath).Some?
    ensures r.Ok? ==> r.value.params == FillAppDefaults(p, mainDir).value.(executablePath := r.value.argv[0])
  {
    match FillAppDefaults(p, mainDir)
    case Err(e) => Err(e)
    case Ok(q) =>
      match lookPath(q.executablePath)
      case None => Err(ExecutableNotFound)
      case Some(resolved) => Ok(AppLaunch(q.(executablePath := resolved), [resolved] + q.args, "."))
  }

  /** Apart from the python check, which only the daemon's revision has,
      the two spawners succeed on the same parameters and hand the OS the
      same argument vector. */
  lemma SharedAndAppLaunchAgree(p: SpawnParams, mainDir: string, workDir: string, lookPath: string -> Option<string>)
    requires !(BaseName(p.executablePath) == "python" && |p.args| == 0)
    ensures var s := PrepareSpawn(p, mainDir, workDir, lookPath);
            var a := PrepareAppSpawn(AppSpawnParams(p.name, p.executablePath, p.args, "", "", ""), mainDir, lookPath);
            && (s.Ok? <==> a.Ok?)
            && (s.Ok? ==> s.value.argv == a.value.argv && s.value.params.name == a.value.params.name)
            && (s.Err? ==> s.error == a.error)
  {
  }
}
