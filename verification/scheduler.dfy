/** One step of the gRPC daemon's scheduler (grpc/server/start_scheduler.go)
    for one entity: `syncProcess` with its `restartProcess`, and the
    counter arithmetic of `handleMaxLog`. A step sees the entity's record
    and the handle slot of its id; the liveness probe, the spawn result,
    the clock and the daemon's pid come in through `Env` and parameters. */
module Scheduler {
  import opened Wrappers
  import opened GoInt
  import Strconv
  import opened ProcTerms
  import opened PbProcess
  import opened Registry
  import ConfigCmd

  /** The entity after a step and the handle stored under its id.
      `Crashed` is the nil dereference in `restartProcess`: the daemon
      panics with the record in the state it had reached. */
  datatype Tick = Ran(p: Process, handle: Option<Handle>) | Crashed(p: Process, handle: Option<Handle>)

  /** The fields a restart or a sync never writes. */
  predicate SameDefinition(p: Process, q: Process) {
    && q.id == p.id && q.name == p.name && q.executablePath == p.executablePath
    && q.args == p.args && q.cwd == p.cwd && q.scripts == p.scripts
    && q.logFilePath == p.logFilePath && q.errFilePath == p.errFilePath
    && q.pidFilePath == p.pidFilePath && q.logFileCount == p.logFileCount
  }

  /** `restartProcess`. `spawned` is the pid `shared.SpawnNewProcess`
      started, `None` when it returned an error (with a nil process). The
      error branch has no `return`, so it falls through to
      `newProcess.Pid` and panics. */
  function RestartProcess(p: Process, spawned: Option<int>, env: Env): (t: Tick)
    ensures SameDefinition(p, t.p) && t.p.cronRestart == p.cronRestart
    ensures t.p.nextStartAt == p.nextStartAt
    ensures t.p.procStatus.restarts == p.procStatus.restarts + 1
    ensures t.Crashed? <==> spawned.None?
    ensures t.Crashed? ==>
              && !t.p.autoRestart && t.p.stopSignal
              && t.p.procStatus.status == Stopped && t.p.pid == 0 && t.p.procStatus.parentPid == 0
              && t.handle.None?
    ensures t.Ran? ==>
              && t.p.pid == spawned.value && t.p.procStatus.parentPid == Wrap32(env.daemonPid)
              && t.p.procStatus.status == Online
              && t.p.procStatus.uptime == 0 && t.p.procStatus.startedAt == env.now
              && t.p.autoRestart == p.autoRestart && t.p.stopSignal == p.stopSignal
              && t.p.procStatus.cpu == p.procStatus.cpu && t.p.procStatus.memory == p.procStatus.memory
              && (t.handle.Some? <==> env.live(spawned.value))
              && (t.handle.Some? ==> t.handle.value == Handle(spawned.value))
  {
    var p := IncreaseRestarts(p);
    match spawned
    case None =>
      var q := ResetPid(SetStatus(SetStopSignal(p.(autoRestart := false), true), Stopped));
      Crashed(q, None)
    case Some(pid) =>
      var q := SetStatus(p.(pid := pid, procStatus := p.procStatus.(parentPid := Wrap32(env.daemonPid))), Online);
      var handle := if env.live(pid) then Some(Handle(pid)) else None;
      Ran(InitStartedAt(InitUptime(q), env.now), handle)
  }

  /** The record after the probe of an online entity failed, before any
      restart. */
  function MarkExited(p: Process, now: int): (q: Process)
    ensures SameDefinition(p, q) && q.cronRestart == p.cronRestart && q.nextStartAt == p.nextStartAt
    ensures q.procStatus.status == Stopped && q.pid == 0 && q.procStatus.parentPid == 0
    ensures q.procStatus.cpu == ZeroCpu && q.procStatus.memory == ZeroMemory
    ensures q.procStatus.uptime == UpdateUptime(p, now).procStatus.uptime
    ensures q.procStatus.restarts == p.procStatus.restarts
    ensures q.procStatus.startedAt == p.procStatus.startedAt
    ensures q.autoRestart == p.autoRestart && q.stopSignal == p.stopSignal
  {
    ResetCpuMemory(SetStatus(ResetPid(UpdateUptime(p, now)), Stopped))
  }

  /** Whether a dead process is brought back by the scheduler. */
  predicate WantsRestart(p: Process) {
    p.autoRestart && !p.stopSignal
  }

  /** `syncProcess` for one entity whose handle slot holds `handle`. */
  function SyncProcess(p: Process, handle: Option<Handle>, spawned: Option<int>, env: Env): (t: Tick)
    ensures SameDefinition(p, t.p)
    ensures p.procStatus.status == Online && env.live(p.pid) ==>
              t == Ran(UpdateUptime(p, env.now), handle)
    ensures p.procStatus.status == Online && !env.live(p.pid) ==>
              if WantsRestart(p) then t == RestartProcess(MarkExited(p, env.now), spawned, env)
              else t == Ran(MarkExited(p, env.now), None)
    ensures p.procStatus.status != Online && p.nextStartAt.Some? && p.nextStartAt.value < env.now ==>
              t == match RestartProcess(p, spawned, env)
                   case Crashed(q, hd) => Crashed(q, hd)
                   case Ran(q, hd) => Ran(UpdateNextStartAt(q, env.cron, env.now).0, hd)
    ensures p.procStatus.status != Online && (p.nextStartAt.None? || p.nextStartAt.value >= env.now) ==>
              t == Ran(p, handle)
  {
    if p.procStatus.status == Online then
      if !env.live(p.pid) then
        var q := MarkExited(p, env.now);
        if WantsRestart(q) then RestartProcess(q, spawned, env) else Ran(q, None)
      else Ran(UpdateUptime(p, env.now), handle)
    else if p.nextStartAt.Some? && p.nextStartAt.value < env.now then
      match RestartProcess(p, spawned, env)
      case Crashed(q, hd) => Crashed(q, hd)
      case Ran(q, hd) => Ran(UpdateNextStartAt(q, env.cron, env.now).0, hd)
    else Ran(p, handle)
  }

  /** An online process that died and may not restart ends stopped, with
      pid and parent pid 0, no CPU or memory figures and no handle. */
  lemma ExitWithoutRestart(p: Process, handle: Option<Handle>, spawned: Option<int>, env: Env)
    requires p.procStatus.status == Online && !env.live(p.pid) && !WantsRestart(p)
    ensures var t := SyncProcess(p, handle, spawned, env);
            && t.Ran? && t.handle.None?
            && t.p.procStatus.status == Stopped && t.p.pid == 0 && t.p.procStatus.parentPid == 0
            && t.p.procStatus.cpu == ZeroCpu && t.p.procStatus.memory == ZeroMemory
            && t.p.procStatus.restarts == p.procStatus.restarts
  {
  }

  /** A restart attempt after an exit happens exactly when auto-restart is
      on and no stop was requested: the restart counter tells. */
  lemma RestartOnlyWhenWanted(p: Process, handle: Option<Handle>, spawned: Option<int>, env: Env)
    requires p.procStatus.status == Online && !env.live(p.pid)
    ensures var t := SyncProcess(p, handle, spawned, env);
            t.p.procStatus.restarts == p.procStatus.restarts + 1 <==> WantsRestart(p)
  {
  }

  /** An auto-restarting process that died is online again after one step
      with the new pid and one more restart, when the respawn succeeds. */
  lemma ExitWithRestart(p: Process, handle: Option<Handle>, pid: int, env: Env)
    requires p.procStatus.status == Online && !env.live(p.pid) && WantsRestart(p)
    ensures var t := SyncProcess(p, handle, Some(pid), env);
            && t.Ran? && t.p.procStatus.status == Online && t.p.pid == pid
            && t.p.procStatus.restarts == p.procStatus.restarts + 1
  {
  }

  /** A stopped entity whose cron activation has passed is respawned: when
      the spawn succeeds it is online with the new pid, one more restart and
      a handle iff the new pid is live, and its next activation is
      recomputed from the cron expression. */
  lemma CronDueRestarts(p: Process, handle: Option<Handle>, pid: int, env: Env)
    requires p.procStatus.status != Online && p.nextStartAt.Some? && p.nextStartAt.value < env.now
    ensures var t := SyncProcess(p, handle, Some(pid), env);
            && t.Ran? && t.p.procStatus.status == Online && t.p.pid == pid
            && t.p.procStatus.restarts == p.procStatus.restarts + 1
            && t.p.procStatus.parentPid == Wrap32(env.daemonPid)
            && (t.handle == if env.live(pid) then Some(Handle(pid)) else None)
            && (p.cronRestart != "" && env.cron.parses(p.cronRestart) ==>
                  t.p.nextStartAt == Some(env.cron.next(p.cronRestart, env.now)))
            && (p.cronRestart != "" && !env.cron.parses(p.cronRestart) ==>
                  t.p.cronRestart == "" && t.p.nextStartAt == p.nextStartAt)
  {
  }

  /** A cron-due entity whose respawn fails takes the daemon down with it,
      left stopped with no handle and auto-restart off. */
  lemma CronDueFailedSpawnCrashes(p: Process, handle: Option<Handle>, env: Env)
    requires p.procStatus.status != Online && p.nextStartAt.Some? && p.nextStartAt.value < env.now
    ensures var t := SyncProcess(p, handle, None, env);
            && t.Crashed? && t.handle.None? && t.p.procStatus.status == Stopped
            && !t.p.autoRestart && t.p.procStatus.restarts == p.procStatus.restarts + 1
  {
  }

  /** A live online process only gets its uptime refreshed. */
  lemma LiveOnlyUptime(p: Process, handle: Option<Handle>, spawned: Option<int>, env: Env)
    requires p.procStatus.status == Online && env.live(p.pid)
    ensures var t := SyncProcess(p, handle, spawned, env);
            t.Ran? && t.handle == handle &&
            t.p.(procStatus := t.p.procStatus.(uptime := p.procStatus.uptime)) == p
  {
  }

  /** The scheduler run for `n` ticks on one entity, with the probe, the
      spawn result and the clock of tick `k` given by `envs(k)` and
      `spawns(k)`. A crash ends the run. */
  function RunTicks(p: Process, handle: Option<Handle>, n: nat, spawns: nat -> Option<int>, envs: nat -> Env): Tick
  {
    if n == 0 then Ran(p, handle)
    else
      match RunTicks(p, handle, n - 1, spawns, envs)
      case Crashed(q, hd) => Crashed(q, hd)
      case Ran(q, hd) => SyncProcess(q, hd, spawns(n - 1), envs(n - 1))
  }

  /** A stopped entity with no cron schedule is left alone by every tick,
      so a process without auto-restart that died is never respawned. */
  lemma {:induction false} StoppedStaysStopped(p: Process, handle: Option<Handle>, n: nat,
                                               spawns: nat -> Option<int>, envs: nat -> Env)
    requires p.procStatus.status != Online && p.nextStartAt.None?
    ensures RunTicks(p, handle, n, spawns, envs) == Ran(p, handle)
  {
    if n > 0 {
      StoppedStaysStopped(p, handle, n - 1, spawns, envs);
    }
  }

  /** After the exit of a process that may not restart, and with no cron
      schedule, no number of later ticks brings it back. */
  lemma NoRespawnAfterExit(p: Process, handle: Option<Handle>, spawns: nat -> Option<int>, envs: nat -> Env,
                           first: Env, n: nat)
    requires p.procStatus.status == Online && !first.live(p.pid) && !WantsRestart(p)
    requires p.nextStartAt.None?
    ensures var t := SyncProcess(p, handle, None, first);
            && RunTicks(t.p, t.handle, n, spawns, envs) == t
            && t.p.procStatus.status == Stopped && t.p.pid == 0
  {
    var t := SyncProcess(p, handle, None, first);
    StoppedStaysStopped(t.p, t.handle, n, spawns, envs);
  }

  // ---------------------------------------------------------------------
  // handleMaxLog

  /** One log rotation: the out and err logs are renamed to suffix
      `renamed`; the pair with suffix `removed` is deleted, if any; the
      record's `LogFileCount` becomes `count`. */
  datatype RotationStep = RotationStep(renamed: int, removed: Option<int>, count: int)

  /** The arithmetic of `handleMaxLog` on the int32 `LogFileCount`. */
  function LogRotation(count: int, cfg: ConfigCmd.Config, outSize: int, errSize: int): (r: Option<RotationStep>)
    requires IsInt32(count)
    ensures r.Some? <==> cfg.logRotate && outSize + errSize > cfg.logRotateSize
    ensures r.Some? ==> r.value.renamed == count && IsInt32(r.value.count)
    ensures r.Some? && 0 <= count < MaxInt32 && 0 <= cfg.logRotateMaxFiles <= MaxInt32 ==>
              && r.value.count == (if count + 1 >= cfg.logRotateMaxFiles then cfg.logRotateMaxFiles else count + 1)
              && (r.value.removed.Some? <==> count + 1 >= cfg.logRotateMaxFiles)
              && (r.value.removed.Some? ==> r.value.removed.value == count + 1 - cfg.logRotateMaxFiles)
  {
    if cfg.logRotate && outSize + errSize > cfg.logRotateSize then
      var next := Wrap32(count + 1);
      var max := Wrap32(cfg.logRotateMaxFiles);
      if next >= max then Some(RotationStep(count, Some(Wrap32(next - max)), max))
      else Some(RotationStep(count, None, next))
    else None
  }

  /** With a non-negative maximum below the int32 limit the counter never
      leaves `0..max`. */
  lemma RotationCountInRange(count: int, cfg: ConfigCmd.Config, outSize: int, errSize: int)
    requires 0 <= cfg.logRotateMaxFiles < MaxInt32 && 0 <= count <= cfg.logRotateMaxFiles
    requires LogRotation(count, cfg, outSize, errSize).Some?
    ensures 0 <= LogRotation(count, cfg, outSize, errSize).value.count <= cfg.logRotateMaxFiles
  {
  }

  /** The name of a rotated log: the path, a dot and the suffix. */
  function RotatedName(path: string, suffix: int): string {
    path + "." + Strconv.Itoa(suffix)
  }

  /** The file operations of one `handleMaxLog`. */
  datatype LogFileOps = LogFileOps(renames: seq<(string, string)>, removes: seq<string>)

  /** `handleMaxLog` on one record: the updated record and the renames
      and removals it asks the file system for. */
  function HandleMaxLog(p: Process, cfg: ConfigCmd.Config, outSize: int, errSize: int): (r: (Process, LogFileOps))
    requires IsInt32(p.logFileCount)
    ensures r.0.(logFileCount := p.logFileCount) == p
    ensures !(cfg.logRotate && outSize + errSize > cfg.logRotateSize) ==> r == (p, LogFileOps([], []))
    ensures cfg.logRotate && outSize + errSize > cfg.logRotateSize ==>
              var n := RotatedName(p.logFilePath, p.logFileCount);
              var e := RotatedName(p.errFilePath, p.logFileCount);
              r.1.renames == [(p.logFilePath, n), (p.errFilePath, e)] && |r.1.removes| in {0, 2}
    ensures var s := LogRotation(p.logFileCount, cfg, outSize, errSize);
            s.Some? ==>
              && r.0.logFileCount == s.value.count
              && r.1.removes == (if s.value.removed.Some?
                                 then [RotatedName(p.logFilePath, s.value.removed.value),
                                       RotatedName(p.errFilePath, s.value.removed.value)]
                                 else [])
  {
    match LogRotation(p.logFileCount, cfg, outSize, errSize)
    case None => (p, LogFileOps([], []))
    case Some(step) =>
      var renames := [(p.logFilePath, RotatedName(p.logFilePath, step.renamed)),
                      (p.errFilePath, RotatedName(p.errFilePath, step.renamed))];
      var removes := match step.removed
                     case None => []
                     case Some(k) => [RotatedName(p.logFilePath, k), RotatedName(p.errFilePath, k)];
      (p.(logFileCount := step.count), LogFileOps(renames, removes))
  }

  /** For an in-range counter and maximum, `handleMaxLog` renames the pair
      onto the current suffix, moves the counter one up but never past the
      maximum, and deletes the pair `max` generations back once the
      counter reaches the maximum. */
  lemma HandleMaxLogRotates(p: Process, cfg: ConfigCmd.Config, outSize: int, errSize: int)
    requires 0 <= p.logFileCount < MaxInt32 && 0 <= cfg.logRotateMaxFiles <= MaxInt32
    requires cfg.logRotate && outSize + errSize > cfg.logRotateSize
    ensures var r := HandleMaxLog(p, cfg, outSize, errSize);
            var next := p.logFileCount + 1;
            var max := cfg.logRotateMaxFiles;
            && r.0.logFileCount == (if next >= max then max else next)
            && r.1.renames == [(p.logFilePath, RotatedName(p.logFilePath, p.logFileCount)),
                               (p.errFilePath, RotatedName(p.errFilePath, p.logFileCount))]
            && r.1.removes == (if next >= max
                               then [RotatedName(p.logFilePath, next - max), RotatedName(p.errFilePath, next - max)]
                               else [])
  {
    var s := LogRotation(p.logFileCount, cfg, outSize, errSize);
    assert s.Some?;
  }
}
