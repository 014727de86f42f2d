/** The daemon's process record, `pb.Process` with its `ProcStatus`, and
    the small helpers of proto/process_extended.go. Times are nanosecond
    instants and durations; the current time and the cron library are
    parameters. */
module PbProcess {
  import opened Wrappers
  import opened GoInt
  import opened ProcTerms

  datatype ProcStatus = ProcStatus(
    status: string,
    startedAt: int,
    uptime: int,
    restarts: int,
    cpu: string,
    memory: string,
    parentPid: int)

  datatype Process = Process(
    id: int,
    name: string,
    executablePath: string,
    pid: int,
    args: seq<string>,
    cwd: string,
    scripts: seq<string>,
    logFilePath: string,
    errFilePath: string,
    pidFilePath: string,
    autoRestart: bool,
    cronRestart: string,
    nextStartAt: Option<int>,  // nil timestamp = None
    stopSignal: bool,
    logFileCount: int,
    procStatus: ProcStatus)

  /** The cron library as the program uses it: whether an expression
      parses, and the first activation strictly after an instant. */
  datatype Cron = Cron(parses: string -> bool, next: (string, int) -> int)

  /** `UpdateStatus` and `SetStatus` (identical in the source). */
  function SetStatus(p: Process, status: string): (q: Process)
    ensures q.procStatus.status == status
    ensures q.(procStatus := q.procStatus.(status := p.procStatus.status)) == p
  {
    p.(procStatus := p.procStatus.(status := status))
  }

  /** `SetStopSignal`. */
  function SetStopSignal(p: Process, stop: bool): (q: Process)
    ensures q.stopSignal == stop
    ensures q.(stopSignal := p.stopSignal) == p
  {
    p.(stopSignal := stop)
  }

  /** `ResetPid`: zero pid and zero parent pid. */
  function ResetPid(p: Process): (q: Process)
    ensures q.pid == 0 && q.procStatus.parentPid == 0
    ensures q.(pid := p.pid, procStatus := q.procStatus.(parentPid := p.procStatus.parentPid)) == p
  {
    p.(pid := 0, procStatus := p.procStatus.(parentPid := 0))
  }

  /** `UpdateUptime`: time since start, truncated to whole seconds. */
  function UpdateUptime(p: Process, now: int): (q: Process)
    ensures var elapsed := now - p.procStatus.startedAt;
            && q.procStatus.uptime % Second == 0
            && (elapsed >= 0 ==> 0 <= q.procStatus.uptime <= elapsed < q.procStatus.uptime + Second)
            && (elapsed < 0 ==> q.procStatus.uptime - Second < elapsed <= q.procStatus.uptime <= 0)
    ensures q.(procStatus := q.procStatus.(uptime := p.procStatus.uptime)) == p
  {
    p.(procStatus := p.procStatus.(uptime := Truncate(now - p.procStatus.startedAt, Second)))
  }

  /** `InitStartedAt`. */
  function InitStartedAt(p: Process, now: int): (q: Process)
    ensures q.procStatus.startedAt == now
    ensures q.(procStatus := q.procStatus.(startedAt := p.procStatus.startedAt)) == p
  {
    p.(procStatus := p.procStatus.(startedAt := now))
  }

  /** `InitUptime`. */
  function InitUptime(p: Process): (q: Process)
    ensures q.procStatus.uptime == 0
    ensures q.(procStatus := q.procStatus.(uptime := p.procStatus.uptime)) == p
  {
    p.(procStatus := p.procStatus.(uptime := 0))
  }

  /** `IncreaseRestarts`. */
  function IncreaseRestarts(p: Process): (q: Process)
    ensures q.procStatus.restarts == p.procStatus.restarts + 1
    ensures q.(procStatus := q.procStatus.(restarts := p.procStatus.restarts)) == p
  {
    p.(procStatus := p.procStatus.(restarts := p.procStatus.restarts + 1))
  }

  /** `ResetRestarts`. */
  function ResetRestarts(p: Process): (q: Process)
    ensures q.procStatus.restarts == 0
    ensures q.(procStatus := q.procStatus.(restarts := p.procStatus.restarts)) == p
  {
    p.(procStatus := p.procStatus.(restarts := 0))
  }

  /** `ResetCPUMemory`. */
  function ResetCpuMemory(p: Process): (q: Process)
    ensures q.procStatus.cpu == ZeroCpu && q.procStatus.memory == ZeroMemory
    ensures q.(procStatus := q.procStatus.(cpu := p.procStatus.cpu, memory := p.procStatus.memory)) == p
  {
    p.(procStatus := p.procStatus.(cpu := ZeroCpu, memory := ZeroMemory))
  }

  /** `UpdateCPUMemory` with the `ps` query as a parameter: `sample(pid)`
      is the formatted CPU and memory pair, or `None` when `ps` fails. A
      zero pid is not queried. */
  function UpdateCpuMemory(p: Process, sample: int -> Option<(string, string)>): (q: Process)
    ensures p.pid == 0 || sample(p.pid).None? ==> q == p
    ensures p.pid != 0 && sample(p.pid).Some? ==>
              q.procStatus.cpu == sample(p.pid).value.0 && q.procStatus.memory == sample(p.pid).value.1
    ensures q.(procStatus := q.procStatus.(cpu := p.procStatus.cpu, memory := p.procStatus.memory)) == p
  {
    if p.pid == 0 then p
    else
      match sample(p.pid)
      case None => p
      case Some(cm) => p.(procStatus := p.procStatus.(cpu := cm.0, memory := cm.1))
  }

  /** `UpdateNextStartAt`: recompute the next cron activation. The second
      component is true when an error is returned. */
  function UpdateNextStartAt(p: Process, cron: Cron, now: int): (r: (Process, bool))
    ensures p.cronRestart == "" ==> r == (p, false)
    ensures p.cronRestart != "" && !cron.parses(p.cronRestart) ==>
              r.1 && r.0 == p.(cronRestart := "")
    ensures p.cronRestart != "" && cron.parses(p.cronRestart) ==>
              !r.1 && r.0 == p.(nextStartAt := Some(cron.next(p.cronRestart, now)))
  {
    if p.cronRestart == "" then (p, false)
    else if !cron.parses(p.cronRestart) then (p.(cronRestart := ""), true)
    else (p.(nextStartAt := Some(cron.next(p.cronRestart, now))), false)
  }

  /** After an update that failed, later updates are no-ops: the
      expression is gone and `NextStartAt` keeps its last value. */
  lemma FailedCronIsForgotten(p: Process, cron: Cron, now: int, later: int)
    requires UpdateNextStartAt(p, cron, now).1
    ensures var q := UpdateNextStartAt(p, cron, now).0;
            q.nextStartAt == p.nextStartAt && UpdateNextStartAt(q, cron, later) == (q, false)
  {
  }
}
