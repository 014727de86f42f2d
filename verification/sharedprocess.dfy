/** The legacy process record of shared/process.go, used by the net/rpc
    daemon. `ProcStatus` is a pointer in Go, so copies of a record share
    their status: the record holds a reference into a status heap kept by
    the registry, and the helpers that write through the pointer are
    functions on `Status`. */
module SharedProcess {
  import opened Wrappers
  import opened GoInt
  import opened ProcTerms

  datatype Status = Status(
    status: string,
    startedAt: int,
    uptime: int,
    restarts: int,
    cpu: string,
    memory: string)

  /** The address of a `*ProcStatus`. */
  type StatusRef = nat

  /** `shared.Process`. `Cwd` and `Scripts` are read by its callers
      though this revision of shared/process.go lacks them; they are kept. */
  datatype Process = Process(
    id: int,
    name: string,
    args: seq<string>,
    executablePath: string,
    pid: int,
    autoRestart: bool,
    pidFilePath: string,
    logFilePath: string,
    errFilePath: string,
    cwd: string,
    scripts: seq<string>,
    procStatus: Option<StatusRef>,  // a nil pointer is None
    toStop: bool,
    handle: Option<Handle>)

  /** Go's zero `Process`. */
  const Zero: Process := Process(0, "", [], "", 0, false, "", "", "", "", [], None, false, None)

  // Helpers on the record itself

  /** `SetToStop`. */
  function SetToStop(p: Process, toStop: bool): (q: Process)
    ensures GetToStop(q) == toStop
    ensures q.(toStop := p.toStop) == p
  {
    p.(toStop := toStop)
  }

  /** `GetToStop`. */
  function GetToStop(p: Process): bool {
    p.toStop
  }

  /** `ResetPid`: the pid becomes -1, not 0. */
  function ResetPid(p: Process): (q: Process)
    ensures q.pid == -1 && q.pid != 0
    ensures q.(pid := p.pid) == p
  {
    p.(pid := -1)
  }

  /** `SetProcess`. */
  function SetProcess(p: Process, handle: Option<Handle>): (q: Process)
    ensures q.handle == handle && q.(handle := p.handle) == p
  {
    p.(handle := handle)
  }

  /** `UpdatePid`: a new pid and the handle `os.FindProcess` gives for it. */
  function UpdatePid(p: Process, pid: int): (q: Process)
    ensures q.pid == pid && q.handle == Some(Handle(pid))
    ensures q.(pid := p.pid, handle := p.handle) == p
  {
    p.(pid := pid, handle := Some(Handle(pid)))
  }

  /** `UpdateProcess`: only the handle, for the given pid. */
  function UpdateProcess(p: Process, pid: int): (q: Process)
    ensures q.handle == Some(Handle(pid)) && q.(handle := p.handle) == p
  {
    p.(handle := Some(Handle(pid)))
  }

  /** The stop flag is what the last `SetToStop` stored: the other record
      helpers never touch it. */
  lemma ToStopRemembered(p: Process, b: bool, pid: int, h: Option<Handle>)
    ensures GetToStop(ResetPid(SetToStop(p, b))) == b
    ensures GetToStop(UpdatePid(SetToStop(p, b), pid)) == b
    ensures GetToStop(UpdateProcess(SetToStop(p, b), pid)) == b
    ensures GetToStop(SetProcess(SetToStop(p, b), h)) == b
    ensures GetToStop(SetToStop(SetToStop(p, !b), b)) == b
  {
  }

  // Helpers that write through the status pointer

  /** `UpdateStatus`. */
  function UpdateStatus(s: Status, status: string): (t: Status)
    ensures t.status == status && t.(status := s.status) == s
  {
    s.(status := status)
  }

  /** `UpdateUptime`: time since start, truncated to whole seconds. */
  function UpdateUptime(s: Status, now: int): (t: Status)
    ensures t.uptime % Second == 0
    ensures now - s.startedAt >= 0 ==> 0 <= t.uptime <= now - s.startedAt < t.uptime + Second
    ensures t.(uptime := s.uptime) == s
  {
    s.(uptime := Truncate(now - s.startedAt, Second))
  }

  /** `InitStartedAt`. */
  function InitStartedAt(s: Status, now: int): (t: Status)
    ensures t.startedAt == now && t.(startedAt := s.startedAt) == s
  {
    s.(startedAt := now)
  }

  /** `InitUptime`: uptime 0 and nothing else. */
  function InitUptime(s: Status): (t: Status)
    ensures t.uptime == 0 && t.(uptime := s.uptime) == s
  {
    s.(uptime := 0)
  }

  /** `IncreaseRestarts`. */
  function IncreaseRestarts(s: Status): (t: Status)
    ensures t.restarts == s.restarts + 1 && t.(restarts := s.restarts) == s
  {
    s.(restarts := s.restarts + 1)
  }

  /** `ResetRestarts`. */
  function ResetRestarts(s: Status): (t: Status)
    ensures t.restarts == 0 && t.(restarts := s.restarts) == s
  {
    s.(restarts := 0)
  }

  /** `ResetCPUMemory`. */
  function ResetCpuMemory(s: Status): (t: Status)
    ensures t.cpu == ZeroCpu && t.memory == ZeroMemory
    ensures t.(cpu := s.cpu, memory := s.memory) == s
  {
    s.(cpu := ZeroCpu, memory := ZeroMemory)
  }

  /** `UpdateCPUMemory` of the record with pid `pid`; `sample` stands for
      the `ps` query. Only pid 0 is skipped. */
  function UpdateCpuMemory(pid: int, s: Status, sample: int -> Option<(string, string)>): (t: Status)
    ensures pid == 0 || sample(pid).None? ==> t == s
    ensures pid != 0 && sample(pid).Some? ==> t.cpu == sample(pid).value.0 && t.memory == sample(pid).value.1
    ensures t.(cpu := s.cpu, memory := s.memory) == s
  {
    if pid == 0 then s
    else
      match sample(pid)
      case None => s
      case Some(cm) => s.(cpu := cm.0, memory := cm.1)
  }

  /** After `ResetPid` the guard of `UpdateCPUMemory` no longer applies:
      the pid is -1, so `ps` is asked about it. */
  lemma SampledAfterResetPid(p: Process, s: Status, sample: int -> Option<(string, string)>)
    requires sample(-1).Some?
    ensures UpdateCpuMemory(ResetPid(p).pid, s, sample).cpu == sample(-1).value.0
  {
  }
}
