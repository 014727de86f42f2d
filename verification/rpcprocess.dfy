/** The oldest process record, rpc/server/process.go. No registry of the
    model uses it, so its status is kept inline. */
module RpcProcess {
  import opened Wrappers
  import opened GoInt
  import opened ProcTerms

  datatype Status = Status(
    status: string,
    startedAt: int,
    uptime: int,
    restarts: int,
    cpu: string,
    memory: string)

  datatype Process = Process(
    id: int,
    name: string,
    args: seq<string>,
    executablePath: string,
    pid: int,
    procStatus: Status,
    handle: Option<Handle>)

  /** `UpdateStatus`: only the status name changes. */
  function UpdateStatus(p: Process, status: string): (q: Process)
    ensures q.procStatus.status == status
    ensures q.(procStatus := q.procStatus.(status := p.procStatus.status)) == p
  {
    p.(procStatus := p.procStatus.(status := status))
  }

  /** `UpdatePid`. */
  function UpdatePid(p: Process, pid: int): (q: Process)
    ensures q.pid == pid && q.handle == Some(Handle(pid))
    ensures q.(pid := p.pid, handle := p.handle) == p
  {
    p.(pid := pid, handle := Some(Handle(pid)))
  }

  /** `ResetPid`: in this revision the pid becomes 0. */
  function ResetPid(p: Process): (q: Process)
    ensures q.pid == 0 && q.(pid := p.pid) == p
  {
    p.(pid := 0)
  }

  /** `UpdateUptime`. */
  function UpdateUptime(p: Process, now: int): (q: Process)
    ensures q.procStatus.uptime % Second == 0
    ensures now - p.procStatus.startedAt >= 0 ==>
              0 <= q.procStatus.uptime <= now - p.procStatus.startedAt < q.procStatus.uptime + Second
    ensures q.(procStatus := q.procStatus.(uptime := p.procStatus.uptime)) == p
  {
    p.(procStatus := p.procStatus.(uptime := Truncate(now - p.procStatus.startedAt, Second)))
  }

  /** `InitStartedAt`. */
  function InitStartedAt(p: Process, now: int): (q: Process)
    ensures q.procStatus.startedAt == now
    ensures q.(procStatus := q.procStatus.(startedAt := p.procStatus.startedAt)) == p
  {
    p.(procStatus := p.procStatus.(startedAt := now))
  }

  /** `UpdateRestarts`. */
  function UpdateRestarts(p: Process): (q: Process)
    ensures q.procStatus.restarts == p.procStatus.restarts + 1
    ensures q.(procStatus := q.procStatus.(restarts := p.procStatus.restarts)) == p
  {
    p.(procStatus := p.procStatus.(restarts := p.procStatus.restarts + 1))
  }

  /** `ResetCPUMemory`. */
  function ResetCpuMemory(p: Process): (q: Process)
    ensures q.procStatus.cpu == ZeroCpu && q.procStatus.memory == ZeroMemory
    ensures q.(procStatus := q.procStatus.(cpu := p.procStatus.cpu, memory := p.procStatus.memory)) == p
  {
    p.(procStatus := p.procStatus.(cpu := ZeroCpu, memory := ZeroMemory))
  }

  /** `UpdateCPUMemory` with the `ps` query as `sample`. */
  function UpdateCpuMemory(p: Process, sample: int -> Option<(string, string)>): (q: Process)
    ensures p.pid == 0 || sample(p.pid).None? ==> q == p
    ensures p.pid != 0 && sample(p.pid).Some? ==>
              q.procStatus.cpu == sample(p.pid).value.0 && q.procStatus.memory == sample(p.pid).value.1
    ensures q.(procStatus := q.procStatus.(cpu := p.procStatus.cpu, memory := p.procStatus.memory)) == p
  {
    if p.pid == 0 then p
    else
      match sample(p.pid)
      case None => p
      case Some(cm) => p.(procStatus := p.procStatus.(cpu := cm.0, memory := cm.1))
  }

  /** In this revision a reset record is never sampled. */
  lemma ResetRecordNotSampled(p: Process, sample: int -> Option<(string, string)>)
    ensures UpdateCpuMemory(ResetPid(p), sample) == ResetPid(p)
  {
  }
}
