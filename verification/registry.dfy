/** The gRPC daemon's registry (grpc/server): the `Handler` state and the
    add, spawn, find, list, start, stop and delete handlers. Each handler
    runs under the one mutex, so each is modelled as one atomic
    transition. Go's maps hold `*pb.Process` pointers and both index maps
    share them; the model keeps the objects in an explicit heap so that a
    stale name key still reaches its object, as in the source. The OS,
    the clock and the cron library are parameters (`Env`). */
module Registry {
  import opened Wrappers
  import opened GoInt
  import Strconv
  import opened ProcTerms
  import opened PbProcess

  /** The address of a `*pb.Process` object. */
  type Ref = nat

  /** `Handler`: a nil entry of the `processes` map is the same as an
      absent key for every reader, so a nil handle is an absent key. */
  datatype Handler = Handler(
    heap: map<Ref, Process>,
    byId: map<int, Ref>,
    byName: map<string, Ref>,
    handles: map<int, Handle>,
    nextId: int,
    nextRef: Ref)

  /** What the daemon sees of the world during one call: which pids are
      live, the cron library, the current time and its own pid. */
  datatype Env = Env(live: int -> bool, cron: Cron, now: int, daemonPid: int)

  /** The invariant every handler keeps: `nextId` is an int32, every
      pointer is allocated, and an entry of `databaseById` carries its
      own key as id. */
  predicate Valid(h: Handler) {
    && IsInt32(h.nextId)
    && (forall r | r in h.heap :: r < h.nextRef)
    && (forall id | id in h.byId :: IsInt32(id) && h.byId[id] in h.heap && h.heap[h.byId[id]].id == id)
    && (forall n | n in h.byName :: h.byName[n] in h.heap)
  }

  function Get(h: Handler, id: int): Process
    requires Valid(h) && id in h.byId
  {
    h.heap[h.byId[id]]
  }

  function Named(h: Handler, name: string): Process
    requires Valid(h) && name in h.byName
  {
    h.heap[h.byName[name]]
  }

  /** The handler built by `New`: three empty maps, `nextId` zero. */
  function New(): (h: Handler)
    ensures Valid(h)
    ensures |h.byId| == 0 && |h.byName| == 0 && |h.handles| == 0
    ensures h.nextId == 0
  {
    Handler(map[], map[], map[], map[], 0, 0)
  }

  // ---------------------------------------------------------------------
  // Insertion, shared by AddProcess and SpawnProcess

  /** `p` is reachable under its id and its name and has a handle on its pid. */
  predicate Registered(h: Handler, p: Process)
    requires Valid(h)
  {
    && p.id in h.byId && Get(h, p.id) == p
    && p.name in h.byName && Named(h, p.name) == p
    && p.id in h.handles && h.handles[p.id] == Handle(p.pid)
  }

  /** Going from `h` to `h2` added the keys of `p` and changed nothing else. */
  predicate OnlyAdded(h: Handler, h2: Handler, p: Process)
    requires Valid(h) && Valid(h2)
  {
    && h2.byId.Keys == h.byId.Keys + {p.id}
    && h2.byName.Keys == h.byName.Keys + {p.name}
    && h2.handles.Keys == h.handles.Keys + {p.id}
    && (forall id | id in h.byId && id != p.id :: Get(h2, id) == Get(h, id))
    && (forall n | n in h.byName && n != p.name :: Named(h2, n) == Named(h, n))
    && (forall id | id in h.handles && id != p.id :: h2.handles[id] == h.handles[id])
  }

  /** The three map writes and `nextId++` of a successful add or spawn. */
  function Insert(h: Handler, p: Process): (h2: Handler)
    requires Valid(h) && p.id == h.nextId
    ensures Valid(h2) && Registered(h2, p) && OnlyAdded(h, h2, p)
    ensures h2.nextId == Wrap32(h.nextId + 1)
  {
    var r := h.nextRef;
    Handler(h.heap[r := p], h.byId[p.id := r], h.byName[p.name := r],
            h.handles[p.id := Handle(p.pid)], Wrap32(h.nextId + 1), r + 1)
  }

  /** A cron field is accepted when it is empty or parses. */
  predicate CronAccepted(expr: string, cron: Cron) {
    expr == "" || cron.parses(expr)
  }

  /** The status block of a freshly registered process. */
  function FreshStatus(now: int, parentPid: int): ProcStatus {
    ProcStatus(Online, now, 0, 0, ZeroCpu, ZeroMemory, parentPid)
  }

  // ---------------------------------------------------------------------
  // AddProcess

  datatype AddRequest = AddRequest(
    name: string,
    executablePath: string,
    pid: int,
    args: seq<string>,
    cwd: string,
    scripts: seq<string>,
    logFilePath: string,
    errFilePath: string,
    pidFilePath: string,
    autoRestart: bool,
    cronRestart: string)

  /** `AddProcess`: register an already running OS process. */
  function AddProcess(h: Handler, req: AddRequest, env: Env): (r: (Handler, Result<Process, string>))
    requires Valid(h)
    ensures Valid(r.0)
    ensures r.1.Ok? <==> CronAccepted(req.cronRestart, env.cron) && env.live(Wrap32(req.pid))
    ensures r.1.Err? ==> r.0 == h
    ensures r.1.Ok? ==>
              var p := r.1.value;
              && p.id == h.nextId && r.0.nextId == Wrap32(h.nextId + 1)
              && Registered(r.0, p) && OnlyAdded(h, r.0, p)
              && p.procStatus == FreshStatus(env.now, 1)
              && p.nextStartAt == (if req.cronRestart == "" then None
                                   else Some(env.cron.next(req.cronRestart, env.now)))
              && p.pid == Wrap32(req.pid) && p.name == req.name
              && p.executablePath == req.executablePath && p.args == req.args
              && p.cwd == req.cwd && p.scripts == req.scripts
              && p.logFilePath == req.logFilePath && p.errFilePath == req.errFilePath
              && p.pidFilePath == req.pidFilePath && p.autoRestart == req.autoRestart
              && p.cronRestart == req.cronRestart && !p.stopSignal && p.logFileCount == 0
  {
    var p := Process(h.nextId, req.name, req.executablePath, Wrap32(req.pid), req.args, req.cwd,
                     req.scripts, req.logFilePath, req.errFilePath, req.pidFilePath,
                     req.autoRestart, req.cronRestart, None, false, 0, FreshStatus(env.now, 1));
    if !CronAccepted(req.cronRestart, env.cron) then (h, Err("invalid cron expression"))
    else
      var p := if req.cronRestart == "" then p
               else p.(nextStartAt := Some(env.cron.next(req.cronRestart, env.now)));
      if !env.live(p.pid) then (h, Err("failed to add process"))
      else (Insert(h, p), Ok(p))
  }

  // ---------------------------------------------------------------------
  // SpawnProcess

  /** The part of `SpawnProcessRequest` the handler reads after spawning. */
  datatype SpawnRequest = SpawnRequest(cronRestart: string)

  /** `SpawnProcess`: `spawned` is the record `shared.SpawnNewProcess`
      returned, `None` when it failed. The reply is the `Success` flag;
      `Err` is a gRPC error. */
  function SpawnProcess(h: Handler, req: SpawnRequest, spawned: Option<Process>, env: Env)
    : (r: (Handler, Result<bool, string>))
    requires Valid(h)
    ensures Valid(r.0)
    ensures spawned.None? ==> r == (h, Ok(false))
    ensures spawned.Some? ==>
              (r.1 == Ok(true) <==> CronAccepted(req.cronRestart, env.cron) && env.live(spawned.value.pid))
    ensures r.1 != Ok(true) ==> r.0 == h
    ensures r.1 == Ok(true) ==>
              var s := spawned.value;
              var p := s.(id := h.nextId, procStatus := FreshStatus(env.now, Wrap32(env.daemonPid)),
                          nextStartAt := if req.cronRestart == "" then s.nextStartAt
                                         else Some(env.cron.next(req.cronRestart, env.now)));
              && r.0.nextId == Wrap32(h.nextId + 1)
              && Registered(r.0, p) && OnlyAdded(h, r.0, p)
  {
    match spawned
    case None => (h, Ok(false))
    case Some(s) =>
      var p := s.(id := h.nextId, procStatus := FreshStatus(env.now, Wrap32(env.daemonPid)));
      if !CronAccepted(req.cronRestart, env.cron) then (h, Err("invalid cron expression"))
      else
        var p := if req.cronRestart == "" then p
                 else p.(nextStartAt := Some(env.cron.next(req.cronRestart, env.now)));
        if !env.live(p.pid) then (h, Err("failed to spawn process"))
        else (Insert(h, p), Ok(true))
  }

  // ---------------------------------------------------------------------
  // FindProcess

  /** `FindProcess`: a key that `strconv.Atoi` accepts is an id, converted
      with `int32()`; any other key is a name. Lookup changes nothing. */
  function FindProcess(h: Handler, key: string): (r: Result<Process, string>)
    requires Valid(h)
    ensures Strconv.Atoi(key).Some? ==>
              var id := Wrap32(Strconv.Atoi(key).value);
              (r.Ok? <==> id in h.byId) && (r.Ok? ==> r.value == Get(h, id) && r.value.id == id)
    ensures Strconv.Atoi(key).None? ==>
              (r.Ok? <==> key in h.byName) && (r.Ok? ==> r.value == Named(h, key))
  {
    match Strconv.Atoi(key)
    case Some(v) =>
      if Wrap32(v) in h.byId then Ok(Get(h, Wrap32(v))) else Err("failed to find process")
    case None =>
      if key in h.byName then Ok(Named(h, key)) else Err("failed to find process")
  }

  /** A key that reads as a number is never looked up by name: a process
      named "42" is found only if id 42 exists. */
  lemma NumericKeyIgnoresNames(h: Handler, key: string)
    requires Valid(h) && Strconv.Atoi(key).Some?
    requires Wrap32(Strconv.Atoi(key).value) !in h.byId
    ensures FindProcess(h, key).Err?
  {
  }

  /** After a successful add, the decimal id finds the new record. */
  lemma AddThenFindById(h: Handler, req: AddRequest, env: Env)
    requires Valid(h) && AddProcess(h, req, env).1.Ok?
    ensures var (h2, reply) := AddProcess(h, req, env);
            FindProcess(h2, Strconv.Itoa(reply.value.id)) == Ok(reply.value)
  {
    var (h2, reply) := AddProcess(h, req, env);
    Strconv.AtoiItoa(reply.value.id);
  }

  /** Two successful adds in a row get consecutive, distinct ids. */
  lemma SuccessiveAddsGetDistinctIds(h: Handler, a: AddRequest, b: AddRequest, env1: Env, env2: Env,
                                     h1: Handler, p: Process, h2: Handler, q: Process)
    requires Valid(h) && AddProcess(h, a, env1) == (h1, Ok(p))
    requires AddProcess(h1, b, env2) == (h2, Ok(q))
    ensures q.id == Wrap32(p.id + 1) && q.id != p.id
  {
    Int32SuccessorDiffers(p.id);
  }

  lemma Int32SuccessorDiffers(x: int)
    ensures Wrap32(x + 1) != x
  {
    var r := Wrap32(x + 1);
    assert (x + 1 - r) % TwoTo32 == 0;
  }

  // ---------------------------------------------------------------------
  // ListProcess

  /** The CPU/memory refresh of `ListProcess`: every object reachable from
      `databaseById` is sampled; objects reachable only through a stale
      name key are not. */
  function RefreshSamples(h: Handler, sample: int -> Option<(string, string)>): (h2: Handler)
    requires Valid(h)
    ensures Valid(h2)
    ensures h2.byId == h.byId && h2.byName == h.byName && h2.handles == h.handles
    ensures h2.nextId == h.nextId
    ensures forall id | id in h.byId :: Get(h2, id) == UpdateCpuMemory(Get(h, id), sample)
  {
    h.(heap := map r | r in h.heap ::
                 if r in h.byId.Values then UpdateCpuMemory(h.heap[r], sample) else h.heap[r])
  }

  /** Every non-empty set of integers has a least element. */
  lemma {:induction false} MinExists(s: set<int>)
    requires s != {}
    ensures exists m :: m in s && forall x :: x in s ==> m <= x
  {
    EmptyOrHasMember(s);
    var y :| y in s;
    var rest := s - {y};
    if rest == {} {
      assert s == {y};
    } else {
      MinExists(rest);
      var m :| m in rest && forall x :: x in rest ==> m <= x;
      var least := if y < m then y else m;
      assert least in s;
      forall x | x in s
        ensures least <= x
      {
        if x != y {
          assert x in rest;
        }
      }
    }
  }

  /** A set with no member is the empty set. */
  lemma EmptyOrHasMember(s: set<int>)
    ensures s == {} || exists z :: z in s
  {
    if forall z :: z !in s {
      assert s == {};
    }
  }

  /** The keys of `databaseById` in ascending order (the `sort.Slice`). */
  method SortedIds(s: set<int>) returns (ks: seq<int>)
    ensures |ks| == |s|
    ensures forall i, j | 0 <= i < j < |ks| :: ks[i] < ks[j]
    ensures forall i | 0 <= i < |ks| :: ks[i] in s
    ensures forall x | x in s :: x in ks
  {
    ks := [];
    var rest := s;
    while rest != {}
      invariant rest <= s
      invariant |ks| + |rest| == |s|
      invariant forall i, j | 0 <= i < j < |ks| :: ks[i] < ks[j]
      invariant forall i | 0 <= i < |ks| :: ks[i] in s && ks[i] !in rest
      invariant forall i, x | 0 <= i < |ks| && x in rest :: ks[i] < x
      invariant forall x | x in s :: x in rest || x in ks
      decreases |rest|
    {
      MinExists(rest);
      var m :| m in rest && forall x :: x in rest ==> m <= x;
      ks := ks + [m];
      rest := rest - {m};
    }
  }

  /** The records stored under `ks`, in the order of `ks`. */
  method CollectByKeys(h: Handler, ks: seq<int>) returns (procs: seq<Process>)
    requires Valid(h)
    requires forall i | 0 <= i < |ks| :: ks[i] in h.byId
    ensures |procs| == |ks|
    ensures forall i | 0 <= i < |ks| :: procs[i] == Get(h, ks[i]) && procs[i].id == ks[i]
  {
    procs := [];
    var k := 0;
    while k < |ks|
      invariant 0 <= k <= |ks|
      invariant |procs| == k
      invariant forall i | 0 <= i < k :: procs[i] == Get(h, ks[i]) && procs[i].id == ks[i]
    {
      procs := procs + [Get(h, ks[k])];
      k := k + 1;
    }
  }

  /** `ListProcess`: refresh the samples, then return every entry of
      `databaseById` once, by ascending id. */
  method ListProcess(h: Handler, sample: int -> Option<(string, string)>)
    returns (h2: Handler, procs: seq<Process>)
    requires Valid(h)
    ensures Valid(h2)
    ensures h2.byId == h.byId && h2.byName == h.byName && h2.handles == h.handles
    ensures h2.nextId == h.nextId
    ensures forall id | id in h.byId :: Get(h2, id) == UpdateCpuMemory(Get(h, id), sample)
    ensures |procs| == |h.byId|
    ensures forall i, j | 0 <= i < j < |procs| :: procs[i].id < procs[j].id
    ensures forall i | 0 <= i < |procs| :: procs[i].id in h.byId && procs[i] == Get(h2, procs[i].id)
    ensures forall id | id in h.byId :: exists i :: 0 <= i < |procs| && procs[i].id == id
  {
    h2 := RefreshSamples(h, sample);
    var ks := SortedIds(h2.byId.Keys);
    procs := CollectByKeys(h2, ks);
    forall id | id in h.byId
      ensures exists i :: 0 <= i < |procs| && procs[i].id == id
    {
      var i :| 0 <= i < |ks| && ks[i] == id;
      assert procs[i].id == id;
    }
  }

  // ---------------------------------------------------------------------
  // StartProcess, StopProcess, DeleteProcess

  /** A handler result; `Crash` is a Go panic (a nil entry dereferenced),
      which ends the daemon. */
  datatype Outcome<T> = Done(h: Handler, reply: T) | Crash

  datatype StartRequest = StartRequest(
    id: int,
    name: string,
    executablePath: string,
    args: seq<string>,
    pidFilePath: string,
    logFilePath: string,
    errFilePath: string,
    autoRestart: bool,
    cwd: string,
    pid: int)

  /** `StartProcess`: overwrite the record in place. `os.FindProcess`
      always succeeds on Unix, so the handle is always replaced. The
      source calls `SetToStop(false)`; on `pb.Process` that is the stop
      flag, cleared here. */
  function StartProcess(h: Handler, req: StartRequest, now: int): (o: Outcome<Process>)
    requires Valid(h)
    ensures o.Crash? <==> req.id !in h.byId
    ensures o.Done? ==>
              var p := Get(h, req.id);
              var q := o.reply;
              && Valid(o.h) && req.id in o.h.byId && q == Get(o.h, req.id)
              && o.h.byId == h.byId && o.h.byName == h.byName && o.h.nextId == h.nextId
              && o.h.handles == h.handles[req.id := Handle(req.pid)]
              && q.name == req.name && q.executablePath == req.executablePath
              && q.args == req.args && q.pidFilePath == req.pidFilePath
              && q.logFilePath == req.logFilePath && q.errFilePath == req.errFilePath
              && q.autoRestart == req.autoRestart && q.cwd == req.cwd && q.pid == req.pid
              && q.procStatus.status == Online && !q.stopSignal
              && q.procStatus.startedAt == now && q.procStatus.uptime == 0
              && q.id == p.id && q.scripts == p.scripts && q.cronRestart == p.cronRestart
              && q.nextStartAt == p.nextStartAt && q.logFileCount == p.logFileCount
              && q.procStatus.restarts == p.procStatus.restarts
              && q.procStatus.parentPid == p.procStatus.parentPid
              && q.procStatus.cpu == p.procStatus.cpu && q.procStatus.memory == p.procStatus.memory
    ensures o.Done? ==> forall id | id in h.byId && id != req.id :: Get(o.h, id) == Get(h, id)
  {
    if req.id !in h.byId then Crash
    else
      var r := h.byId[req.id];
      var p := InitUptime(InitStartedAt(h.heap[r], now));
      var p := p.(name := req.name, executablePath := req.executablePath, args := req.args,
                  pidFilePath := req.pidFilePath, logFilePath := req.logFilePath,
                  errFilePath := req.errFilePath, autoRestart := req.autoRestart,
                  cwd := req.cwd, pid := req.pid);
      var p := SetStatus(SetStopSignal(p, false), Online);
      Done(h.(heap := h.heap[r := p], handles := h.handles[req.id := Handle(req.pid)]), p)
  }

  /** `byName` is not re-keyed by a start: the record that was found under
      `former` is still found under `former`, now carrying its new name, while
      the new name, if it was unused and is not a number, finds nothing. */
  lemma RenamedFoundOnlyByOldName(h: Handler, req: StartRequest, now: int, former: string)
    requires Valid(h) && req.id in h.byId
    requires former in h.byName && h.byName[former] == h.byId[req.id]
    requires req.name !in h.byName && Strconv.Atoi(req.name).None?
    requires Strconv.Atoi(former).None?
    ensures var o := StartProcess(h, req, now);
            && FindProcess(o.h, former) == Ok(o.reply)
            && o.reply.name == req.name
            && FindProcess(o.h, req.name).Err?
  {
  }

  /** Which way a stop tries to end the OS process. */
  datatype StopEffect =
    | NoSignal
    | Sigterm(pid: int)        // `found.Signal(SIGTERM)` on the handle's pid
    | ExitPidCalled(pid: int)  // `utils.ExitPid(pid, 1s)`

  datatype StopReply = StopReply(success: bool, effect: StopEffect)

  /** `StopProcess`. `sigterm(pid)` tells whether delivering SIGTERM
      succeeds. Status and pid are written before any check; the pid
      handed to `ExitPid` is read after it was zeroed. */
  function StopProcess(h: Handler, id: int, sigterm: int -> bool): (o: Outcome<StopReply>)
    requires Valid(h)
    ensures o.Crash? <==> id !in h.byId
    ensures o.Done? ==>
              var p := Get(h, id);
              && Valid(o.h) && id in o.h.byId
              && Get(o.h, id) == p.(pid := 0, procStatus := p.procStatus.(status := Stopped))
              && o.h.byId == h.byId && o.h.byName == h.byName && o.h.nextId == h.nextId
              && (forall j | j in h.byId && j != id :: Get(o.h, j) == Get(h, j))
              && (o.reply.success <==>
                    id in h.handles && (p.procStatus.parentPid == 1 ==> sigterm(h.handles[id].pid)))
              && (o.reply.success ==> o.h.handles == h.handles - {id})
              && (!o.reply.success ==> o.h.handles == h.handles)
              && (id !in h.handles ==> o.reply.effect == NoSignal)
              && (id in h.handles && p.procStatus.parentPid == 1 ==>
                    o.reply.effect == Sigterm(h.handles[id].pid))
              && (id in h.handles && p.procStatus.parentPid != 1 ==>
                    o.reply.effect == ExitPidCalled(0))
  {
    if id !in h.byId then Crash
    else
      var r := h.byId[id];
      var p := SetStatus(h.heap[r], Stopped).(pid := 0);
      var h1 := h.(heap := h.heap[r := p]);
      if id !in h.handles then Done(h1, StopReply(false, NoSignal))
      else if p.procStatus.parentPid == 1 then
        var pid := h.handles[id].pid;
        if !sigterm(pid) then Done(h1, StopReply(false, Sigterm(pid)))
        else Done(h1.(handles := h.handles - {id}), StopReply(true, Sigterm(pid)))
      else Done(h1.(handles := h.handles - {id}), StopReply(true, ExitPidCalled(p.pid)))
  }

  /** Stopping twice: once the first stop has succeeded, the second finds
      no handle and returns false without signalling. */
  lemma SecondStopFails(h: Handler, id: int, s1: int -> bool, s2: int -> bool)
    requires Valid(h) && StopProcess(h, id, s1).Done? && StopProcess(h, id, s1).reply.success
    ensures var o := StopProcess(StopProcess(h, id, s1).h, id, s2);
            o.Done? && o.reply == StopReply(false, NoSignal)
  {
  }

  /** Stop leaves the restart policy alone: auto-restart, the stop flag and
      the parent pid keep their values. */
  lemma StopKeepsRestartPolicy(h: Handler, id: int, sigterm: int -> bool)
    requires Valid(h) && id in h.byId
    ensures var o := StopProcess(h, id, sigterm);
            && Get(o.h, id).autoRestart == Get(h, id).autoRestart
            && Get(o.h, id).stopSignal == Get(h, id).stopSignal
            && Get(o.h, id).procStatus.parentPid == Get(h, id).procStatus.parentPid
  {
  }

  /** A stop that uses `ExitPid` never probes the process it stops: the pid
      it passes is 0, whatever pid the record held. */
  lemma StopProbesPidZero(h: Handler, id: int, sigterm: int -> bool)
    requires Valid(h) && id in h.byId && id in h.handles
    requires Get(h, id).procStatus.parentPid != 1 && Get(h, id).pid != 0
    ensures var o := StopProcess(h, id, sigterm);
            o.reply.effect.ExitPidCalled? && o.reply.effect.pid != Get(h, id).pid
  {
  }

  /** `StopProcess` with the pid read before it is zeroed, as the call to
      `ExitPid` evidently intends; otherwise the same transition. */
  function StopProcessIntended(h: Handler, id: int, sigterm: int -> bool): (o: Outcome<StopReply>)
    requires Valid(h)
    ensures o.Crash? <==> id !in h.byId
    ensures o.Done? && id in h.handles && Get(h, id).procStatus.parentPid != 1 ==>
              o.reply == StopReply(true, ExitPidCalled(Get(h, id).pid))
    ensures o.Done? ==> o.h == StopProcess(h, id, sigterm).h
    ensures o.Done? ==> o.reply.success == StopProcess(h, id, sigterm).reply.success
  {
    if id !in h.byId then Crash
    else
      var pid := Get(h, id).pid;
      match StopProcess(h, id, sigterm)
      case Crash => Crash
      case Done(h2, reply) =>
        if reply.effect.ExitPidCalled? then Done(h2, StopReply(reply.success, ExitPidCalled(pid)))
        else Done(h2, reply)
  }

  /** `DeleteProcess`: drop the id, the record's own name key and the
      handle. The name key goes even if it points at another record. */
  function DeleteProcess(h: Handler, id: int): (o: Outcome<bool>)
    requires Valid(h)
    ensures o.Crash? <==> id !in h.byId
    ensures o.Done? ==>
              && Valid(o.h) && o.reply
              && o.h.byId.Keys == h.byId.Keys - {id}
              && o.h.byName.Keys == h.byName.Keys - {Get(h, id).name}
              && o.h.handles.Keys == h.handles.Keys - {id}
              && o.h.nextId == h.nextId
              && (forall j | j in o.h.byId :: Get(o.h, j) == Get(h, j))
              && (forall n | n in o.h.byName :: Named(o.h, n) == Named(h, n))
              && (forall j | j in o.h.handles :: o.h.handles[j] == h.handles[j])
  {
    if id !in h.byId then Crash
    else
      var p := Get(h, id);
      Done(h.(byId := h.byId - {p.id}, byName := h.byName - {p.name}, handles := h.handles - {id}), true)
  }

  /** After a delete, neither the decimal id nor the record's (non-numeric)
      name finds anything. */
  lemma DeleteThenFind(h: Handler, id: int)
    requires Valid(h) && id in h.byId && Strconv.Atoi(Get(h, id).name).None?
    ensures var o := DeleteProcess(h, id);
            && FindProcess(o.h, Strconv.Itoa(id)).Err?
            && FindProcess(o.h, Get(h, id).name).Err?
  {
    assert IsInt32(Get(h, id).id);
    Strconv.AtoiItoa(id);
  }
}
