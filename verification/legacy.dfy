/** The net/rpc daemon's registry (rpc/server/handler.go) and its
    per-entity sync step (rpc/server/main.go). The database is a slice of
    `shared.Process` values; ids are assigned as the slice length and
    records are written back at index `ID`. Record copies share their
    `*ProcStatus`, kept here in a status heap. */
module LegacyRegistry {
  import opened Wrappers
  import opened GoInt
  import Strconv
  import opened ProcTerms
  import opened SharedProcess

  datatype Api = Api(database: seq<Process>, statuses: map<StatusRef, Status>, nextStatus: StatusRef)

  /** Every stored record has a non-negative id and an allocated status. */
  predicate Valid(api: Api) {
    && (forall r | r in api.statuses :: r < api.nextStatus)
    && (forall i | 0 <= i < |api.database| :: StoredRecord(api, api.database[i]))
  }

  predicate StoredRecord(api: Api, p: Process) {
    p.id >= 0 && p.procStatus.Some? && p.procStatus.value in api.statuses
  }

  function StatusOf(api: Api, p: Process): Status
    requires StoredRecord(api, p)
  {
    api.statuses[p.procStatus.value]
  }

  /** A handler result; `Crash` is a Go panic or a `Fatal` log call,
      both of which end the daemon. */
  datatype Outcome<T> = Done(api: Api, reply: T) | Crash

  /** The search condition of the linear scans. */
  predicate Matches(v: Process, name: string, id: int) {
    v.name == name || v.id == id
  }

  /** The index of the first element matching `name` or `id`. */
  function FirstMatch(db: seq<Process>, name: string, id: int): (r: Option<nat>)
    ensures r.Some? ==> r.value < |db| && Matches(db[r.value], name, id)
    ensures r.Some? ==> forall j | 0 <= j < r.value :: !Matches(db[j], name, id)
    ensures r.None? ==> forall j | 0 <= j < |db| :: !Matches(db[j], name, id)
  {
    if |db| == 0 then None
    else if Matches(db[0], name, id) then Some(0)
    else
      match FirstMatch(db[1..], name, id)
      case None => None
      case Some(i) => Some(i + 1)
  }

  /** `FindProcess`: a key that is not a number searches with id -1, which
      no record has. Without a match the reply is the zero record. */
  function FindProcess(api: Api, key: string): (r: Process)
    ensures var id := if Strconv.Atoi(key).Some? then Strconv.Atoi(key).value else -1;
            && (r != Zero ==> exists i :: 0 <= i < |api.database| && api.database[i] == r)
            && ((forall j | 0 <= j < |api.database| :: !Matches(api.database[j], key, id)) ==> r == Zero)
            && (forall i | 0 <= i < |api.database| && Matches(api.database[i], key, id) &&
                  (forall j | 0 <= j < i :: !Matches(api.database[j], key, id)) :: r == api.database[i])
  {
    var id := match Strconv.Atoi(key) case Some(v) => v case None => -1;
    match FirstMatch(api.database, key, id)
    case Some(i) => api.database[i]
    case None => Zero
  }

  /** A key that is not a number finds the first record of that name, or
      the zero record. */
  lemma NonNumericKeyMatchesByName(api: Api, key: string)
    requires Valid(api) && Strconv.Atoi(key).None?
    ensures forall i | 0 <= i < |api.database| && api.database[i].name == key &&
              (forall j | 0 <= j < i :: api.database[j].name != key) :: FindProcess(api, key) == api.database[i]
    ensures (forall j | 0 <= j < |api.database| :: api.database[j].name != key) ==> FindProcess(api, key) == Zero
  {
  }

  /** The status block `AddProcess` gives a record. */
  function FreshStatus(now: int): Status {
    Status(Online, now, 0, 0, ZeroCpu, ZeroMemory)
  }

  /** `AddProcess`: the id is the slice length and the record goes last,
      with a new status block, a handle for its pid and the stop flag off. */
  function AddProcess(api: Api, process: Process, now: int): (r: (Api, Process))
    requires Valid(api)
    ensures Valid(r.0)
    ensures var (api2, p) := r;
            && |api2.database| == |api.database| + 1
            && api2.database[..|api.database|] == api.database
            && api2.database[|api.database|] == p
            && p.id == |api.database|
            && StoredRecord(api2, p) && StatusOf(api2, p) == FreshStatus(now)
            && p.procStatus.value !in api.statuses
            && (forall s | s in api.statuses :: s in api2.statuses && api2.statuses[s] == api.statuses[s])
            && p.handle == Some(Handle(process.pid)) && !GetToStop(p)
            && p.(id := process.id, procStatus := process.procStatus, handle := process.handle,
                  toStop := process.toStop) == process
  {
    var ref := api.nextStatus;
    var p := process.(procStatus := Some(ref), id := |api.database|);
    var p := SetToStop(SetProcess(p, Some(Handle(p.pid))), false);
    (Api(api.database + [p], api.statuses[ref := FreshStatus(now)], ref + 1), p)
  }

  /** `StopProcessByIndex`: signal the record's handle with SIGINT;
      `sigint(pid)` tells whether delivery succeeds. */
  function StopProcessByIndex(api: Api, index: int, sigint: int -> bool): (o: Outcome<bool>)
    ensures o.Crash? <==> !(0 <= index < |api.database|)
    ensures o.Done? ==> o.api == api
    ensures o.Done? ==> (o.reply <==> api.database[index].handle.Some? && sigint(api.database[index].handle.value.pid))
  {
    if !(0 <= index < |api.database|) then Crash
    else
      match api.database[index].handle
      case None => Done(api, false)
      case Some(h) => Done(api, sigint(h.pid))
  }

  /** A successful `StopProcess` reply and the record copy its background
      goroutine later writes back. */
  datatype StopReply = StopReply(success: bool, pending: Option<Process>)

  /** `StopProcess`. The status becomes "stopping" through the shared
      pointer whether or not the record is written back; the stop flag is
      set, and the record written back at index `ID`, only with
      auto-restart on. */
  function StopProcess(api: Api, process: Process, sigint: int -> bool): (o: Outcome<StopReply>)
    requires Valid(api)
    ensures o.Done? ==> Valid(o.api)
    ensures var i := FirstMatch(api.database, process.name, process.id);
            i.None? || api.database[i.value].pid == 0 ==> o == Done(api, StopReply(false, None))
    ensures var i := FirstMatch(api.database, process.name, process.id);
            i.Some? && api.database[i.value].pid != 0 ==>
              var found := api.database[i.value];
              && (o.Crash? <==> found.autoRestart && found.id >= |api.database|)
              && (o.Done? ==>
                    && o.api.statuses.Keys == api.statuses.Keys
                    && StatusOf(o.api, found).status == Stopping
                    && (found.autoRestart ==> o.api.database == api.database[found.id := SetToStop(found, true)])
                    && (!found.autoRestart ==> o.api.database == api.database)
                    && (o.reply.success <==> found.handle.Some? && sigint(found.handle.value.pid))
                    && (o.reply.success ==> o.reply.pending == Some(SetToStop(found, found.autoRestart || found.toStop))))
  {
    var found := match FirstMatch(api.database, process.name, process.id)
                 case Some(i) => api.database[i]
                 case None => Zero;
    if found.pid == 0 then Done(api, StopReply(false, None))
    else
      var ref := found.procStatus.value;
      var api1 := api.(statuses := api.statuses[ref := UpdateStatus(api.statuses[ref], Stopping)]);
      if found.autoRestart && found.id >= |api.database| then Crash
      else
        var found := if found.autoRestart then SetToStop(found, true) else found;
        var api2 := if found.autoRestart then api1.(database := api.database[found.id := found]) else api1;
        match found.handle
        case None => Done(api2, StopReply(false, None))
        case Some(h) =>
          if !sigint(h.pid) then Done(api2, StopReply(false, None))
          else Done(api2, StopReply(true, Some(found)))
  }

  /** The goroutine `StopProcess` leaves behind, after `ExitPid`: pid 0,
      status "stopped", and the copy written back at index `ID`. */
  function FinishStop(api: Api, found: Process): (o: Outcome<()>)
    requires Valid(api) && StoredRecord(api, found)
    ensures o.Crash? <==> found.id >= |api.database|
    ensures o.Done? ==>
              && Valid(o.api) && o.api.statuses.Keys == api.statuses.Keys
              && o.api.database == api.database[found.id := found.(pid := 0)]
              && StatusOf(o.api, found).status == Stopped
  {
    if found.id >= |api.database| then Crash
    else
      var ref := found.procStatus.value;
      Done(Api(api.database[found.id := found.(pid := 0)],
               api.statuses[ref := UpdateStatus(api.statuses[ref], Stopped)], api.nextStatus), ())
  }

  /** `UpdateProcess`: rewrite the record at index `ID` of the argument. */
  function UpdateProcess(api: Api, np: Process, now: int): (o: Outcome<Process>)
    requires Valid(api)
    ensures o.Crash? <==> !(0 <= np.id < |api.database|)
    ensures o.Done? ==>
              var prev := api.database[np.id];
              var q := o.reply;
              && Valid(o.api) && o.api.statuses.Keys == api.statuses.Keys
              && o.api.database == api.database[np.id := q]
              && q.id == prev.id && q.procStatus == prev.procStatus && q.scripts == prev.scripts
              && q.name == np.name && q.executablePath == np.executablePath && q.args == np.args
              && q.pidFilePath == np.pidFilePath && q.logFilePath == np.logFilePath
              && q.errFilePath == np.errFilePath && q.autoRestart == np.autoRestart && q.cwd == np.cwd
              && q.pid == np.pid && q.handle == Some(Handle(np.pid)) && !GetToStop(q)
              && StatusOf(o.api, q) == StatusOf(api, prev).(status := Online, startedAt := now, uptime := 0)
  {
    if !(0 <= np.id < |api.database|) then Crash
    else
      var process := api.database[np.id];
      var ref := process.procStatus.value;
      var s := UpdateStatus(InitUptime(InitStartedAt(api.statuses[ref], now)), Online);
      var q := UpdatePid(process, np.pid);
      var q := q.(name := np.name, executablePath := np.executablePath, args := np.args,
                  pidFilePath := np.pidFilePath, logFilePath := np.logFilePath,
                  errFilePath := np.errFilePath, autoRestart := np.autoRestart, cwd := np.cwd);
      var q := SetToStop(SetProcess(q, Some(Handle(q.pid))), false);
      Done(Api(api.database[np.id := q], api.statuses[ref := s], api.nextStatus), q)
  }

  /** `DeleteProcess`: splice out the first match. The reply is the
      argument, not the removed record; without a match it is the zero
      record and nothing changes. */
  function DeleteProcess(api: Api, process: Process): (r: (Api, Process))
    requires Valid(api)
    ensures Valid(r.0) && r.0.statuses == api.statuses
    ensures var i := FirstMatch(api.database, process.name, process.id);
            && (i.None? ==> r == (api, Zero))
            && (i.Some? ==>
                  && r.1 == process
                  && |r.0.database| == |api.database| - 1
                  && r.0.database[..i.value] == api.database[..i.value]
                  && r.0.database[i.value..] == api.database[i.value + 1..])
  {
    match FirstMatch(api.database, process.name, process.id)
    case None => (api, Zero)
    case Some(i) => (api.(database := api.database[..i] + api.database[i + 1..]), process)
  }

  /** Deleting keeps the other records in their order: the result is the
      old slice with one element taken out. */
  lemma DeleteKeepsOrder(api: Api, process: Process)
    requires Valid(api) && FirstMatch(api.database, process.name, process.id).Some?
    ensures var i := FirstMatch(api.database, process.name, process.id).value;
            var db := DeleteProcess(api, process).0.database;
            forall k | 0 <= k < |db| :: db[k] == api.database[if k < i then k else k + 1]
  {
  }

  // ---------------------------------------------------------------------
  // The sync step of rpc/server/main.go

  /** `syncProcess` for the record copy `p`. `live` is the liveness probe;
      `spawned` the pid `shared.SpawnNewProcess` started, `None` when it
      failed (it logs with `Fatal`, which exits). */
  function SyncProcess(api: Api, p: Process, live: int -> bool, spawned: Option<int>, now: int): (o: Outcome<()>)
    requires Valid(api) && StoredRecord(api, p)
    ensures o.Done? ==> Valid(o.api) && o.api.nextStatus == api.nextStatus
    ensures StatusOf(api, p).status !in {Online, Stopping} ==> o == Done(api, ())
    ensures StatusOf(api, p).status in {Online, Stopping} && live(p.pid) ==>
              o == Done(api.(statuses := api.statuses[p.procStatus.value := UpdateUptime(StatusOf(api, p), now)]), ())
    ensures StatusOf(api, p).status in {Online, Stopping} && !live(p.pid) ==>
              && (o.Crash? <==> p.id >= |api.database| || (p.autoRestart && !GetToStop(p) && spawned.None?))
              && (o.Done? ==>
                    && o.api.statuses.Keys == api.statuses.Keys
                    && |o.api.database| == |api.database|
                    && (forall k | 0 <= k < |api.database| && k != p.id :: o.api.database[k] == api.database[k])
                    && (forall r | r in api.statuses && r != p.procStatus.value ::
                          o.api.statuses[r] == api.statuses[r])
                    && var s := StatusOf(o.api, p);
                    if p.autoRestart && !GetToStop(p) then
                         && o.api.database[p.id] == UpdatePid(p, spawned.value)
                         && s.status == Online && s.uptime == 0 && s.startedAt == now
                         && s.restarts == StatusOf(api, p).restarts + 1
                       else
                         && o.api.database[p.id] == ResetPid(p)
                         && s == UpdateStatus(UpdateUptime(StatusOf(api, p), now), Stopped))
  {
    var ref := p.procStatus.value;
    var s := api.statuses[ref];
    if s.status != Online && s.status != Stopping then Done(api, ())
    else if live(p.pid) then Done(api.(statuses := api.statuses[ref := UpdateUptime(s, now)]), ())
    else
      var s1 := UpdateStatus(UpdateUptime(s, now), Stopped);
      var q := ResetPid(p);
      if q.id >= |api.database| then Crash
      else
        var api1 := Api(api.database[q.id := q], api.statuses[ref := s1], api.nextStatus);
        if !(q.autoRestart && !GetToStop(q)) then Done(api1, ())
        else
          var s2 := IncreaseRestarts(s1);
          match spawned
          case None => Crash
          case Some(pid) =>
            var q2 := SharedProcess.UpdateProcess(SetProcess(q.(pid := pid), None), pid);
            var s3 := InitStartedAt(InitUptime(UpdateStatus(s2, Online)), now);
            Done(Api(api1.database[q.id := q2], api.statuses[ref := s3], api.nextStatus), ())
  }

  /** Ids stop matching positions once a record before them is deleted:
      with records 0 and 1, deleting the first and then syncing the second
      after its process died writes at index 1 of a one-element slice,
      which panics. */
  lemma WriteBackAfterDeletePanics(a: Process, b: Process, s: Status, live: int -> bool, now: int)
    requires a.id == 0 && b.id == 1 && a.name != b.name
    requires a.procStatus == Some(0) && b.procStatus == Some(1)
    requires s.status == Online && !live(b.pid)
    ensures var api := Api([a, b], map[0 := s, 1 := s], 2);
            var api2 := DeleteProcess(api, a).0;
            api2.database == [b] && SyncProcess(api2, b, live, None, now).Crash?
  {
    var api := Api([a, b], map[0 := s, 1 := s], 2);
    assert FirstMatch(api.database, a.name, a.id) == Some(0);
    assert DeleteProcess(api, a).0.database == [b];
  }
}
