# pm2-go process supervisor — a Dafny model

pm2-go is a process supervisor in the style of pm2. A daemon keeps a
registry of supervised processes. Clients add, spawn, find, list, start,
stop and delete entries over RPC. A scheduler probes every entry twice a
second: it restarts dead ones that have auto-restart on, fires cron
restarts and rotates their log files.

This project models the bookkeeping of that system as pure functions on
immutable datatypes:

- `Registry` is the gRPC daemon's `Handler`.
  - `byId`, `byName` and the live-handle map `processes` are modelled, and so is `nextId`.
  - The Go maps hold pointers to the same `pb.Process`. The model keeps that aliasing with an explicit heap: `byId` and `byName` map to references into `heap`.
  - Every handler is a transition on the `Handler`. A nil-pointer panic is a `Crash` outcome.
- `Scheduler` is one per-entity step: `syncProcess` with `restartProcess`, plus the counter arithmetic of `handleMaxLog`. `LogHistory` follows what repeated rotations leave on disk.
- `PbProcess`, `SharedProcess` and `RpcProcess` are the three revisions of the process record and its helpers. They differ on purpose; for example, `ResetPid` writes 0 in two of them and -1 in the third.
- `LegacyRegistry` is the older net/rpc daemon.
  - Its database is a slice; ids are slice lengths, lookup takes the first match, and delete is a splice.
  - It includes the daemon's sync step.
  - Records are copied by value but share their `*ProcStatus`, so statuses live in a heap of their own.
- `Spawn` covers spawn-parameter defaulting, the pid/log path scheme and argv assembly, in both revisions.
- The remaining modules hold the text and number helpers:
  - `Parser`: the value parsers;
  - `Utils`: the PID-file format, the log tail, `ExitPid`'s decision, `StringContains` and the dump path;
  - `TimestampLogs`: the timestamp line prefixer;
  - `ConfigCmd`: `config set`;
  - `DumpCmd`: the dump-file name.

Some things are not modelled as behaviour; they become parameters:

- the operating system, which is whether a pid is live, the result of a spawn or of a signal, and the `ps` sample;
- the cron library, which is whether an expression parses and its next activation;
- the clock;
- the daemon's own pid.

Go's fixed-width integers are written out where they matter:

- `int32` ids, parent pids and log counters wrap with `Wrap32`;
- `int` sizes wrap with `Wrap64`;
- `strconv.Atoi` is limited to the 64-bit range;
- `time.Duration.Truncate` rounds toward zero.

## Model

| member | source | states |
|---|---|---|
| Registry.New | grpc/server/new_server.go:34-39 | A fresh registry satisfies the invariant, has empty id, name and handle maps, and starts ids at Go's zero value 0. |
| Registry.Insert | grpc/server/add_process.go:56-59 | The record becomes reachable under its id and name and gets an entry in the handle map. Every other id, name and handle entry is left as it was. `nextId` advances by one with int32 wrap-around. |
| Registry.AddProcess | grpc/server/add_process.go:16-62 | Adding succeeds exactly when the cron expression is empty or parses and the pid is live. On success the id is the old `nextId`, which grows by one. The entry is online with parent pid 1, zero CPU and memory and zero uptime. Its fields are copied from the request, with the pid converted to int32. `NextStartAt` is set iff a cron expression is given, and is then next(now). On failure the registry is unchanged. |
| Registry.SpawnProcess | grpc/server/spawn_process.go:18-75 | A failed spawn replies Success=false and changes nothing. An invalid cron or a dead pid is an error that inserts nothing, although the process was already spawned. Success inserts the spawned record under the old `nextId`, online, with the daemon's pid as parent, and advances `nextId` by one. |
| Registry.FindProcess | grpc/server/find_process.go:12-28 | A key that parses as an integer is looked up only by its int32 id; any other key is looked up only by name. A missing entry is an error. Lookup changes nothing. |
| Registry.NumericKeyIgnoresNames | grpc/server/find_process.go:17-18 | A numeric key that matches no id fails even when a process carries that text as its name. |
| Registry.AddThenFindById | grpc/server/find_process.go:17-18 | After a successful add, the decimal text of the returned id finds exactly the added record. |
| Registry.SuccessiveAddsGetDistinctIds | grpc/server/add_process.go:18-59 | Two successive successful adds get consecutive int32 ids, which differ. |
| Registry.RefreshSamples | grpc/server/list_process.go:14-16 | Listing refreshes only each entry's CPU and memory sample; map membership, handles and `nextId` stay as they were. |
| Registry.SortedIds | grpc/server/list_process.go:19-27 | The keys come out strictly ascending, each key of the set exactly once and nothing else. |
| Registry.ListProcess | grpc/server/list_process.go:11-35 | The reply lists every `byId` entry exactly once, in strictly ascending id order. It has as many elements as `byId`, and each is the refreshed stored record. |
| Registry.StartProcess | grpc/server/start_process.go:11-40 | A missing id panics. Otherwise the listed request fields overwrite the record, which becomes online with the stop flag cleared, start time now and uptime 0. The handle for the id is replaced. Restarts, cron, `NextStartAt`, scripts and parent pid are untouched, and so is every other entry. `byName` is not re-keyed. |
| Registry.RenamedFoundOnlyByOldName | grpc/server/start_process.go:20-37 | After a rename through start, the record is still found under its old name, now carrying the new name. The new name finds nothing. |
| Registry.StopProcess | grpc/server/stop_process.go:13-52 | A missing id panics. Status "stopped" and pid 0 are written before any check. Without a handle the reply is false. With parent pid 1 the handle is signalled with SIGTERM, and a failed signal replies false and keeps the handle. Every true reply removes the handle. Any other entry calls `ExitPid` with pid 0. |
| Registry.SecondStopFails | grpc/server/stop_process.go:23-47 | A second stop on the same id replies false without signalling, because the first stop's success cleared the handle. |
| Registry.StopKeepsRestartPolicy | grpc/server/stop_process.go:13-52 | Stop changes neither auto-restart, nor the stop flag, nor the parent pid. |
| Registry.StopProbesPidZero | grpc/server/stop_process.go:21-46 | For a process the daemon spawned, the pid handed to `ExitPid` is 0 and not the process's pid. |
| Registry.StopProcessIntended | grpc/server/stop_process.go:20-51 | The corrected stop hands `ExitPid` the pid that the record held before the call. The registry transition and the success flag are the same as in the code as written. |
| Registry.DeleteProcess | grpc/server/delete_process.go:10-23 | A missing id panics. Otherwise the id leaves `byId` and the handle map, and the record's name key leaves `byName`, even if that key pointed at another record. The reply is true, and `nextId` and every other entry are unchanged. |
| Registry.DeleteThenFind | grpc/server/delete_process.go:16-17 | After a delete, neither the decimal id nor the record's non-numeric name finds anything. |
| Scheduler.RestartProcess | grpc/server/start_scheduler.go:18-53 | A restart attempt adds exactly one restart. A failed spawn leaves auto-restart off, the stop flag set, status stopped, pid and parent pid 0 and no handle, and then crashes because there is no return. A successful spawn sets the new pid, the daemon's int32 pid as parent, status online, uptime 0 and start time now. It keeps a handle iff the new pid is live. |
| Scheduler.MarkExited | grpc/server/start_scheduler.go:65-69 | An exit leaves status stopped, pid and parent pid 0, CPU and memory reset, and the uptime as of now. Restarts, the start time and the restart policy are kept. |
| Scheduler.SyncProcess | grpc/server/start_scheduler.go:59-84 | A live online entry only gets its uptime refreshed. A dead online entry is marked exited, then goes through `restartProcess` if auto-restart is on and no stop was requested; otherwise its handle is dropped. A non-online entry whose `NextStartAt` has passed goes through `restartProcess` on its record as is: a failed spawn crashes, and a successful one is followed by the recomputation of its next activation. Any other entry is untouched. The definition fields never change. |
| Scheduler.ExitWithoutRestart | grpc/server/start_scheduler.go:61-74 | A dead online entry that may not restart ends stopped, with pid and parent pid 0, zero CPU and memory, no handle and an unchanged restart count. |
| Scheduler.RestartOnlyWhenWanted | grpc/server/start_scheduler.go:72-74 | After an exit, the restart count grows iff auto-restart is on and the stop flag is off. |
| Scheduler.ExitWithRestart | grpc/server/start_scheduler.go:72-74 | A dead entry that may restart is online again with the new pid and one more restart, when the spawn succeeds. |
| Scheduler.CronDueRestarts | grpc/server/start_scheduler.go:78-82 | A stopped entry whose cron activation has passed and whose respawn succeeds is online with the new pid, one more restart, the daemon's int32 pid as parent and a handle iff the new pid is live. Its next activation is recomputed, or its cron expression is cleared when it no longer parses. |
| Scheduler.CronDueFailedSpawnCrashes | grpc/server/start_scheduler.go:78-82 | A cron-due entry whose respawn fails crashes the daemon, leaving the record stopped with auto-restart off, one more restart and no handle. |
| Scheduler.LiveOnlyUptime | grpc/server/start_scheduler.go:75-77 | A live online entry differs from before only in its uptime, and keeps its handle. |
| Scheduler.StoppedStaysStopped | grpc/server/start_scheduler.go:60-82 | Any number of ticks leave alone a stopped entry that has no cron schedule. |
| Scheduler.NoRespawnAfterExit | grpc/server/start_scheduler.go:60-82 | Once an entry without auto-restart and without cron has died, no later tick brings it back. |
| Scheduler.LogRotation | grpc/server/start_scheduler.go:93-129 | Rotation happens iff rotation is on and out plus err size exceeds the limit. It renames to the old count. For in-range values, the pair with suffix count+1-max is removed once count+1 reaches max, and the count is then clamped to max. |
| Scheduler.RotationCountInRange | grpc/server/start_scheduler.go:111-129 | The rotation counter never leaves 0..max. |
| Scheduler.HandleMaxLog | grpc/server/start_scheduler.go:90-133 | Only `LogFileCount` changes. Without rotation nothing is renamed or removed. With rotation, the out and err logs are renamed to path "." count, the counter becomes the one `LogRotation` computes, and the out/err pair with `LogRotation`'s removed suffix is deleted, or nothing when it removes none. |
| Scheduler.HandleMaxLogRotates | grpc/server/start_scheduler.go:111-129 | For an in-range counter and maximum, a rotation renames the pair onto the current suffix, sets the counter to count+1 capped at the maximum, and deletes the pair with suffix count+1-max exactly when count+1 reaches the maximum. |
| LogHistory.AsWrittenLosesHistory | grpc/server/start_scheduler.go:111-129 | With three files allowed, five rotations keep only generations 2 and 4, not the last three. |
| LogHistory.IntendedRotation | grpc/server/start_scheduler.go:111-129 | The corrected counter keeps growing. It removes suffix count-max once more than max pairs exist. |
| LogHistory.IntendedKeepsLastMax | grpc/server/start_scheduler.go:111-129 | After n corrected rotations exactly the last max generations are on disk, each under its own suffix. |
| LogHistory.IntendedKeepsThreeOfFive | grpc/server/start_scheduler.go:111-129 | With the corrected rotation, three files and five rotations keep generations 2, 3 and 4. |
| PbProcess.SetStatus | proto/process_extended.go:16-22 | `SetStatus` and `UpdateStatus` set the status and touch nothing else. |
| PbProcess.SetStopSignal | proto/process_extended.go:24-26 | Only the stop flag changes. |
| PbProcess.ResetPid | proto/process_extended.go:28-31 | Exactly pid and parent pid become 0. |
| PbProcess.UpdateUptime | proto/process_extended.go:33-35 | Uptime becomes the elapsed time truncated to whole seconds: a multiple of a second, at most the elapsed time and less than a second below it. Nothing else changes. |
| PbProcess.InitStartedAt | proto/process_extended.go:37-39 | Only the start time changes, to now. |
| PbProcess.InitUptime | proto/process_extended.go:41-43 | Only the uptime changes, to 0. |
| PbProcess.IncreaseRestarts | proto/process_extended.go:45-47 | Only the restart count changes, by exactly one. |
| PbProcess.ResetRestarts | proto/process_extended.go:49-51 | Only the restart count changes, to 0. |
| PbProcess.ResetCpuMemory | proto/process_extended.go:53-56 | CPU becomes "0.0%" and memory "0.0MB"; nothing else changes. |
| PbProcess.UpdateCpuMemory | proto/process_extended.go:58-67 | Pid 0 or a failed sample leaves the record as it was. Otherwise only CPU and memory take the sample. |
| PbProcess.UpdateNextStartAt | proto/process_extended.go:80-90 | An empty cron is a no-op without error. An unparsable one clears the expression, keeps `NextStartAt` and reports an error. A parsable one sets `NextStartAt` to next(now). |
| PbProcess.FailedCronIsForgotten | proto/process_extended.go:82-86 | After a failed update, `NextStartAt` keeps its old value and every later update is a no-op. |
| SharedProcess.SetToStop | shared/process.go:57-63 | `SetToStop` writes the stop flag and `GetToStop` reads it: after a set, `GetToStop` returns the value set, and nothing else changes. |
| SharedProcess.ToStopRemembered | shared/process.go:57-72 | `GetToStop` returns the last value passed to `SetToStop`, whatever other record helpers ran since. |
| SharedProcess.ResetPid | shared/process.go:70-72 | Only the pid changes, to -1, which is not 0. |
| SharedProcess.SetProcess | shared/process.go:46-48 | Only the handle changes. |
| SharedProcess.UpdatePid | shared/process.go:65-68 | The pid and a handle for it are set; nothing else changes. |
| SharedProcess.UpdateProcess | shared/process.go:50-55 | Only the handle changes, to the one for the given pid. |
| SharedProcess.UpdateStatus | shared/process.go:38-40 | Only the status changes. |
| SharedProcess.UpdateUptime | shared/process.go:74-76 | Uptime becomes the elapsed time truncated to whole seconds; nothing else changes. |
| SharedProcess.InitStartedAt | shared/process.go:78-80 | Only the start time changes. |
| SharedProcess.InitUptime | shared/process.go:82-84 | Uptime becomes 0 and nothing else changes. |
| SharedProcess.IncreaseRestarts | shared/process.go:86-88 | Only the restart count changes, by exactly one. |
| SharedProcess.ResetRestarts | shared/process.go:90-92 | Only the restart count changes, to 0. |
| SharedProcess.ResetCpuMemory | shared/process.go:94-97 | CPU becomes "0.0%" and memory "0.0MB"; nothing else changes. |
| SharedProcess.UpdateCpuMemory | shared/process.go:99-108 | Only pid 0 or a failed sample skips the update. Otherwise only CPU and memory take the sample. |
| SharedProcess.SampledAfterResetPid | shared/process.go:70-102 | After `ResetPid` the record is sampled, because -1 is not the skipped pid. |
| RpcProcess.UpdateStatus | rpc/server/process.go:33-35 | Only the status changes. |
| RpcProcess.UpdatePid | rpc/server/process.go:37-40 | The pid and a handle for it are set; nothing else changes. |
| RpcProcess.ResetPid | rpc/server/process.go:42-44 | Only the pid changes, to 0. |
| RpcProcess.UpdateUptime | rpc/server/process.go:46-48 | Uptime becomes the elapsed time truncated to whole seconds; nothing else changes. |
| RpcProcess.InitStartedAt | rpc/server/process.go:50-52 | Only the start time changes. |
| RpcProcess.UpdateRestarts | rpc/server/process.go:54-56 | Only the restart count changes, by exactly one. |
| RpcProcess.ResetCpuMemory | rpc/server/process.go:58-61 | CPU becomes "0.0%" and memory "0.0MB"; nothing else changes. |
| RpcProcess.UpdateCpuMemory | rpc/server/process.go:63-72 | Pid 0 returns early unchanged. Otherwise only CPU and memory take the sample. |
| RpcProcess.ResetRecordNotSampled | rpc/server/process.go:42-66 | In this revision a record whose pid was reset is never sampled. |
| LegacyRegistry.FirstMatch | rpc/server/handler.go:35-40 | The result is the first index whose name equals the key or whose id equals the parsed id. No match means no element matches. |
| LegacyRegistry.FindProcess | rpc/server/handler.go:27-44 | A non-numeric key searches with id -1. The reply is the first matching element in slice order, or the zero record when none matches. |
| LegacyRegistry.AddProcess | rpc/server/handler.go:47-67 | The id is the old slice length. The slice grows by one with the entry last and the rest unchanged. The entry gets a new status block that is online with zero CPU, memory and uptime. It also gets a handle for its pid and a cleared stop flag. |
| LegacyRegistry.StopProcessByIndex | rpc/server/handler.go:69-85 | An index outside the slice panics. Otherwise the reply is true iff the record has a handle and SIGINT reaches it. Nothing changes. |
| LegacyRegistry.StopProcess | rpc/server/handler.go:87-131 | A missing match or a matched pid of 0 replies false and changes nothing. Otherwise the shared status becomes "stopping". The stop flag is set, and the record written back at its id, only with auto-restart on. The reply is true iff a handle exists and SIGINT reaches it, and a true reply leaves the copy for the background write-back. |
| LegacyRegistry.FinishStop | rpc/server/handler.go:118-127 | The background write-back stores the copy with pid 0 at index `ID` and marks the shared status stopped. An id outside the slice panics. |
| LegacyRegistry.UpdateProcess | rpc/server/handler.go:133-162 | Index `ID` of the argument is rewritten. The copied fields come from the argument, and the pid gets a handle. The stop flag is cleared. The shared status becomes online with start time now and uptime 0. An index outside the slice panics. |
| LegacyRegistry.DeleteProcess | rpc/server/handler.go:165-180 | The first match is spliced out and the rest keep their order. The reply is the argument, not the removed record. With no match nothing changes and the reply is the zero record. |
| LegacyRegistry.SyncProcess | rpc/server/main.go:44-84 | Only entries that are online or stopping are examined. A live one only gets its uptime refreshed. A dead one is written back at index `ID` with pid -1 and status stopped. If auto-restart is on and no stop was requested, it is restarted with one more restart, the new pid, status online, uptime 0 and start time now. A failed spawn, or an id outside the slice, ends the daemon. |
| LegacyRegistry.WriteBackAfterDeletePanics | rpc/server/main.go:52 | Once a record before it has been deleted, a record's id no longer matches its position, and syncing it after its process died panics. |
| Spawn.FillDefaults | shared/spawn.go:33-56 | An empty executable path is the only error. An empty name becomes the lower-cased executable path, and an empty cwd becomes the working directory; given values are kept. The pid, out and err paths are main/pids/lower(name).pid, main/logs/lower(name)-out.log and main/logs/lower(name)-err.log. |
| Spawn.FillDefaultsIdempotent | shared/spawn.go:33-56 | Filling in defaults a second time changes nothing. |
| Spawn.PathsIgnoreCase | shared/spawn.go:50-53 | Names that differ only in case share their three paths. |
| Spawn.PathsArePlainJoins | shared/spawn.go:50-53 | Under a clean absolute main directory, a name without "/" lands directly in `pids` and `logs`. |
| Spawn.PrepareSpawn | shared/spawn.go:72-120 | Preparation succeeds exactly when the executable path is non-empty, a python executable has arguments, and `PATH` lookup resolves it. An empty path is the defaulting error, a python executable with no arguments panics, and a lookup failure is reported exactly when the first two checks pass. On success the parameters are the filled defaults with the resolved executable, argv is the resolved executable followed by the arguments in order, and the buffering warning is raised iff the executable is python and its first argument is not "-u". |
| Spawn.FillAppDefaults | app/spawn.go:31-46 | An empty executable path is the only error, and an empty name becomes the lower-cased executable path. |
| Spawn.AppAndSharedAgreeOnPaths | app/spawn.go:40-43 | The older revision derives the same name and the same three paths as the newer one. |
| Spawn.PrepareAppSpawn | app/spawn.go:64-112 | Preparation succeeds exactly when the executable path is non-empty and `PATH` lookup resolves it; an empty path and a failed lookup are the two errors. On success the parameters are the filled defaults with the resolved executable, argv is the resolved executable followed by the arguments, and the process runs in ".". |
| Spawn.SharedAndAppLaunchAgree | app/spawn.go:64-112 | Apart from the daemon revision's python check, both spawners succeed or fail on the same parameters with the same error, and hand the OS the same argument vector and process name. |
| TimestampLogs.NewTimestampWriter | shared/logs.go:16-25 | An empty format becomes "2006-01-02 15:04:05"; a given one is kept. |
| TimestampLogs.Write | shared/logs.go:27-29 | The bytes are appended unchanged, without a timestamp, and their count is returned. |
| TimestampLogs.ScanJoinLines | shared/logs.go:32-33 | Scanning newline-terminated lines gives back exactly those lines. |
| TimestampLogs.ScanFinalUnterminated | shared/logs.go:32-33 | A last line without a newline is still yielded after the complete lines, with a trailing carriage return dropped. |
| TimestampLogs.ScanDropsCR | shared/logs.go:32-33 | A line ending in carriage return and newline is yielded without the carriage return. |
| TimestampLogs.ProcessLogsOneLinePerLine | shared/logs.go:31-38 | Reading back what `processLogs` appended gives one line per scanned input line, in order. Each line reads timestamp ": " line. |
| TimestampLogs.ProcessLogs | shared/logs.go:31-38 | The file keeps its earlier contents and the writer its format. What is appended is, for each scanned input line in order, its timestamp, ": ", the line and a newline. |
| Parser.ParseBool | utils/parser.go:8-10 | True iff the text is exactly "true". |
| Parser.ParseInt | utils/parser.go:12-18 | The result is decimal `Atoi` in the 64-bit range, and a failure (a panic) otherwise. |
| Parser.ParseSize | utils/parser.go:21-49 | The result is in the 64-bit range. The call panics exactly when the count, which is the text with one trailing upper-case K, M or G removed, or all of it when there is none, is not a decimal integer. |
| Parser.ParseIntOfItoa | utils/parser.go:12-18 | Every 64-bit decimal parses back to itself, and a trailing non-digit makes it panic. |
| Parser.ParseSizeBare | utils/parser.go:42-47 | A count without a unit is taken as is. |
| Parser.ParseSizeKilo | utils/parser.go:24-29 | "nK" is n·1024. |
| Parser.ParseSizeMega | utils/parser.go:30-35 | "nM" is n·1024². |
| Parser.ParseSizeGiga | utils/parser.go:36-41 | "nG" is n·1024³. |
| Parser.ParseSizeLowerCaseUnitPanics | utils/parser.go:42-47 | A lower-case unit is no unit, and the count does not parse. |
| Strconv.AtoiItoa | utils/functions.go:72-88 | `Atoi` inverts `Itoa` on every 64-bit value. |
| Utils.PidFileText | utils/functions.go:88 | The PID file holds the decimal pid and no newline. |
| Utils.ReadPidText | utils/functions.go:71-75 | Only the text before the first newline is parsed, as a whole decimal integer. |
| Utils.PidFileRoundTrip | utils/functions.go:71-88 | Reading back a written pid gives that pid, also when a newline and more text follow it. |
| Utils.PidTextWithTrailingJunk | utils/functions.go:71-75 | A trailing space or carriage return on the first line makes the file unreadable. |
| Utils.TailLines | utils/functions.go:172-175 | With fewer than n lines, all are returned; otherwise the last n, in order. A negative n panics. |
| Utils.StringContains | utils/functions.go:95-97 | True iff the second string occurs in the first at some position. |
| Utils.MainDirectory | utils/functions.go:41-57 | The main directory is the home directory followed by "/.pm2-go". |
| Utils.DumpFilePath | utils/functions.go:231-233 | The dump file lives directly in HOME/.pm2-go. |
| Utils.ExitPid | utils/functions.go:186-205 | The process is killed only if every probe within the timeout found it alive. The first probe that finds it gone stops the loop. With no time at all, `Kill` is called on a nil process. |
| ConfigCmd.ConfigSet | cmd/config.go:48-90 | Fewer than two arguments, or an unknown key, save nothing. "logrotate" stores `ParseBool` of the value and changes no other field. "logrotate_max_files" stores the `ParseInt` value and rejects a negative count. "logrotate_size" stores the `ParseSize` value. Each changes only its own field. A save happens exactly for "logrotate", a non-negative parsable count or a parsable size, and the command panics exactly when a numeric key's value does not parse. |
| ConfigCmd.SetMaxFiles | cmd/config.go:69-76 | A non-negative count is stored, a negative one saves nothing, and text that is not a number panics. |
| ConfigCmd.SetSizeInMegabytes | cmd/config.go:77-79 | A size with the M unit is stored in bytes. |
| DumpCmd.DumpFileName | cmd/dump.go:21-29 | With no argument the name is "dump.json"; otherwise it is the argument. ".json" is appended when missing, and the result always ends in ".json". |
| DumpCmd.DumpFileNameIdempotent | cmd/dump.go:27-29 | Normalising a normalised name changes nothing. |
| DumpCmd.DumpPath | cmd/dump.go:38 | The dump is written under the main directory with the normalised name. |

## Left out

- Concurrency: the mutex, the `WaitGroup`, the goroutine fan-out and the 500 ms ticker loops. Each handler call and each per-entity step is one atomic transition.
- Bootstrap: registering the servers, listening, and starting the scheduler before serving.
- `go process.Wait()` and the other reaper goroutines. After a respawn whose pid is not live, `utils.GetProcess` gives a nil `*os.Process` (under the handle-iff-live reading above), so that goroutine dereferences nil and ends the daemon. `Scheduler.RestartProcess` reports `Ran` with no handle there instead.
- The operating system: process creation, `Release`, signals and the `Signal(0)` liveness probe. Each is an oracle parameter. `utils.GetProcess` is not part of this model; it is taken to give a handle exactly when the pid is live.
- The cron library: only "parses" and "next activation" are used, as parameters.
- The `ps` query and its float formatting in the three `UpdateCPUMemory` revisions. The sample is a parameter, so a panic on malformed `ps` output is not modelled.
- File I/O: creating the log and pid files, opening pipes, `Tail`, the 1000-byte seek in `GetLogs`, reading and writing JSON config and dump files, and log renames and removals. Rotation produces the rename and remove lists instead. File sizes are unbounded integers.
- The cobra command wiring, table rendering and the other commands.
- Spawn failures. In this revision of shared/spawn.go every failure is logged with `Fatal`, which exits the whole program, so the `return nil` after it is never reached. The same holds for the app/spawn.go failures that `Spawn.PrepareAppSpawn` models: defaulting, file creation and `PATH` lookup end in `log.Fatal`. The `Err` results of `Spawn.PrepareSpawn` and `Spawn.PrepareAppSpawn` stand for that exit. The older spawner's later failures (marshalling the parameters, writing the pid file, which also kills the process, releasing it, and starting it) log an error and return nil without exiting; they are outside the model. The gRPC callers expect `(process, err)` from `shared.SpawnNewProcess`, which this revision does not return. The model assumes a revision that does: a failed spawn gives `None`, which `Registry.SpawnProcess` answers with `Success=false` and `Scheduler.RestartProcess` with `Crashed`.
- The process-starting half of both `SpawnNewProcess` revisions. Only defaulting, the python check, path lookup and argv assembly are modelled.
- `StartProcess` calls `SetToStop(false)`, which `pb.Process` does not define; it is modelled as clearing the stop flag (`SetStopSignal`).
- `SharedProcess` covers a revision mismatch. This revision of shared/process.go has no `Cwd`, `Scripts` or `SetStatus`, but the legacy handlers use them. The record keeps `Cwd` and `Scripts`, and the legacy `SetStatus("stopping")` is the status update through the shared pointer.
- Stopping sets no "stop requested" flag; the model follows the code (`Registry.StopKeepsRestartPolicy`).
- LegacyRegistry.FinishStop: the `ExitPid` wait before the write-back is not replayed here; `Utils.ExitPid` models its decision on its own.
- Scheduler.RotationCountInRange: stated only for a maximum below the int32 limit. At the limit, the incremented counter wraps to the smallest int32.
- Scheduler.LogRotation: the closed form of the new count and removed suffix is stated for in-range values. Outside that range only the int32 wrap of the result is stated.
- Utils.MainDirectory: `home` is what `os.UserHomeDir` returned successfully. When it fails, for example with HOME empty or unset, `GetMainDirectory` prints the error and exits the program; that exit is not modelled. Creating the main directory and its `pids` and `logs` sub-directories on first use is file I/O outside the model.
- SharedProcess.UpdateUptime, RpcProcess.UpdateUptime: the bounds are stated for a start time that is not in the future. For a negative elapsed time only the whole-second truncation is stated.
- Restart counters are unbounded integers. The int32 (pb) and int (shared) widths are not modelled, since a counter would need 2³¹ restarts to wrap.
- `ToLower` folds ASCII letters only. `path.Clean` is modelled for the joins the program makes, and the properties are proved for plain segments.
- `bufio.Scanner`'s 64 KiB token limit is not modelled.

## Findings

| source | as written | input that shows it | evidently intended | confidence | as-written member | corrected member |
|---|---|---|---|---|---|---|
| grpc/server/start_scheduler.go:111-129 | Once the count reaches the maximum it is clamped there. From the second rotation after the clamp on, each rotation renames onto suffix `.max`, replacing the previous file, and removes suffix 1, which is already gone. | `logrotate_max_files` 3 and five rotations leave generations 2 and 4 on disk; generation 3 was overwritten. | Keep the last `max` rotated files: the count keeps growing, and the suffix `count - max` is removed. | medium, not executed | LogHistory.AsWrittenLosesHistory | LogHistory.IntendedKeepsLastMax |
| grpc/server/stop_process.go:21-46 | `process.Pid = 0` runs before `utils.ExitPid(process.Pid, 1*time.Second)`, so `ExitPid` probes pid 0. Signalling pid 0 fails, so it returns at once and never kills the process. | Stopping any process the daemon spawned itself (parent pid not 1) that is still running. | Hand `ExitPid` the pid the record held before it was zeroed. | high, not executed | Registry.StopProbesPidZero | Registry.StopProcessIntended |
