/** The pure parts of utils/functions.go: the PID-file text format, the
    tail selection behind `logs`, the kill-after-timeout decision of
    `ExitPid`, substring search and the dump-file location. */
module Utils {
  import opened Wrappers
  import opened GoInt
  import opened GoStrings
  import opened Strconv

  /** The text `WritePidToFile` stores: the decimal pid, no newline. */
  function PidFileText(pid: int): (text: string)
    ensures '\n' !in text
    ensures |text| >= 1
  {
    Itoa(pid)
  }

  /** `ReadPidFile` on a file's content: only the text before the first
      newline is parsed, and it must be a whole decimal integer. */
  function ReadPidText(content: string): (r: Option<int>)
    ensures r.Some? ==> IsInt64(r.value)
    ensures '\n' !in content ==> r == Atoi(content)
  {
    Atoi(BeforeFirst(content, '\n'))
  }

  /** Reading a PID file back yields the pid that was written, also when a
      newline and further text follow it. */
  lemma PidFileRoundTrip(pid: int, rest: string)
    requires IsInt64(pid)
    ensures ReadPidText(PidFileText(pid)) == Some(pid)
    ensures ReadPidText(PidFileText(pid) + "\n" + rest) == Some(pid)
  {
    AtoiItoa(pid);
    var t := PidFileText(pid);
    IndexOfAfterPrefix(t, '\n', rest);
    assert (t + "\n" + rest)[..|t|] == t;
  }

  /** A PID file whose first line carries trailing spaces or a carriage
      return does not parse. */
  lemma PidTextWithTrailingJunk(pid: int, junk: char)
    requires junk == ' ' || junk == '\r'
    ensures ReadPidText(PidFileText(pid) + [junk]) == None
  {
    var s := PidFileText(pid) + [junk];
    assert s[|s| - 1] == junk;
  }

  /** The selection at the end of `GetLogs`: all lines when there are fewer
      than `n`, otherwise the last `n`. A negative `n` makes the slice
      expression panic. */
  function TailLines(lines: seq<string>, n: int): (r: Option<seq<string>>)
    ensures n < 0 <==> r.None?
    ensures r.Some? ==> |r.value| == if |lines| < n then |lines| else n
    ensures r.Some? ==> lines == lines[..|lines| - |r.value|] + r.value
  {
    if |lines| < n then Some(lines)
    else if n < 0 then None
    else Some(lines[|lines| - n..])
  }

  /** `StringContains`. */
  function StringContains(s: string, sub: string): (r: bool)
    ensures r <==> exists i :: OccursAt(s, sub, i)
  {
    ContainsIsOccurrence(s, sub);
    Contains(s, sub)
  }

  /** `GetMainDirectory` (without its directory creation): $HOME/.pm2-go.
      `home` is the successful result of `os.UserHomeDir`. */
  function MainDirectory(home: string): (dir: string)
    ensures |dir| == |home| + |"/.pm2-go"|
    ensures dir[..|home|] == home && dir[|home|..] == "/.pm2-go"
  {
    home + "/.pm2-go"
  }

  /** `GetDumpFilePath`: the file name inside the main directory. */
  function DumpFilePath(home: string, fileName: string): (path: string)
    ensures path == MainDirectory(home) + "/" + fileName
    ensures |path| == |home| + |"/.pm2-go/"| + |fileName|
  {
    home + "/.pm2-go/" + fileName
  }

  /** The polling interval of `ExitPid`: 50 ms in nanoseconds. */
  const ProbeInterval: int := 50_000_000

  /** How many liveness probes `ExitPid` makes at most for a timeout. */
  function ProbeBudget(timeout: int): nat {
    if timeout <= 0 then 0 else (timeout + ProbeInterval - 1) / ProbeInterval
  }

  /** What `ExitPid` ends up doing. */
  datatype ExitDecision =
    | SawExit(probe: nat)  // the probe with this index found the process gone
    | Killed               // every probe found it alive, so it is killed
    | NilKill              // no probe ran, and Kill is called on a nil process

  /** `ExitPid`: probe every 50 ms until the timeout is used up; kill the
      process only when no probe found it gone. `alive(k)` is the outcome
      of the k-th liveness probe. */
  method ExitPid(timeout: int, alive: nat -> bool) returns (d: ExitDecision)
    ensures d.Killed? <==> timeout > 0 && forall k | 0 <= k < ProbeBudget(timeout) :: alive(k)
    ensures d.NilKill? <==> timeout <= 0
    ensures d.SawExit? ==> d.probe < ProbeBudget(timeout) && !alive(d.probe)
    ensures d.SawExit? ==> forall k | 0 <= k < d.probe :: alive(k)
  {
    var remaining := timeout;
    var k: nat := 0;
    var probed := false;
    while remaining > 0
      invariant remaining == timeout - k * ProbeInterval
      invariant k <= ProbeBudget(timeout)
      invariant remaining > 0 ==> k < ProbeBudget(timeout)
      invariant remaining <= 0 ==> k == ProbeBudget(timeout)
      invariant probed <==> k > 0
      invariant forall j | 0 <= j < k :: alive(j)
      decreases remaining
    {
      if !alive(k) {
        return SawExit(k);
      }
      probed := true;
      remaining := remaining - ProbeInterval;
      k := k + 1;
    }
    if probed {
      d := Killed;
    } else {
      d := NilKill;
    }
  }
}
