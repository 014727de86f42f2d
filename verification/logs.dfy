/** The timestamping filter between a child's output pipe and its log
    file (shared/logs.go). The log file is modelled by its content; the
    clock is a parameter giving the formatted time for each line. */
module TimestampLogs {
  import opened Wrappers
  import opened GoStrings

  /** Go's reference-time layout for "YYYY-MM-DD hh:mm:ss". */
  const DefaultFormat: string := "2006-01-02 15:04:05"

  datatype TimestampWriter = TimestampWriter(file: string, timestampFormat: string)

  /** `newTimestampWriter`: an empty format falls back to the default. */
  function NewTimestampWriter(file: string, format: string): (w: TimestampWriter)
    ensures w.file == file
    ensures format == "" ==> w.timestampFormat == DefaultFormat
    ensures format != "" ==> w.timestampFormat == format
  {
    TimestampWriter(file, if format == "" then DefaultFormat else format)
  }

  /** `Write`: the bytes go to the file unchanged, with no timestamp. */
  function Write(w: TimestampWriter, p: string): (r: (TimestampWriter, int))
    ensures |r.0.file| == |w.file| + |p|
    ensures r.0.file[..|w.file|] == w.file && r.0.file[|w.file|..] == p
    ensures r.0.timestampFormat == w.timestampFormat
    ensures r.1 == |p|
  {
    (w.(file := w.file + p), |p|)
  }

  /** `bufio.ScanLines`' treatment of one line: a trailing "\r" is dropped. */
  function DropCR(line: string): string {
    if |line| > 0 && line[|line| - 1] == '\r' then line[..|line| - 1] else line
  }

  /** The lines `bufio.Scanner` yields with the default `ScanLines` split:
      text up to each "\n", and a final unterminated line if non-empty. */
  function ScanLines(data: string): (lines: seq<string>)
    ensures forall k | 0 <= k < |lines| :: '\n' !in lines[k]
    decreases |data|
  {
    if |data| == 0 then []
    else
      match IndexOf(data, '\n')
      case None => [DropCR(data)]
      case Some(i) => [DropCR(data[..i])] + ScanLines(data[i + 1..])
  }

  /** Scanning text that starts with a complete line yields that line,
      without a trailing "\r", and then the rest. */
  lemma ScanFirstLine(line: string, rest: string)
    requires '\n' !in line
    ensures ScanLines(line + "\n" + rest) == [DropCR(line)] + ScanLines(rest)
  {
    IndexOfAfterPrefix(line, '\n', rest);
    var data := line + "\n" + rest;
    assert data[..|line|] == line;
    assert data[|line| + 1..] == rest;
  }

  /** A last line without "\n" is still yielded, with a trailing "\r"
      dropped. */
  lemma {:induction false} ScanFinalUnterminated(lines: seq<string>, last: string)
    requires forall k | 0 <= k < |lines| :: ScannableLine(lines[k])
    requires last != "" && '\n' !in last
    ensures ScanLines(JoinLines(lines) + last) == lines + [DropCR(last)]
    decreases |lines|
  {
    if |lines| == 0 {
      assert JoinLines(lines) + last == last;
    } else {
      var rest := JoinLines(lines[1..]) + last;
      assert JoinLines(lines) + last == lines[0] + "\n" + rest;
      assert ScannableLine(lines[0]);
      ScanFirstLine(lines[0], rest);
      ScanFinalUnterminated(lines[1..], last);
      assert lines == [lines[0]] + lines[1..];
    }
  }

  /** A line ending in "\r\n" is yielded without the "\r". */
  lemma ScanDropsCR(line: string, rest: string)
    requires ScannableLine(line)
    ensures ScanLines(line + "\r\n" + rest) == [line] + ScanLines(rest)
  {
    var crl := line + "\r";
    assert '\n' !in crl;
    assert line + "\r\n" + rest == crl + "\n" + rest;
    ScanFirstLine(crl, rest);
    assert DropCR(crl) == line;
  }

  /** Every line followed by "\n". */
  function JoinLines(lines: seq<string>): string {
    if |lines| == 0 then "" else lines[0] + "\n" + JoinLines(lines[1..])
  }

  /** A line that scanning hands back unchanged. */
  predicate ScannableLine(line: string) {
    '\n' !in line && !(|line| > 0 && line[|line| - 1] == '\r')
  }

  /** Scanning newline-terminated lines recovers exactly those lines. */
  lemma {:induction false} ScanJoinLines(lines: seq<string>)
    requires forall k | 0 <= k < |lines| :: ScannableLine(lines[k])
    ensures ScanLines(JoinLines(lines)) == lines
    decreases |lines|
  {
    if |lines| > 0 {
      var rest := JoinLines(lines[1..]);
      IndexOfAfterPrefix(lines[0], '\n', rest);
      var data := lines[0] + "\n" + rest;
      assert data[..|lines[0]|] == lines[0];
      assert data[|lines[0]| + 1..] == rest;
      ScanJoinLines(lines[1..]);
    }
  }

  /** The text `processLogs` writes for one scanned line. */
  function StampedLine(stamp: string, line: string): string {
    stamp + ": " + line + "\n"
  }

  /** The output for lines `from..` of `lines`; `stamp(k)` is the time,
      formatted with the writer's layout, at which line `k` was read. */
  function StampAll(lines: seq<string>, stamp: nat -> string, from: nat): string
    decreases |lines|
  {
    if |lines| == 0 then ""
    else StampedLine(stamp(from), lines[0]) + StampAll(lines[1..], stamp, from + 1)
  }

  /** `processLogs`: appends one stamped line per scanned input line. */
  function ProcessLogs(w: TimestampWriter, input: string, stamp: nat -> string): (w': TimestampWriter)
    ensures w'.timestampFormat == w.timestampFormat
    ensures |w'.file| >= |w.file| && w'.file[..|w.file|] == w.file
    ensures w'.file[|w.file|..] == JoinLines(Stamped(ScanLines(input), stamp, 0))
  {
    StampAllIsJoin(ScanLines(input), stamp, 0);
    w.(file := w.file + StampAll(ScanLines(input), stamp, 0))
  }

  /** The stamped lines that reading the log back would yield. */
  function Stamped(lines: seq<string>, stamp: nat -> string, from: nat): (r: seq<string>)
    ensures |r| == |lines|
    ensures forall k | 0 <= k < |lines| :: r[k] == stamp(from + k) + ": " + lines[k]
  {
    seq(|lines|, k requires 0 <= k < |lines| => stamp(from + k) + ": " + lines[k])
  }

  lemma {:induction false} StampAllIsJoin(lines: seq<string>, stamp: nat -> string, from: nat)
    ensures StampAll(lines, stamp, from) == JoinLines(Stamped(lines, stamp, from))
    decreases |lines|
  {
    if |lines| > 0 {
      StampAllIsJoin(lines[1..], stamp, from + 1);
      var s := Stamped(lines, stamp, from);
      assert s[1..] == Stamped(lines[1..], stamp, from + 1);
    }
  }

  /** Every scanned input line becomes exactly one output line, in order,
      reading "<timestamp>: <line>": scanning what `processLogs` appended
      gives back the stamped input lines. Timestamps never hold a newline
      and a line ending in "\r" would lose it on the way back. */
  lemma ProcessLogsOneLinePerLine(w: TimestampWriter, input: string, stamp: nat -> string)
    requires forall k: nat :: '\n' !in stamp(k)
    requires forall k | 0 <= k < |ScanLines(input)| :: !(|ScanLines(input)[k]| > 0 && ScanLines(input)[k][|ScanLines(input)[k]| - 1] == '\r')
    ensures var lines := ScanLines(input);
            var added := ProcessLogs(w, input, stamp).file[|w.file|..];
            ScanLines(added) == Stamped(lines, stamp, 0)
  {
    var lines := ScanLines(input);
    var out := Stamped(lines, stamp, 0);
    StampAllIsJoin(lines, stamp, 0);
    forall k | 0 <= k < |out|
      ensures ScannableLine(out[k])
    {
      var t := out[k];
      assert t == stamp(k) + ": " + lines[k];
      assert '\n' !in stamp(k) && '\n' !in lines[k];
      if |lines[k]| == 0 {
        assert t[|t| - 1] == ' ';
      } else {
        assert t[|t| - 1] == lines[k][|lines[k]| - 1];
      }
    }
    ScanJoinLines(out);
    assert ProcessLogs(w, input, stamp).file[|w.file|..] == StampAll(lines, stamp, 0);
  }
}
