/** The dump-file name chosen by `pm2-go dump [name]` (cmd/dump.go).
    Serialising the process list is left out. */
module DumpCmd {
  import opened GoStrings
  import Utils

  const DefaultDumpName: string := "dump.json"

  /** The file name: the first argument or "dump.json", with ".json"
      appended unless it already ends that way. */
  function DumpFileName(args: seq<string>): (name: string)
    ensures HasSuffix(name, ".json")
    ensures |args| == 0 ==> name == DefaultDumpName
    ensures |args| > 0 && HasSuffix(args[0], ".json") ==> name == args[0]
    ensures |args| > 0 && !HasSuffix(args[0], ".json") ==> name == args[0] + ".json"
  {
    var name := if |args| > 0 then args[0] else DefaultDumpName;
    if HasSuffix(name, ".json") then name
    else
      var r := name + ".json";
      assert r[|r| - |".json"|..] == ".json";
      r
  }

  /** Normalising a normalised name changes nothing. */
  lemma DumpFileNameIdempotent(args: seq<string>)
    ensures DumpFileName([DumpFileName(args)]) == DumpFileName(args)
  {
  }

  /** Where the dump is written. */
  function DumpPath(home: string, args: seq<string>): (path: string)
    ensures path == Utils.MainDirectory(home) + "/" + DumpFileName(args)
  {
    Utils.DumpFilePath(home, DumpFileName(args))
  }
}
