/** The daemon's log-rotation settings (utils/config.go) and the
    validation and update done by `pm2-go config set <key> <value>`
    (cmd/config.go). Loading and saving the JSON file are left out: the
    outcome says whether a save happens and with which value. */
module ConfigCmd {
  import opened Wrappers
  import opened GoInt
  import opened Strconv
  import Parser

  datatype Config = Config(logRotate: bool, logRotateSize: int, logRotateMaxFiles: int)

  /** The values written when no config file exists: rotation off, 10 MiB,
      ten files. */
  const DefaultConfig: Config := Config(false, 10485760, 10)

  datatype SetOutcome =
    | Saved(config: Config)  // the updated config is written back
    | NotSaved               // a message is logged and nothing is written
    | Panicked               // a value parser panicked

  /** The `Run` function of `configSetCmd`, after the config was loaded. */
  function ConfigSet(cfg: Config, args: seq<string>): (r: SetOutcome)
    ensures |args| < 2 ==> r == NotSaved
    ensures |args| >= 2 && args[0] !in {"logrotate", "logrotate_max_files", "logrotate_size"} ==> r == NotSaved
    ensures r.Saved? && args[0] == "logrotate" ==>
              r.config == cfg.(logRotate := r.config.logRotate) && (r.config.logRotate <==> args[1] == "true")
    ensures r.Saved? && args[0] == "logrotate_max_files" ==>
              r.config == cfg.(logRotateMaxFiles := r.config.logRotateMaxFiles) && r.config.logRotateMaxFiles >= 0
    ensures r.Saved? && args[0] == "logrotate_size" ==>
              r.config == cfg.(logRotateSize := r.config.logRotateSize)
    ensures r.Saved? && args[0] == "logrotate_max_files" ==>
              Parser.ParseInt(args[1]) == Some(r.config.logRotateMaxFiles)
    ensures r.Saved? && args[0] == "logrotate_size" ==>
              Parser.ParseSize(args[1]) == Some(r.config.logRotateSize)
    ensures r.Saved? <==> |args| >= 2 && (args[0] == "logrotate"
                          || (args[0] == "logrotate_max_files" && Parser.ParseInt(args[1]).Some?
                              && Parser.ParseInt(args[1]).value >= 0)
                          || (args[0] == "logrotate_size" && Parser.ParseSize(args[1]).Some?))
    ensures r.Panicked? <==> |args| >= 2 && ((args[0] == "logrotate_max_files" && Parser.ParseInt(args[1]).None?)
                                         || (args[0] == "logrotate_size" && Parser.ParseSize(args[1]).None?))
  {
    if |args| < 2 then NotSaved
    else if args[0] == "logrotate" then
      Saved(cfg.(logRotate := Parser.ParseBool(args[1])))
    else if args[0] == "logrotate_max_files" then
      match Parser.ParseInt(args[1])
      case None => Panicked
      case Some(maxFiles) =>
        if maxFiles < 0 then NotSaved else Saved(cfg.(logRotateMaxFiles := maxFiles))
    else if args[0] == "logrotate_size" then
      match Parser.ParseSize(args[1])
      case None => Panicked
      case Some(size) => Saved(cfg.(logRotateSize := size))
    else NotSaved
  }

  /** A non-negative count is stored as given; a negative one is refused
      and nothing is saved; text that is not a number panics. */
  lemma SetMaxFiles(cfg: Config, n: int, rest: seq<string>)
    requires IsInt64(n)
    ensures n >= 0 ==> ConfigSet(cfg, ["logrotate_max_files", Itoa(n)] + rest) == Saved(cfg.(logRotateMaxFiles := n))
    ensures n < 0 ==> ConfigSet(cfg, ["logrotate_max_files", Itoa(n)] + rest) == NotSaved
    ensures ConfigSet(cfg, ["logrotate_max_files", "ten"] + rest) == Panicked
  {
    AtoiItoa(n);
    var bad := "ten";
    assert !IsDigit(bad[0]) && bad[0] != '+' && bad[0] != '-';
  }

  /** A size with a unit is stored in bytes. */
  lemma SetSizeInMegabytes(cfg: Config, n: int)
    requires IsInt64(n * Parser.MiB)
    ensures ConfigSet(cfg, ["logrotate_size", Itoa(n) + "M"]) == Saved(cfg.(logRotateSize := n * Parser.MiB))
  {
    Parser.ParseSizeMega(n);
  }
}
