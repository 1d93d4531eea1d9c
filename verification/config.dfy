/**
  A gplog logger's configuration and how it is built: NewLogger,
  InitializeLogging and the log file name, and the two prefix lookups.
  The process-wide logger of the Go package is an explicit value here, and
  the user account, host name, pid and clock are inputs.
*/
module Config {
  import opened Wrappers
  import opened Levels
  import opened Prefix
  import opened SeqFacts

  datatype Logger = Logger(
    shellVerbosity: Verbosity,
    fileVerbosity: Verbosity,
    logFileName: string,
    identity: Identity,
    logPrefixFunc: PrefixFunc,
    shellPrefixFunc: PrefixFunc,
    colorize: bool)

  /** The log file verbosity chosen by NewLogger's optional trailing arguments:
      exactly one argument naming a level selects that level; no argument,
      several, or one out of range leave the default, DEBUG. */
  function FileVerbosityOf(args: seq<int>): (v: Verbosity)
    ensures |args| == 1 && 0 <= args[0] <= 3 ==> Rank(v) == args[0]
    ensures !(|args| == 1 && 0 <= args[0] <= 3) ==> v == LogDebug
  {
    if |args| == 1 && FromRank(args[0]).Some? then FromRank(args[0]).value else LogDebug
  }

  /** gplog.NewLogger without its writers: full prefixes everywhere, no colour. */
  function NewLogger(logFileName: string, shellVerbosity: Verbosity, id: Identity, fileVerbosityArgs: seq<int>): (r: Logger)
    ensures r.shellVerbosity == shellVerbosity && r.logFileName == logFileName && r.identity == id
    ensures r.fileVerbosity == FileVerbosityOf(fileVerbosityArgs)
    ensures r.logPrefixFunc.FullPrefixFunc? && r.shellPrefixFunc.FullPrefixFunc? && !r.colorize
  {
    Logger(shellVerbosity, FileVerbosityOf(fileVerbosityArgs), logFileName, id, FullPrefixFunc, FullPrefixFunc, false)
  }

  /** The directory InitializeLogging logs to: the one given, or gpAdminLogs in the home directory. */
  function LogDirectory(logdir: string, homeDir: string): (d: string)
    ensures logdir != "" ==> d == logdir
    ensures logdir == "" ==> d == homeDir + "/gpAdminLogs"
  {
    if logdir == "" then homeDir + "/gpAdminLogs" else logdir
  }

  /** gplog.GenerateLogFileName: "<dir>/<program>_<YYYYMMDD>.log". */
  function LogFileName(program: string, dir: string, now: Timestamp): string {
    dir + "/" + program + "_" + DateStamp(now) + ".log"
  }

  /** A log file name splits back into its directory, its program and its dated suffix. */
  lemma LogFileNameLayout(program: string, dir: string, now: Timestamp)
    requires InRange(now)
    ensures var path := LogFileName(program, dir, now);
      && |path| == |dir| + 1 + |program| + 13
      && path[..|dir| + 1] == dir + "/"
      && path[|dir| + 1..|path| - 13] == program
      && path[|path| - 13..] == "_" + DateStamp(now) + ".log"
  {
    var date := DateStamp(now);
    DateStampLayout(now);
    var path := LogFileName(program, dir, now);
    var head := dir + "/" + program;
    var tail := "_" + date + ".log";
    assert path == head + tail;
    Split2(head, tail);
    Split2(dir + "/", program);
    assert path[..|dir| + 1] == head[..|dir| + 1];
    assert path[|dir| + 1..|path| - 13] == head[|dir| + 1..];
  }

  /** gplog.InitializeLogging: an INFO shell logger with a DEBUG log file in the chosen directory. */
  function InitializeLogging(program: string, logdir: string, user: string, homeDir: string, host: string, pid: nat, now: Timestamp): (r: Logger)
    ensures r.shellVerbosity == LogInfo && r.fileVerbosity == LogDebug
    ensures r.identity == Identity(program, user, host, pid)
    ensures r.logFileName == LogFileName(program, LogDirectory(logdir, homeDir), now)
  {
    var path := LogFileName(program, LogDirectory(logdir, homeDir), now);
    NewLogger(path, LogInfo, Identity(program, user, host, pid), [])
  }

  /** Where the log file of InitializeLogging lives: gpAdminLogs under the home directory
      when no directory is given, the given directory otherwise; the program name and the
      dated suffix follow. */
  lemma InitializeLoggingPath(program: string, logdir: string, user: string, homeDir: string, host: string, pid: nat, now: Timestamp)
    requires InRange(now)
    ensures var path := InitializeLogging(program, logdir, user, homeDir, host, pid, now).logFileName;
      && (logdir == "" ==> path[..|homeDir| + 13] == homeDir + "/gpAdminLogs/")
      && (logdir != "" ==> path[..|logdir| + 1] == logdir + "/")
      && path[|path| - 13 - |program|..|path| - 13] == program
      && path[|path| - 13..] == "_" + DateStamp(now) + ".log"
  {
    var dir := LogDirectory(logdir, homeDir);
    LogFileNameLayout(program, dir, now);
    if logdir == "" {
      assert dir + "/" == homeDir + "/gpAdminLogs/";
    }
  }

  /** gplog.GetLogPrefix: the prefix of log file lines. */
  function GetLogPrefix(lg: Logger, now: Timestamp, level: string): string {
    ApplyPrefix(lg.logPrefixFunc, lg.identity, now, level)
  }

  /** gplog.GetShellLogPrefix: the prefix of stdout and stderr lines. */
  function GetShellLogPrefix(lg: Logger, now: Timestamp, level: string): string {
    ApplyPrefix(lg.shellPrefixFunc, lg.identity, now, level)
  }
}
