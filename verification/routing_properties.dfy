/**
  The routing rules gplog promises, proved of Route: the threshold of each
  call, the stream and label it uses, how Custom splits its two copies, what
  the fatal calls write and how they end, and that colour only ever touches
  console lines.
*/
module RoutingProperties {
  import opened Wrappers
  import opened Text
  import opened Levels
  import opened Prefix
  import opened Config
  import opened Colour
  import opened Routing

  /** Info reaches stdout iff the shell verbosity is at least INFO, and the log file iff the
      file verbosity is; both copies carry the INFO label. */
  lemma InfoThreshold(lg: Logger, now: Timestamp, m: string)
    ensures var e := Route(lg, now, Info(m));
      && (e.stdout != [] <==> AtLeast(lg.shellVerbosity, LogInfo))
      && (e.logFile != [] <==> AtLeast(lg.fileVerbosity, LogInfo))
      && e.stderr == [] && e.outcome == Returned
      && (e.stdout != [] ==> e.stdout == [GetShellLogPrefix(lg, now, "INFO") + m])
      && (e.logFile != [] ==> e.logFile == [GetLogPrefix(lg, now, "INFO") + m])
  {
  }

  /** Success follows Info's thresholds and label; its console line is green when colourising. */
  lemma SuccessThreshold(lg: Logger, now: Timestamp, m: string)
    ensures var e := Route(lg, now, Success(m));
      && (e.stdout != [] <==> AtLeast(lg.shellVerbosity, LogInfo))
      && (e.logFile != [] <==> AtLeast(lg.fileVerbosity, LogInfo))
      && e.stderr == [] && e.outcome == Returned
      && (e.stdout != [] ==> e.stdout == [Paint(lg, Some(Green), GetShellLogPrefix(lg, now, "INFO") + m)])
      && (e.logFile != [] ==> e.logFile == [GetLogPrefix(lg, now, "INFO") + m])
  {
  }

  /** Verbose needs VERBOSE on each side and is labelled DEBUG. */
  lemma VerboseThreshold(lg: Logger, now: Timestamp, m: string)
    ensures var e := Route(lg, now, Verbose(m));
      && (e.stdout != [] <==> AtLeast(lg.shellVerbosity, LogVerbose))
      && (e.logFile != [] <==> AtLeast(lg.fileVerbosity, LogVerbose))
      && e.stderr == [] && e.outcome == Returned
      && (e.stdout != [] ==> e.stdout == [GetShellLogPrefix(lg, now, "DEBUG") + m])
      && (e.logFile != [] ==> e.logFile == [GetLogPrefix(lg, now, "DEBUG") + m])
  {
  }

  /** Debug needs DEBUG on each side and is labelled DEBUG. */
  lemma DebugThreshold(lg: Logger, now: Timestamp, m: string)
    ensures var e := Route(lg, now, Debug(m));
      && (e.stdout != [] <==> lg.shellVerbosity == LogDebug)
      && (e.logFile != [] <==> lg.fileVerbosity == LogDebug)
      && e.stderr == [] && e.outcome == Returned
      && (e.stdout != [] ==> e.stdout == [GetShellLogPrefix(lg, now, "DEBUG") + m])
      && (e.logFile != [] ==> e.logFile == [GetLogPrefix(lg, now, "DEBUG") + m])
  {
  }

  /** Warn reaches stdout and the log file at every verbosity, labelled WARNING, yellow on the console. */
  lemma WarnAlwaysReaches(lg: Logger, now: Timestamp, m: string)
    ensures var e := Route(lg, now, Warn(m));
      && e.stdout == [Paint(lg, Some(Yellow), GetShellLogPrefix(lg, now, "WARNING") + m)]
      && e.stderr == []
      && e.logFile == [GetLogPrefix(lg, now, "WARNING") + m]
      && e.outcome == Returned
  {
  }

  /** Error reaches stderr (never stdout) and the log file at every verbosity, labelled ERROR,
      red on the console. */
  lemma ErrorAlwaysReaches(lg: Logger, now: Timestamp, m: string)
    ensures var e := Route(lg, now, Error(m));
      && e.stdout == []
      && e.stderr == [Paint(lg, Some(Red), GetShellLogPrefix(lg, now, "ERROR") + m)]
      && e.logFile == [GetLogPrefix(lg, now, "ERROR") + m]
      && e.outcome == Returned
  {
  }

  /** Of the ordinary calls, only Error writes to stderr, and Error never writes to stdout. */
  lemma StreamChoice(lg: Logger, now: Timestamp, call: Call)
    requires call.Info? || call.Success? || call.Warn? || call.Verbose? || call.Debug? || call.Error?
    ensures var e := Route(lg, now, call);
      && (call.Error? ==> e.stdout == [] && e.stderr != [])
      && (!call.Error? ==> e.stderr == [])
  {
  }

  /** Custom routes two independent copies: the console copy is gated by the shell verbosity
      against shellLevel and goes to stderr exactly when shellLevel is ERROR; the file copy is
      gated by the file verbosity against fileLevel and carries fileLevel's label. */
  lemma CustomRouting(lg: Logger, now: Timestamp, fileLevel: Verbosity, shellLevel: Verbosity, m: string)
    ensures var e := Route(lg, now, Custom(fileLevel, shellLevel, m));
      && (e.stdout != [] <==> AtLeast(lg.shellVerbosity, shellLevel) && shellLevel != LogError)
      && (e.stderr != [] <==> shellLevel == LogError)
      && (e.logFile != [] <==> AtLeast(lg.fileVerbosity, fileLevel))
      && (e.logFile != [] ==> e.logFile == [GetLogPrefix(lg, now, Label(fileLevel)) + m])
      && (e.stdout != [] ==> e.stdout == [GetShellLogPrefix(lg, now, Label(shellLevel)) + m])
      && (e.stderr != [] ==> e.stderr == [Paint(lg, Some(Red), GetShellLogPrefix(lg, now, "ERROR") + m)])
      && e.outcome == Returned
  {
    AtLeastTotalOrder(lg.shellVerbosity, shellLevel, LogError);
  }

  /** Fatal writes exactly one CRITICAL line to the log file whatever its verbosity, nothing to
      the console, and panics with the shell prefix followed by the same text. */
  lemma FatalRouting(lg: Logger, now: Timestamp, err: Option<string>, text: string)
    ensures var e := Route(lg, now, Fatal(err, text));
      && e.stdout == [] && e.stderr == []
      && e.logFile == [GetLogPrefix(lg, now, "CRITICAL") + FatalText(err, text)]
      && e.outcome == Panicked(GetShellLogPrefix(lg, now, "CRITICAL") + FatalText(err, text))
  {
  }

  /** Under the short shell prefix the panic message is "CRITICAL: " and the text. */
  lemma FatalShortPanic(lg: Logger, now: Timestamp, err: Option<string>, text: string)
    requires lg.shellPrefixFunc.ShortPrefixFunc?
    ensures Route(lg, now, Fatal(err, text)).outcome == Panicked("CRITICAL: " + FatalText(err, text))
  {
    ShortPrefixTable();
    assert GetShellLogPrefix(lg, now, "CRITICAL") == "CRITICAL: ";
  }

  /** The fatal text is the error alone when there is no further text, and
      "error: text" with the text trimmed otherwise. */
  lemma FatalTextShape(e: string, text: string)
    ensures FatalText(Some(e), "") == e
    ensures text != "" ==> FatalText(Some(e), text) == e + ": " + TrimSpace(text)
    ensures FatalText(None, text) == TrimSpace(text)
  {
    assert TrimSpace("") == "";
  }

  /** FatalWithoutPanic writes to stderr and the log file, not stdout, and exits. */
  lemma FatalWithoutPanicRouting(lg: Logger, now: Timestamp, m: string)
    ensures var e := Route(lg, now, FatalWithoutPanic(m));
      && e.stdout == []
      && e.stderr == [GetShellLogPrefix(lg, now, "CRITICAL") + m]
      && e.logFile == [GetLogPrefix(lg, now, "CRITICAL") + m]
      && e.outcome == Exited
  {
  }

  /** FatalOnError with no error does nothing at all. */
  lemma FatalOnErrorNil(lg: Logger, now: Timestamp, output: seq<string>)
    ensures Route(lg, now, FatalOnError(None, output)) == Emission([], [], [], Returned)
  {
  }

  /** FatalOnError with an error panics with "err: output" (output trimmed), or with the error
      alone when the output is absent or blank. */
  lemma FatalOnErrorPanics(lg: Logger, now: Timestamp, err: string, output: seq<string>)
    ensures var body := if output == [] || TrimSpace(output[0]) == "" then err else err + ": " + TrimSpace(output[0]);
      && Route(lg, now, FatalOnError(Some(err), output)).outcome == Panicked(GetShellLogPrefix(lg, now, "CRITICAL") + body)
      && Route(lg, now, FatalOnError(Some(err), output)).logFile == [GetLogPrefix(lg, now, "CRITICAL") + body]
      && Route(lg, now, FatalOnError(Some(err), output)).stdout == []
      && Route(lg, now, FatalOnError(Some(err), output)).stderr == []
  {
    var t := if output == [] then "" else TrimSpace(output[0]);
    var body := if output == [] || TrimSpace(output[0]) == "" then err else err + ": " + TrimSpace(output[0]);
    if t == "" {
      FatalTextShape(err, "");
    } else {
      TrimSpaceIdempotent(output[0]);
    }
    assert FatalText(Some(err), t) == body;
  }

  /** FatalOnError with an error and output is Fatal with the trimmed first line of output. */
  lemma FatalOnErrorIsFatal(lg: Logger, now: Timestamp, err: string, out: string, rest: seq<string>)
    ensures Route(lg, now, FatalOnError(Some(err), [out] + rest)) == Route(lg, now, Fatal(Some(err), TrimSpace(out)))
  {
    TrimSpaceIdempotent(out);
  }

  function PaintAll(colour: Option<Color>, lines: seq<string>): (r: seq<string>)
    ensures |r| == |lines|
  {
    if colour.None? || lines == [] then lines else [Colorize(colour.value, lines[0])] + PaintAll(colour, lines[1..])
  }

  /** Painting a line before its gate is painting the copies after it. */
  lemma PassPaints(v: Verbosity, gate: Gate, colour: Option<Color>, line: string)
    ensures Pass(v, gate, if colour.Some? then Colorize(colour.value, line) else line)
         == PaintAll(colour, Pass(v, gate, line))
  {
  }

  /** A gate passes at least as many copies to a more verbose destination, and a copy it
      passes at the lower verbosity it passes unchanged at the higher one. */
  lemma PassGrows(v: Verbosity, w: Verbosity, gate: Gate, line: string)
    requires AtLeast(w, v)
    ensures |Pass(v, gate, line)| <= |Pass(w, gate, line)|
    ensures Pass(v, gate, line) != [] ==> Pass(w, gate, line) == Pass(v, gate, line)
  {
  }

  /** Colourising changes nothing but the console lines, and those only by wrapping them in
      the call's colour; the log file line and the outcome are the same either way. */
  lemma ColourOnlyOnConsole(lg: Logger, now: Timestamp, call: Call)
    ensures var plain := Route(lg.(colorize := false), now, call);
      var painted := Route(lg.(colorize := true), now, call);
      && painted.logFile == plain.logFile
      && painted.outcome == plain.outcome
      && painted.stdout == PaintAll(ConsoleColour(call), plain.stdout)
      && painted.stderr == PaintAll(ConsoleColour(call), plain.stderr)
  {
    var line := GetShellLogPrefix(lg, now, ShellTag(call)) + Body(call);
    PassPaints(lg.shellVerbosity, StdoutGate(call), ConsoleColour(call), line);
    PassPaints(lg.shellVerbosity, StderrGate(call), ConsoleColour(call), line);
  }

  /** Levels are cumulative: raising the shell verbosity never removes a console line, and
      raising the file verbosity never removes a log file line. */
  lemma VerbosityMonotone(lg: Logger, now: Timestamp, call: Call, shell: Verbosity, file: Verbosity)
    requires AtLeast(shell, lg.shellVerbosity) && AtLeast(file, lg.fileVerbosity)
    ensures var before := Route(lg, now, call);
      var after := Route(lg.(shellVerbosity := shell, fileVerbosity := file), now, call);
      && |before.stdout| <= |after.stdout|
      && |before.stderr| <= |after.stderr|
      && |before.logFile| <= |after.logFile|
      && (before.stdout != [] ==> after.stdout == before.stdout)
      && (before.stderr != [] ==> after.stderr == before.stderr)
      && (before.logFile != [] ==> after.logFile == before.logFile)
  {
    var lg' := lg.(shellVerbosity := shell, fileVerbosity := file);
    assert GetShellLogPrefix(lg', now, ShellTag(call)) == GetShellLogPrefix(lg, now, ShellTag(call));
    assert GetLogPrefix(lg', now, FileTag(call)) == GetLogPrefix(lg, now, FileTag(call));
    var c := Paint(lg, ConsoleColour(call), GetShellLogPrefix(lg, now, ShellTag(call)) + Body(call));
    var f := GetLogPrefix(lg, now, FileTag(call)) + Body(call);
    PassGrows(lg.shellVerbosity, shell, StdoutGate(call), c);
    PassGrows(lg.shellVerbosity, shell, StderrGate(call), c);
    PassGrows(lg.fileVerbosity, file, FileGate(call), f);
  }

  /** The log file copy does not depend on anything console-side: the shell verbosity, the
      shell prefix function or colour. */
  lemma LogFileIgnoresConsole(lg: Logger, now: Timestamp, call: Call, shell: Verbosity, shellPrefix: PrefixFunc, colorize: bool)
    ensures Route(lg.(shellVerbosity := shell, shellPrefixFunc := shellPrefix, colorize := colorize), now, call).logFile
         == Route(lg, now, call).logFile
  {
    var lg' := lg.(shellVerbosity := shell, shellPrefixFunc := shellPrefix, colorize := colorize);
    assert GetLogPrefix(lg', now, FileTag(call)) == GetLogPrefix(lg, now, FileTag(call));
  }

  /** The console copies do not depend on anything file-side: the file verbosity or the log
      prefix function. */
  lemma ConsoleIgnoresLogFile(lg: Logger, now: Timestamp, call: Call, file: Verbosity, logPrefix: PrefixFunc)
    ensures var e := Route(lg.(fileVerbosity := file, logPrefixFunc := logPrefix), now, call);
      e.stdout == Route(lg, now, call).stdout && e.stderr == Route(lg, now, call).stderr
  {
    var lg' := lg.(fileVerbosity := file, logPrefixFunc := logPrefix);
    assert GetShellLogPrefix(lg', now, ShellTag(call)) == GetShellLogPrefix(lg, now, ShellTag(call));
  }
}
