/**
  Where each gplog output call sends its line. Every call decides, from the
  logger alone, whether a line goes to stdout, stderr and the log file,
  which level label it carries and which prefix it gets; the fatal calls
  then panic or exit. A call's effect is an Emission: the lines written to
  each destination and how the call ends.
*/
module Routing {
  import opened Wrappers
  import opened Text
  import opened Levels
  import opened Prefix
  import opened Config
  import opened Colour

  /** One gplog output call, with its message already formatted. */
  datatype Call =
    | Info(msg: string)
    | Success(msg: string)
    | Warn(msg: string)
    | Verbose(msg: string)
    | Debug(msg: string)
    | Error(msg: string)
    | Custom(fileLevel: Verbosity, shellLevel: Verbosity, msg: string)
    | Fatal(err: Option<string>, text: string)
    | FatalWithoutPanic(msg: string)
    | FatalOnError(err: Option<string>, output: seq<string>)

  /** How the call ends: it returns, panics with a message, or exits the process with status 1. */
  datatype Outcome = Returned | Panicked(message: string) | Exited

  datatype Emission = Emission(stdout: seq<string>, stderr: seq<string>, logFile: seq<string>, outcome: Outcome)

  /** A console line, coloured when the logger colourises and the call has a colour. */
  function Paint(lg: Logger, colour: Option<Color>, line: string): string {
    if lg.colorize && colour.Some? then Colorize(colour.value, line) else line
  }

  /** The level label of a call's log file line. */
  function FileTag(call: Call): string {
    match call
    case Info(_) => "INFO"
    case Success(_) => "INFO"
    case Warn(_) => "WARNING"
    case Verbose(_) => "DEBUG"
    case Debug(_) => "DEBUG"
    case Error(_) => "ERROR"
    case Custom(fileLevel, _, _) => Label(fileLevel)
    case _ => "CRITICAL"
  }

  /** The level label of a call's console line (or of its panic message). */
  function ShellTag(call: Call): string {
    match call
    case Custom(_, shellLevel, _) => Label(shellLevel)
    case _ => FileTag(call)
  }

  /** When a destination gets a copy: never, always, or when its verbosity reaches a level. */
  datatype Gate = Never | Always | AtLevel(level: Verbosity)

  /** The copy a destination of verbosity v receives through a gate. */
  function Pass(v: Verbosity, gate: Gate, line: string): seq<string> {
    match gate
    case Never => []
    case Always => [line]
    case AtLevel(level) => if AtLeast(v, level) then [line] else []
  }

  /** Info and Success need INFO, Verbose VERBOSE, Debug DEBUG; Warn always reaches stdout, and
      Custom's console copy does unless it is an ERROR copy, which goes to stderr instead. */
  function StdoutGate(call: Call): Gate {
    match call
    case Info(_) => AtLevel(LogInfo)
    case Success(_) => AtLevel(LogInfo)
    case Warn(_) => Always
    case Verbose(_) => AtLevel(LogVerbose)
    case Debug(_) => AtLevel(LogDebug)
    case Custom(_, shellLevel, _) => if shellLevel == LogError then Never else AtLevel(shellLevel)
    case _ => Never
  }

  /** Error and FatalWithoutPanic always reach stderr, and so does an ERROR-level Custom copy. */
  function StderrGate(call: Call): Gate {
    match call
    case Error(_) => Always
    case Custom(_, shellLevel, _) => if shellLevel == LogError then AtLevel(LogError) else Never
    case FatalWithoutPanic(_) => Always
    case _ => Never
  }

  /** The file copy uses the same thresholds as the console, against the file verbosity; Warn,
      Error and the fatal calls are always logged, FatalOnError only with an error. */
  function FileGate(call: Call): Gate {
    match call
    case Info(_) => AtLevel(LogInfo)
    case Success(_) => AtLevel(LogInfo)
    case Warn(_) => Always
    case Verbose(_) => AtLevel(LogVerbose)
    case Debug(_) => AtLevel(LogDebug)
    case Error(_) => Always
    case Custom(fileLevel, _, _) => AtLevel(fileLevel)
    case Fatal(_, _) => Always
    case FatalWithoutPanic(_) => Always
    case FatalOnError(err, _) => if err.Some? then Always else Never
  }

  /** The colour a call's console line is painted with when the logger colourises. */
  function ConsoleColour(call: Call): Option<Color> {
    match call
    case Success(_) => Some(Green)
    case Warn(_) => Some(Yellow)
    case Error(_) => Some(Red)
    case Custom(_, shellLevel, _) => if shellLevel == LogError then Some(Red) else None
    case _ => None
  }

  /** The text of a fatal message: the error, then ": " and the trimmed text when there is text. */
  function FatalText(err: Option<string>, text: string): string {
    match err
    case None => TrimSpace(text)
    case Some(e) => e + (if text != "" then ": " else "") + TrimSpace(text)
  }

  /** What follows the prefix: the message, or for the fatal calls their fatal text. */
  function Body(call: Call): string {
    match call
    case Fatal(err, text) => FatalText(err, text)
    case FatalOnError(err, output) => FatalText(err, if output == [] then "" else TrimSpace(output[0]))
    case FatalWithoutPanic(m) => m
    case Custom(_, _, m) => m
    case Info(m) => m
    case Success(m) => m
    case Warn(m) => m
    case Verbose(m) => m
    case Debug(m) => m
    case Error(m) => m
  }

  /** How a call ends; `message` is what a panic carries. */
  function OutcomeOf(call: Call, message: string): Outcome {
    match call
    case Fatal(_, _) => Panicked(message)
    case FatalOnError(err, _) => if err.Some? then Panicked(message) else Returned
    case FatalWithoutPanic(_) => Exited
    case _ => Returned
  }

  /** What one call writes where, and how it ends: one log file line and one console line,
      each carrying its destination's prefix for the call's label, passed to the destinations
      the call's gates open. A panic carries the uncoloured console line. */
  function Route(lg: Logger, now: Timestamp, call: Call): (e: Emission)
    ensures |e.stdout| <= 1 && |e.stderr| <= 1 && |e.logFile| <= 1
    ensures e.stdout == [] || e.stderr == []
    ensures e.outcome.Panicked? <==> call.Fatal? || (call.FatalOnError? && call.err.Some?)
    ensures e.outcome.Exited? <==> call.FatalWithoutPanic?
  {
    var body := Body(call);
    var fileLine := GetLogPrefix(lg, now, FileTag(call)) + body;
    var shellLine := GetShellLogPrefix(lg, now, ShellTag(call)) + body;
    var console := Paint(lg, ConsoleColour(call), shellLine);
    Emission(
      Pass(lg.shellVerbosity, StdoutGate(call), console),
      Pass(lg.shellVerbosity, StderrGate(call), console),
      Pass(lg.fileVerbosity, FileGate(call), fileLine),
      OutcomeOf(call, shellLine))
  }
}
