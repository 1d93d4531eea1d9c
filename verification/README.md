# gplog and gperror, modelled in Dafny

This project models two packages of cloudberry-go-libs:

- **gplog**, the logger of the Greenplum/Cloudberry utilities. It covers:
  - how a logger is configured (`NewLogger`, `InitializeLogging`, the log file path, the verbosity defaults);
  - the prefixes it puts in front of each line (the full `YYYYMMDD:HH:MM:SS program:user:host:pid-[LEVEL]:-` prefix, the short `LEVEL: ` console prefix, custom prefix functions);
  - ANSI colouring of console lines;
  - the routing table that decides which of stdout, stderr and the log file each call (`Info`, `Success`, `Warn`, `Verbose`, `Debug`, `Error`, `Custom`, `Fatal`, `FatalWithoutPanic`, `FatalOnError`) writes to, and how it ends.
- **gperror**, a coded error value rendered as `ERROR[<code>] <message>`, with its accessors and its formatting constructor.

gplog.go and gperror.go are not part of this model. The behaviour follows the expectations written in `gplog/gplog_test.go` and `gperror/gperror_test.go`.

A logger is an immutable `Config.Logger` record passed to every call. The operating system's answers (user, home directory, host, pid, the clock) are parameters. `Routing.Route(logger, now, call)` returns an `Emission`:
- the lines written to stdout, to stderr and to the log file, as sequences of strings;
- an `Outcome`: returned, panicked with a message, or exited.

Route reads as a table. For each call it builds one log file line and one console line. Each line is the destination's prefix for the call's label followed by the call's text. Each destination receives the line through a `Gate`:
- never;
- always;
- or only when the destination's verbosity reaches a given level.

Modules:

| file | module | content |
|---|---|---|
| levels.dfy | Levels | verbosity levels, their order and labels |
| decimal.dfy | Decimal | decimal digits, zero padding, signed integers |
| text.dfy | Text | Go's `strings.TrimSpace` |
| fmt.dfy | Fmt | the `%s`/`%%` part of Go's `fmt.Sprintf` |
| prefix.dfy | Prefix | timestamps, headers, full and short prefixes |
| config.dfy | Config | the logger record, NewLogger, InitializeLogging, GetLogPrefix |
| colour.dfy | Colour | ANSI colouring and its inverse |
| routing.dfy | Routing | the routing table |
| routing_properties.dfy | RoutingProperties | what each call writes where |
| gperror.dfy | GpErrors | the coded error |
| scenarios.dfy | Scenarios | the concrete cases of the test files |
| wrappers.dfy, seqfacts.dfy | Wrappers, SeqFacts | Option and sequence slicing facts |

## Model

| member | source | states |
|---|---|---|
| Levels.FromRank | gplog/gplog_test.go:56-75 | exactly the integers 0..3 name a level, and the level named has that rank |
| Levels.AtLeastTotalOrder | gplog/gplog_test.go:215-273 | verbosity levels form a total order from ERROR to DEBUG, so a logger's levels are cumulative |
| Levels.Label | gplog/gplog_test.go:194-200 | ERROR and INFO carry their own labels; VERBOSE and DEBUG both carry DEBUG |
| Config.FileVerbosityOf | gplog/gplog_test.go:56-75 | the file verbosity is the one argument when exactly one valid level is given; otherwise (no argument, several, or an invalid one such as 42) it is DEBUG |
| Config.NewLogger | gplog/gplog_test.go:56-75 | a new logger keeps the shell verbosity, file name and identity, takes its file verbosity from the optional arguments, uses the full prefix on both sides and does not colourise |
| Config.LogFileName | gplog/gplog_test.go:110-120 | GenerateLogFileName: `<dir>/<program>_<YYYYMMDD>.log`; its contract is carried by Config.LogFileNameLayout |
| Config.GetLogPrefix | gplog/gplog_test.go:135-153 | the log file prefix is the logger's log prefix function applied to the level: the full prefix by default, a custom function's own result otherwise; Scenarios.TestFullPrefix and RoutingProperties.LogFileIgnoresConsole carry its contract |
| Config.GetShellLogPrefix | gplog/gplog_test.go:155-191 | the console prefix is the logger's shell prefix function applied to the level: full, short or custom; Prefix.ShortPrefixTable and RoutingProperties.ConsoleIgnoresLogFile carry its contract |
| Config.LogDirectory | gplog/gplog_test.go:82-98 | the log directory is the given one, or `<home>/gpAdminLogs` when none is given |
| Config.InitializeLogging | gplog/gplog_test.go:82-98 | the initialised logger is at INFO on the console and DEBUG in the file, with the caller's identity and the dated log file in the chosen directory |
| Config.LogFileNameLayout | gplog/gplog_test.go:110-120 | the log path is the directory, '/', the program name, then `_YYYYMMDD.log`, each at a fixed position |
| Config.InitializeLoggingPath | gplog/gplog_test.go:82-98 | with no directory the path starts `<home>/gpAdminLogs/`, otherwise it starts `<dir>/`; the program name and `_YYYYMMDD.log` follow |
| Decimal.ZeroPadValue | gplog/gplog_test.go:136-140 | a zero-padded field reads back as the number it renders |
| Decimal.ZeroPadOfValue | gplog/gplog_test.go:136-140 | a digit field is the zero-padding of its own value to its width |
| Decimal.ParseIntString | gperror/gperror_test.go:28-32 | the decimal rendering of an error code reads back as that code |
| Decimal.IntStringOfParse | gperror/gperror_test.go:28-32 | every string the reader accepts as a code is the canonical rendering of it |
| Prefix.DateStamp | gplog/gplog_test.go:82-88 | the date stamp is all digits; its layout and round trip are Prefix.DateStampLayout, Prefix.ParseDateStampOfStamp and Prefix.DateStampOfParse |
| Prefix.LogTimestamp | gplog/gplog_test.go:136-140 | the `YYYYMMDD:HH:MM:SS` timestamp; its layout and round trip are Prefix.LogTimestampLayout, Prefix.ParseLogTimestampOfStamp and Prefix.LogTimestampOfParse |
| Prefix.HeaderFormat | gplog/gplog_test.go:141-151 | GetHeader: `program:user:host:<pid>-[%s]:-`; its contract is carried by Prefix.HeaderFormatFills |
| Prefix.FullPrefix | gplog/gplog_test.go:136-165 | the default prefix, timestamp, space, header; its contract is carried by Prefix.FullPrefixLayout, Prefix.LevelOfFullPrefix and Prefix.FullPrefixOfLevel |
| Prefix.DateStampLayout | gplog/gplog_test.go:82-88 | the date stamp is 8 characters: year, month and day zero-padded to 4, 2 and 2 |
| Prefix.LogTimestampLayout | gplog/gplog_test.go:136-140 | the timestamp is 17 characters: the date stamp, then hour, minute and second, each zero-padded and preceded by ':' |
| Prefix.ParseLogTimestampOfStamp | gplog/gplog_test.go:136-140 | the clock can be read back out of a timestamp |
| Prefix.LogTimestampOfParse | gplog/gplog_test.go:136-140 | every 17-character string the reader accepts is the timestamp of the clock it reads |
| Prefix.ParseDateStampOfStamp | gplog/gplog_test.go:82-88 | the date can be read back out of a date stamp |
| Prefix.DateStampOfParse | gplog/gplog_test.go:82-88 | every date stamp the reader accepts is the stamp of the date it reads |
| Prefix.HeaderFormatFills | gplog/gplog_test.go:141-151 | the header format (GetHeader) has one `%s` verb, and Sprintf with a level gives the header for that level |
| Prefix.FullPrefixIsStemLevel | gplog/gplog_test.go:153-165 | the full prefix is a level-independent stem, the level verbatim, then `]:-` |
| Prefix.LevelOfFullPrefix | gplog/gplog_test.go:153-165 | the level can be read back out of a full prefix, including unknown and empty levels |
| Prefix.FullPrefixOfLevel | gplog/gplog_test.go:153-165 | every string the level reader accepts is the full prefix of the level it reads |
| Prefix.FullPrefixInjective | gplog/gplog_test.go:153-165 | different levels give different full prefixes |
| Prefix.HeaderHeadPid | gplog/gplog_test.go:136-140 | the header before the level has fixed length and holds the pid zero-padded to six digits |
| Prefix.PrefixStemLayout | gplog/gplog_test.go:136-140 | the stem is the timestamp, a space, then the header, with the pid field at a fixed offset |
| Prefix.FullPrefixLayout | gplog/gplog_test.go:136-140 | a full prefix starts with a 17-character timestamp that reads back as the clock, then a space, and holds the six-digit pid at a fixed offset |
| Prefix.ShortPrefix | gplog/gplog_test.go:166-176 | the short prefix is the level followed by ": " exactly for WARNING, ERROR and CRITICAL, and empty for every other level |
| Prefix.ShortPrefixTable | gplog/gplog_test.go:166-176 | the short prefix is empty for DEBUG, INFO, unknown and empty levels and `LEVEL: ` for WARNING, ERROR and CRITICAL |
| Colour.Colorize | gplog/gplog_test.go:989-1041 | a coloured line is 9 characters longer and holds the text unchanged between the escape codes |
| Colour.DecolorizeColorize | gplog/gplog_test.go:989-1041 | a coloured line can be split back into its colour and its text |
| Colour.ColorizeOfDecolorize | gplog/gplog_test.go:989-1041 | every line that splits is the colouring of its parts |
| Text.TrimSpace | gplog/gplog_test.go:206-213 | Go's strings.TrimSpace, never longer than its input; its contract is carried by the Text.TrimSpace lemmas below |
| Text.TrimSpaceEdges | gplog/gplog_test.go:206-213 | trimmed output neither starts nor ends with white space |
| Text.TrimSpaceSubstring | gplog/gplog_test.go:206-213 | trimmed output is a contiguous piece of the output with only white space cut on both sides |
| Text.TrimSpaceIdentity | gplog/gplog_test.go:206-213 | trimming leaves a string unchanged exactly when it is empty or has no white space at either end |
| Text.TrimSpaceIdempotent | gplog/gplog_test.go:206-213 | trimming twice is trimming once |
| Text.TrimSpaceEmpty | gplog/gplog_test.go:206-213 | trimming gives the empty string exactly when the output is all white space |
| Fmt.Sprintf | gperror/gperror_test.go:46-53 | the `%s`/`%%` part of Go's fmt.Sprintf; its contract is carried by Fmt.SprintfFillsTemplate |
| Fmt.SprintfFillsTemplate | gperror/gperror_test.go:46-53 | with one argument per `%s` and no other '%', Sprintf substitutes the arguments in order |
| Routing.Route | gplog/gplog_test.go:194-213 | every call writes at most one line per destination and never writes to both stdout and stderr; it panics exactly for Fatal and for FatalOnError with an error, and exits exactly for FatalWithoutPanic |
| RoutingProperties.InfoThreshold | gplog/gplog_test.go:221-228 | Info reaches stdout iff the shell verbosity is at least INFO and the file iff the file verbosity is; both lines carry the INFO prefix; never stderr |
| RoutingProperties.SuccessThreshold | gplog/gplog_test.go:229-236 | Success follows Info's thresholds and label; its console line is green when colourising |
| RoutingProperties.VerboseThreshold | gplog/gplog_test.go:448-456 | Verbose needs VERBOSE on each side and carries the DEBUG label |
| RoutingProperties.DebugThreshold | gplog/gplog_test.go:516-566 | Debug needs DEBUG on each side and carries the DEBUG label |
| RoutingProperties.WarnAlwaysReaches | gplog/gplog_test.go:239-246 | Warn writes its WARNING line to stdout (yellow when colourising) and the log file at every verbosity, never to stderr |
| RoutingProperties.ErrorAlwaysReaches | gplog/gplog_test.go:266-273 | Error writes its ERROR line to stderr (red when colourising) and the log file at every verbosity, never to stdout |
| RoutingProperties.StreamChoice | gplog/gplog_test.go:194-200 | among the ordinary calls, Error writes to stderr and not stdout, and every other call never writes to stderr |
| RoutingProperties.CustomRouting | gplog/gplog_test.go:287-312 | Custom's console copy is gated by the shell verbosity against shellLevel and goes to stderr iff shellLevel is ERROR; its file copy is gated by the file verbosity against fileLevel and carries fileLevel's label |
| RoutingProperties.FatalRouting | gplog/gplog_test.go:274-286 | Fatal writes exactly one CRITICAL line to the log file whatever its verbosity, nothing to the console, and panics with the console prefix and the same text |
| RoutingProperties.FatalShortPanic | gplog/gplog_test.go:917-929 | under the short console prefix Fatal panics with "CRITICAL: " and its text |
| RoutingProperties.FatalTextShape | gplog/gplog_test.go:202-213 | the fatal text is the error alone without further text, and `error: text` otherwise (the text trimmed, a reconstruction listed under Left out) |
| RoutingProperties.FatalWithoutPanicRouting | gplog/gplog_test.go:691-699 | FatalWithoutPanic writes its CRITICAL line to stderr and the log file, not stdout, and exits |
| RoutingProperties.FatalOnErrorNil | gplog/gplog_test.go:202-204 | FatalOnError without an error writes nothing and returns |
| RoutingProperties.FatalOnErrorPanics | gplog/gplog_test.go:205-212 | FatalOnError with an error writes nothing to the console, logs a CRITICAL line and panics with `err: output` (output trimmed), or with the error alone when the output is absent or blank |
| RoutingProperties.FatalOnErrorIsFatal | gplog/gplog_test.go:205-212 | FatalOnError with an error and output behaves exactly as Fatal with the error and the trimmed first line of output |
| RoutingProperties.ColourOnlyOnConsole | gplog/gplog_test.go:962-1041 | colourising leaves the log file line and the outcome unchanged and only wraps each console line in the call's colour |
| RoutingProperties.VerbosityMonotone | gplog/gplog_test.go:215-791 | raising the shell or the file verbosity never removes a line from that side: a line written before is written, unchanged, after |
| RoutingProperties.LogFileIgnoresConsole | gplog/gplog_test.go:616-726 | the log file line does not depend on the shell verbosity, the console prefix function or colour |
| RoutingProperties.ConsoleIgnoresLogFile | gplog/gplog_test.go:616-726 | the console lines do not depend on the file verbosity or the log file prefix function |
| GpErrors.ParseErrorStringOf | gperror/gperror_test.go:28-32 | the code and the message can be read back out of `ERROR[<code>] <message>` |
| GpErrors.ErrorStringOfParse | gperror/gperror_test.go:28-32 | every string the reader accepts is the rendering of the error it reads |
| GpErrors.ErrorString | gperror/gperror_test.go:28-32 | Error(): `ERROR[<code>] <message>`; its contract is carried by GpErrors.ParseErrorStringOf, GpErrors.ErrorStringOfParse and Scenarios.TestErrorString |
| GpErrors.GetCode | gperror/gperror_test.go:34-38 | the stored code; its contract is carried by GpErrors.Accessors |
| GpErrors.GetErr | gperror/gperror_test.go:40-44 | the wrapped error, message unchanged; its contract is carried by GpErrors.Accessors |
| GpErrors.New | gperror/gperror_test.go:46-53 | the code with an error whose message is the formatted string; its contract is carried by GpErrors.NewFormatsMessage and Scenarios.TestNewError |
| GpErrors.Accessors | gperror/gperror_test.go:34-44 | GetCode gives back the stored code and GetErr the wrapped error with its message unchanged |
| GpErrors.NewFormatsMessage | gperror/gperror_test.go:46-53 | New keeps the code, and its message is the format with the arguments substituted for its `%s` verbs in order |
| Scenarios.TestStamps | gplog/gplog_test.go:82-88 | at 2017-01-01 01:01:01 the date stamp is 20170101 and the timestamp 20170101:01:01:01 |
| Scenarios.TestHeaderHead | gplog/gplog_test.go:136-140 | the example identity's header is `testProgram:testUser:testHost:000000-[` |
| Scenarios.TestFullPrefix | gplog/gplog_test.go:136-140 | the example INFO prefix is `20170101:01:01:01 testProgram:testUser:testHost:000000-[INFO]:-` |
| Scenarios.TestDefaultLogPath | gplog/gplog_test.go:82-88 | without a directory the example log file is `testDir/gpAdminLogs/testProgram_20170101.log` |
| Scenarios.TestGivenLogPath | gplog/gplog_test.go:89-97 | with `/tmp/log_dir` the example log file is `/tmp/log_dir/testProgram_20170101.log` |
| Scenarios.TestColouredWarn | gplog/gplog_test.go:1000-1010 | a coloured warning under the short prefix is `ESC[33mWARNING: debug warnESC[0m` on stdout, nothing on stderr, and the full-prefix line in the log file |
| Scenarios.TestShortFatal | gplog/gplog_test.go:1042-1055 | Fatal under the short prefix panics with `CRITICAL: debug fatal`, writes no console line and logs the full-prefix line |
| Scenarios.TestErrorString | gperror/gperror_test.go:19-32 | the example error renders as `ERROR[4321] test-error` |
| Scenarios.TestNewError | gperror/gperror_test.go:46-53 | `New(9999, "unexpected error: %s", "some error")` equals the error built by hand |

## Left out

- Writers, buffers and line endings: each destination is a sequence of lines, without the trailing newline the writers add.
- The process-wide logger and its setters (`SetLogger`, `SetVerbosity`, `SetLogFileVerbosity`, `SetLogPrefixFunc`, `SetShellLogPrefixFunc`, `SetColorize`, `SetExitFunc`) and getters: a logger is a value, and a setter is a record update.
- Operating-system access: the user, home directory, host name, pid and clock are parameters. Creating the log directory and file is not modelled, nor are the panics when the directory or file is not writable (I/O plumbing).
- Go panics and process exit: they are `Outcome` values. Stack traces that gplog writes on a panic are not modelled.
- Custom prefix functions are taken as given functions of the level. The clock such a function may read is outside the model.
- Routing.Route: the console verbosity is a `Verbosity`, so integers outside 0..3, which Go's int parameter would accept, cannot be expressed.
- RoutingProperties.FatalWithoutPanicRouting: the stderr line is stated uncoloured. The test expectations do not show whether gplog colours it.
- RoutingProperties.FatalOnErrorPanics: the test expectations show only that the output is added (`this is an error: this is output`). Trimming it with `strings.TrimSpace` is the reconstruction this model uses.
- RoutingProperties.FatalRouting: the test expectations only check that the panic message contains the text. The model makes the message the console prefix followed by the text.
- Routing.Call: every call carries its message already formatted. Go's Info, Success, Warn, Verbose, Debug, Error, Custom and FatalWithoutPanic take a format and arguments and run fmt.Sprintf first, so a message such as `100%` would come out as `100%!(NOVERB)` in Go. That formatting step is not modelled.
- RoutingProperties.CustomRouting: Custom's fileLevel and shellLevel are Go ints but are `Verbosity` values here. Levels outside 0..3 cannot be expressed.
- Config.NewLogger: the shell verbosity is a Go int but is a `Verbosity` here. Values outside 0..3 cannot be expressed. The optional file verbosity arguments do stay integers (Config.FileVerbosityOf).
- RoutingProperties.FatalWithoutPanicRouting: the stderr line carries the console prefix. The tests use the full prefix on both sides, so they do not decide whether gplog uses the console or the log file prefix there.
- RoutingProperties.FatalTextShape: Fatal's own text is trimmed with `strings.TrimSpace`. No test passes Fatal a non-empty text, so the trimming is a reconstruction.
- RoutingProperties.ConsoleIgnoresLogFile: a logger with no shell prefix function uses the default full prefix on the console, not the log prefix function. This reconstructs GetShellLogPrefix's fallback. The tests set a custom log prefix function only around GetLogPrefix, so they do not decide it.
- Fmt.SprintfFillsTemplate: only the `%s` and `%%` verbs of Go's `fmt.Sprintf` are modelled, and `New` requires a format using only those. Other verbs, widths and flags are left out.
- GpErrors.ParseErrorStringOf: the error code is an unbounded integer. The Go integer width of `ErrorCode` is left open.
- Prefix.FullPrefix: the header is built by joining the program, user, host and pid fields. Go fills GetHeader's format with fmt.Sprintf, so a '%' inside one of those names would be read as a verb. Only names without '%' are modelled faithfully; Prefix.HeaderFormatFills states the agreement for them.
- Prefix.FullPrefixLayout: the pid field is stated as the zero-padded pid. Reading it back as a number goes through Decimal.ZeroPadValue. Pids of a million or more, which widen the field, are excluded by a requires.
- The clock is restricted to four-digit years and valid month, day, hour, minute and second ranges (`Prefix.InRange`) wherever fixed field positions are stated.
- Ginkgo/Gomega matching and any multi-host or concurrent command dispatch: neither is part of the logger or the error type.
