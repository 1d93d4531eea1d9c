/**
  The concrete situations gplog's own examples are written about: the
  program "testProgram" run by "testUser" on "testHost" with pid 0, at
  2017-01-01 01:01:01, with home directory "testDir".
*/
module Scenarios {
  import opened Wrappers
  import opened Decimal
  import opened Prefix
  import opened Config
  import opened Levels
  import opened Colour
  import opened Routing
  import opened Fmt
  import opened GpErrors
  import opened Text

  const TestNow := Timestamp(2017, 1, 1, 1, 1, 1)
  const TestId := Identity("testProgram", "testUser", "testHost", 0)

  lemma SmallFields()
    ensures ZeroPad(2017, 4) == "2017" && ZeroPad(1, 2) == "01" && ZeroPad(0, 6) == "000000"
  {
    assert Digits(2) == "2" && Digits(20) == "20" && Digits(201) == "201";
    assert Digits(2017) == "2017";
    assert Digits(1) == "1" && Zeros(1) == "0";
    assert Digits(0) == "0";
    assert Zeros(5) == "00000" by {
      assert Zeros(1) == "0" && Zeros(2) == "00" && Zeros(3) == "000" && Zeros(4) == "0000";
    }
  }

  /** The date and time stamps of the example clock. */
  lemma TestStamps()
    ensures DateStamp(TestNow) == "20170101"
    ensures LogTimestamp(TestNow) == "20170101:01:01:01"
  {
    SmallFields();
  }

  lemma TestHeaderHead()
    ensures HeaderHead(TestId) == "testProgram:testUser:testHost:000000-["
  {
    SmallFields();
  }

  /** The default prefix of an INFO line in the examples, piece by piece:
      "20170101:01:01:01 testProgram:testUser:testHost:000000-[INFO]:-". */
  lemma TestFullPrefix()
    ensures FullPrefix(TestId, TestNow, "INFO")
      == "20170101:01:01:01" + " " + ("testProgram:testUser:testHost:000000-[" + "INFO" + "]:-")
  {
    TestStamps();
    TestHeaderHead();
  }

  /** InitializeLogging's log file in the examples when no directory is given:
      "testDir/gpAdminLogs/testProgram_20170101.log". */
  lemma TestDefaultLogPath()
    ensures InitializeLogging("testProgram", "", "testUser", "testDir", "testHost", 0, TestNow).logFileName
      == "testDir" + "/gpAdminLogs" + "/" + "testProgram" + "_" + "20170101" + ".log"
  {
    TestStamps();
  }

  /** InitializeLogging's log file in the examples when a directory is given:
      "/tmp/log_dir/testProgram_20170101.log". */
  lemma TestGivenLogPath()
    ensures InitializeLogging("testProgram", "/tmp/log_dir", "testUser", "testDir", "testHost", 0, TestNow).logFileName
      == "/tmp/log_dir" + "/" + "testProgram" + "_" + "20170101" + ".log"
  {
    TestStamps();
  }

  /** The logger of the colourised examples: DEBUG on both sides, the short console prefix. */
  function ShortColourLogger(): Logger {
    Logger(LogDebug, LogDebug, "testDir/gpAdminLogs/testProgram_20170101.log", TestId,
           FullPrefixFunc, ShortPrefixFunc, true)
  }

  /** A warning on the colourised short-prefix console: ESC[33mWARNING: debug warnESC[0m on
      stdout, nothing on stderr, the full-prefix line in the log file. */
  lemma TestColouredWarn()
    ensures var e := Route(ShortColourLogger(), TestNow, Warn("debug warn"));
      && e.stdout == [[Escape] + "[" + "33" + "m" + ("WARNING: " + "debug warn") + [Escape] + "[0m"]
      && e.stderr == []
      && e.logFile == [FullPrefix(TestId, TestNow, "WARNING") + "debug warn"]
  {
    assert ShortPrefix("WARNING") == "WARNING: ";
  }

  /** Fatal under the short console prefix panics with "CRITICAL: debug fatal" and writes
      no console line. */
  lemma TestShortFatal()
    ensures var e := Route(ShortColourLogger(), TestNow, Fatal(Some("debug fatal"), ""));
      && e.outcome == Panicked("CRITICAL: " + "debug fatal")
      && e.stdout == [] && e.stderr == []
      && e.logFile == [FullPrefix(TestId, TestNow, "CRITICAL") + "debug fatal"]
  {
    assert TrimSpace("") == "";
    assert FatalText(Some("debug fatal"), "") == "debug fatal";
    assert ShortPrefix("CRITICAL") == "CRITICAL: ";
  }

  /** The example error renders as "ERROR[4321] test-error". */
  lemma TestErrorString()
    ensures ErrorString(GpError(4321, WrappedError("test-error"))) == "ERROR[" + "4321" + "] " + "test-error"
    ensures GetCode(GpError(4321, WrappedError("test-error"))) == 4321
  {
    assert Digits(4) == "4" && Digits(43) == "43" && Digits(432) == "432";
    assert Digits(4321) == "4321";
  }

  /** New(9999, "unexpected error: %s", "some error") equals the error built by hand. */
  lemma TestNewError()
    ensures SupportedFormat("unexpected error: " + "%s")
      && New(9999, "unexpected error: " + "%s", ["some error"]) == GpError(9999, WrappedError("unexpected error: " + "some error"))
  {
    var pieces := ["unexpected error: ", ""];
    assert Template(pieces[1..]) == "";
    assert Template(pieces) == "unexpected error: " + "%s";
    assert Fill(pieces[1..], []) == "";
    assert Fill(pieces, ["some error"]) == "unexpected error: " + "some error";
    NewFormatsMessage(9999, pieces, ["some error"]);
  }
}
