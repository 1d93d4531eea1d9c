/**
  gperror's coded error: a numeric code with a wrapped error, rendered as
  "ERROR[<code>] <message>", and its constructor, which formats the message.
*/
module GpErrors {
  import opened Wrappers
  import opened Decimal
  import opened Fmt
  import opened SeqFacts

  /** The error a GpError wraps, as errors.New makes it: its Error() is its message. */
  datatype WrappedError = WrappedError(message: string)

  datatype GpError = GpError(code: int, err: WrappedError)

  /** GpError.Error. */
  function ErrorString(e: GpError): string {
    "ERROR[" + IntString(e.code) + "] " + e.err.message
  }

  /** GpError.GetCode. */
  function GetCode(e: GpError): int {
    e.code
  }

  /** GpError.GetErr. */
  function GetErr(e: GpError): WrappedError {
    e.err
  }

  /** gperror.New(code, format, args...): the code with an error whose message is the
      formatted string. */
  function New(code: int, format: string, args: seq<string>): GpError
    requires SupportedFormat(format)
  {
    GpError(code, WrappedError(Sprintf(format, args)))
  }

  /** The first position at or after `from` holding c, if there is one. */
  function IndexOf(s: string, c: char, from: nat): (r: Option<nat>)
    requires from <= |s|
    ensures r.Some? ==> from <= r.value < |s| && s[r.value] == c
    ensures r.Some? ==> forall j :: from <= j < r.value ==> s[j] != c
    ensures r.None? ==> forall j :: from <= j < |s| ==> s[j] != c
    decreases |s| - from
  {
    if from == |s| then None
    else if s[from] == c then Some(from)
    else IndexOf(s, c, from + 1)
  }

  /** Reads an error string back into its code and message. */
  function ParseErrorString(s: string): Option<(int, string)> {
    if |s| >= 6 && s[..6] == "ERROR[" then
      match IndexOf(s, ']', 6)
      case None => None
      case Some(k) =>
        if k + 1 < |s| && s[k + 1] == ' ' then
          match ParseInt(s[6..k])
          case None => None
          case Some(code) => Some((code, s[k + 2..]))
        else None
    else None
  }

  /** The code and the message can be read back out of the rendering. */
  lemma ParseErrorStringOf(e: GpError)
    ensures ParseErrorString(ErrorString(e)) == Some((e.code, e.err.message))
  {
    var code := IntString(e.code);
    var s := ErrorString(e);
    var k := 6 + |code|;
    Split3("ERROR[" + code, "] ", e.err.message);
    Split2("ERROR[", code);
    assert s[..6] == "ERROR[";
    assert s[6..k] == code;
    assert s[k] == ']' && s[k + 1] == ' ';
    assert forall j :: 6 <= j < k ==> s[j] == code[j - 6];
    assert IndexOf(s, ']', 6) == Some(k);
    ParseIntString(e.code);
  }

  /** Whatever the reader accepts is the rendering of the error it reads. */
  lemma ErrorStringOfParse(s: string)
    requires ParseErrorString(s).Some?
    ensures ErrorString(GpError(ParseErrorString(s).value.0, WrappedError(ParseErrorString(s).value.1))) == s
  {
    var k := IndexOf(s, ']', 6).value;
    IntStringOfParse(s[6..k]);
    assert s == s[..6] + s[6..k] + s[k..k + 2] + s[k + 2..];
  }

  /** The accessors give back exactly what the error holds. */
  lemma Accessors(code: int, message: string)
    ensures GetCode(GpError(code, WrappedError(message))) == code
    ensures GetErr(GpError(code, WrappedError(message))).message == message
  {
  }

  /** New keeps the code and formats the message: with no '%' outside the %s verbs and one
      argument per verb, the message is the format with the arguments substituted in order. */
  lemma NewFormatsMessage(code: int, pieces: seq<string>, args: seq<string>)
    requires |pieces| == |args| + 1
    requires forall k :: 0 <= k < |pieces| ==> NoPercent(pieces[k])
    ensures SupportedFormat(Template(pieces))
    ensures GetCode(New(code, Template(pieces), args)) == code
    ensures GetErr(New(code, Template(pieces), args)).message == Fill(pieces, args)
  {
    SprintfFillsTemplate(pieces, args);
  }
}
