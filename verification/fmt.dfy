/**
  The part of Go's fmt.Sprintf that the logger and the coded errors rely on:
  string arguments substituted for %s, the %% escape, and Go's diagnostics
  for a trailing lone '%', a missing argument and surplus arguments.
*/
module Fmt {

  predicate NoPercent(s: string) {
    forall i :: 0 <= i < |s| ==> s[i] != '%'
  }

  /** Every verb in the format is %s or %% (a final lone '%' is also allowed). */
  predicate SupportedFormat(format: string)
    decreases |format|
  {
    if format == [] then true
    else if format[0] == '%' then
      |format| == 1 || ((format[1] == 's' || format[1] == '%') && SupportedFormat(format[2..]))
    else SupportedFormat(format[1..])
  }

  /** Go's report of arguments no verb consumed: %!(EXTRA string=a, string=b). */
  function Extra(args: seq<string>): string {
    if args == [] then "" else "%!(EXTRA " + ExtraList(args) + ")"
  }

  function ExtraList(args: seq<string>): string
    requires args != []
    decreases |args|
  {
    if |args| == 1 then "string=" + args[0] else "string=" + args[0] + ", " + ExtraList(args[1..])
  }

  /** fmt.Sprintf(format, args...) with string arguments. */
  function Sprintf(format: string, args: seq<string>): string
    requires SupportedFormat(format)
    decreases |format|
  {
    if format == [] then Extra(args)
    else if format[0] != '%' then [format[0]] + Sprintf(format[1..], args)
    else if |format| == 1 then "%!(NOVERB)" + Extra(args)
    else if format[1] == '%' then "%" + Sprintf(format[2..], args)
    else if args == [] then "%!s(MISSING)" + Sprintf(format[2..], [])
    else args[0] + Sprintf(format[2..], args[1..])
  }

  /** Literal text in front of a format passes through unchanged. */
  lemma {:induction false} SprintfLiteralPrefix(lit: string, rest: string, args: seq<string>)
    requires NoPercent(lit)
    ensures SupportedFormat(lit + rest) == SupportedFormat(rest)
    ensures SupportedFormat(rest) ==> Sprintf(lit + rest, args) == lit + Sprintf(rest, args)
    decreases |lit|
  {
    if lit != [] {
      var whole := lit + rest;
      assert whole[0] == lit[0] != '%';
      assert whole[1..] == lit[1..] + rest;
      SprintfLiteralPrefix(lit[1..], rest, args);
      assert SupportedFormat(whole) == SupportedFormat(whole[1..]);
      if SupportedFormat(rest) {
        calc {
          Sprintf(whole, args);
          [lit[0]] + Sprintf(lit[1..] + rest, args);
          [lit[0]] + (lit[1..] + Sprintf(rest, args));
          { assert [lit[0]] + lit[1..] == lit; }
          lit + Sprintf(rest, args);
        }
      }
    } else {
      assert lit + rest == rest;
    }
  }

  /** A format without verbs prints itself, followed by a report of any surplus arguments. */
  lemma SprintfNoVerbs(format: string, args: seq<string>)
    requires NoPercent(format)
    ensures SupportedFormat(format)
    ensures Sprintf(format, args) == format + Extra(args)
  {
    SprintfLiteralPrefix(format, [], args);
    assert format + [] == format;
  }

  /** The template p0 %s p1 %s ... pn. */
  function Template(pieces: seq<string>): string
    requires |pieces| >= 1
    decreases |pieces|
  {
    if |pieces| == 1 then pieces[0] else pieces[0] + "%s" + Template(pieces[1..])
  }

  /** The template with the arguments in place of the verbs: p0 a0 p1 a1 ... pn. */
  function Fill(pieces: seq<string>, args: seq<string>): string
    requires |pieces| == |args| + 1
    decreases |args|
  {
    if args == [] then pieces[0] else pieces[0] + args[0] + Fill(pieces[1..], args[1..])
  }

  /** With exactly one argument per %s and no other '%', Sprintf substitutes in order. */
  lemma {:induction false} SprintfFillsTemplate(pieces: seq<string>, args: seq<string>)
    requires |pieces| == |args| + 1
    requires forall k :: 0 <= k < |pieces| ==> NoPercent(pieces[k])
    ensures SupportedFormat(Template(pieces))
    ensures Sprintf(Template(pieces), args) == Fill(pieces, args)
    decreases |args|
  {
    if args == [] {
      SprintfNoVerbs(pieces[0], []);
    } else {
      var tail := Template(pieces[1..]);
      SprintfFillsTemplate(pieces[1..], args[1..]);
      var verb := "%s" + tail;
      assert verb[0] == '%' && verb[1] == 's' && verb[2..] == tail;
      assert pieces[0] + "%s" + tail == pieces[0] + verb;
      SprintfLiteralPrefix(pieces[0], verb, args);
    }
  }

  /** A %s with no argument left prints Go's MISSING marker. */
  lemma SprintfMissing(before: string, after: string)
    requires NoPercent(before) && NoPercent(after)
    ensures SupportedFormat(before + "%s" + after)
    ensures Sprintf(before + "%s" + after, []) == before + "%!s(MISSING)" + after
  {
    var verb := "%s" + after;
    assert verb[2..] == after;
    SprintfNoVerbs(after, []);
    assert before + "%s" + after == before + verb;
    SprintfLiteralPrefix(before, verb, []);
  }
}
