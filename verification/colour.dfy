/**
  ANSI colouring of console lines: ESC[<code>m text ESC[0m, with 32 for
  green, 33 for yellow and 31 for red.
*/
module Colour {
  import opened Wrappers

  datatype Color = Green | Yellow | Red

  function Code(c: Color): string {
    match c
    case Green => "32"
    case Yellow => "33"
    case Red => "31"
  }

  const Escape: char := '\U{001B}'

  function Colorize(c: Color, s: string): (r: string)
    ensures |r| == |s| + 9
    ensures r[5..|r| - 4] == s
  {
    [Escape] + "[" + Code(c) + "m" + s + [Escape] + "[0m"
  }

  function ColorOfCode(code: string): Option<Color> {
    if code == "32" then Some(Green)
    else if code == "33" then Some(Yellow)
    else if code == "31" then Some(Red)
    else None
  }

  /** Splits a coloured line into its colour and its text, if it is one. */
  function Decolorize(r: string): Option<(Color, string)> {
    if |r| >= 9 && r[0] == Escape && r[1] == '[' && r[4] == 'm'
       && ColorOfCode(r[2..4]).Some? && r[|r| - 4..] == [Escape] + "[0m"
    then Some((ColorOfCode(r[2..4]).value, r[5..|r| - 4]))
    else None
  }

  lemma DecolorizeColorize(c: Color, s: string)
    ensures Decolorize(Colorize(c, s)) == Some((c, s))
  {
    var r := Colorize(c, s);
    assert r[2..4] == Code(c);
    assert r[|r| - 4..] == [Escape] + "[0m";
  }

  lemma ColorizeOfDecolorize(r: string)
    requires Decolorize(r).Some?
    ensures Colorize(Decolorize(r).value.0, Decolorize(r).value.1) == r
  {
    var (c, s) := Decolorize(r).value;
    assert Code(c) == r[2..4];
    assert r == [r[0]] + "[" + r[2..4] + "m" + r[5..|r| - 4] + r[|r| - 4..];
  }
}
