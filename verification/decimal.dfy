/**
  Decimal numerals as Go's fmt package prints integers: the %d verb for
  signed values and zero-padded fixed widths such as %06d, "2006" or "01".
  Each rendering has a reader, and the two are proved inverse.
*/
module Decimal {
  import opened Wrappers

  predicate IsDigit(c: char) {
    '0' <= c <= '9'
  }

  predicate AllDigits(s: string) {
    forall i :: 0 <= i < |s| ==> IsDigit(s[i])
  }

  /** A numeral as %d prints it: non-empty, no leading zero except "0" itself. */
  predicate Canonical(s: string) {
    |s| >= 1 && AllDigits(s) && (s[0] == '0' ==> |s| == 1)
  }

  function Pow10(k: nat): (p: nat)
    ensures p >= 1
  {
    if k == 0 then 1 else 10 * Pow10(k - 1)
  }

  function DigitChar(d: nat): (c: char)
    requires d < 10
    ensures IsDigit(c)
  {
    (48 + d) as char
  }

  function DigitValue(c: char): (d: nat)
    requires IsDigit(c)
    ensures d < 10 && DigitChar(d) == c
  {
    c as int - 48
  }

  /** The shortest numeral of n, most significant digit first. */
  function Digits(n: nat): (s: string)
    ensures Canonical(s)
    ensures s[0] == '0' <==> n == 0
    decreases n
  {
    if n < 10 then [DigitChar(n)] else Digits(n / 10) + [DigitChar(n % 10)]
  }

  /** The value a string of digits denotes; leading zeros are allowed and "" reads as 0. */
  function Value(s: string): (n: nat)
    requires AllDigits(s)
    ensures n < Pow10(|s|)
    decreases |s|
  {
    if s == [] then 0 else Value(s[..|s| - 1]) * 10 + DigitValue(s[|s| - 1])
  }

  /** A run of k zero digits. */
  function Zeros(k: nat): (s: string)
    ensures |s| == k && AllDigits(s)
    ensures forall i :: 0 <= i < k ==> s[i] == '0'
  {
    if k == 0 then [] else "0" + Zeros(k - 1)
  }

  /** Reading back the numeral of n gives n. */
  lemma {:induction false} ValueOfDigits(n: nat)
    ensures Value(Digits(n)) == n
    decreases n
  {
    if n >= 10 {
      var s := Digits(n / 10) + [DigitChar(n % 10)];
      assert s[..|s| - 1] == Digits(n / 10);
      ValueOfDigits(n / 10);
    }
  }

  /** A numeral whose first digit is not zero denotes a positive number. */
  lemma {:induction false} ValuePositive(s: string)
    requires |s| >= 1 && AllDigits(s) && s[0] != '0'
    ensures Value(s) >= 1
    decreases |s|
  {
    if |s| > 1 {
      ValuePositive(s[..|s| - 1]);
    }
  }

  /** Printing the value of a canonical numeral gives the numeral back. */
  lemma {:induction false} DigitsOfValue(s: string)
    requires Canonical(s)
    ensures Digits(Value(s)) == s
    decreases |s|
  {
    if |s| > 1 {
      var front := s[..|s| - 1];
      ValuePositive(front);
      DigitsOfValue(front);
      assert s == front + [s[|s| - 1]];
    }
  }

  /** Leading zeros do not change the value. */
  lemma {:induction false} ValueLeadingZeros(k: nat, s: string)
    requires AllDigits(s)
    ensures Value(Zeros(k) + s) == Value(s)
    decreases |s|
  {
    if s == [] {
      assert Zeros(k) + s == Zeros(k);
      ValueOfZeros(k);
    } else {
      var front := s[..|s| - 1];
      assert (Zeros(k) + s)[..|Zeros(k) + s| - 1] == Zeros(k) + front;
      ValueLeadingZeros(k, front);
    }
  }

  lemma {:induction false} ValueOfZeros(k: nat)
    ensures Value(Zeros(k)) == 0
  {
    if k > 0 {
      var z := Zeros(k);
      assert z[..k - 1] == Zeros(k - 1);
      ValueOfZeros(k - 1);
    }
  }

  /** A number below 10^k needs at most k digits. */
  lemma {:induction false} DigitsLength(n: nat, k: nat)
    ensures n < Pow10(k) ==> |Digits(n)| <= k || (n == 0 && k == 0)
    decreases n
  {
    if n >= 10 && n < Pow10(k) {
      DigitsLength(n / 10, k - 1);
    }
  }

  /** n printed with at least `width` digits, padded on the left with zeros (Go's %0<width>d). */
  function ZeroPad(n: nat, width: nat): (s: string)
    ensures AllDigits(s)
    ensures |s| >= width && |s| >= 1
  {
    var d := Digits(n);
    if |d| >= width then d else Zeros(width - |d|) + d
  }

  /** Zeros in front of a numeral do not change what it denotes. */
  lemma PaddedDigitsValue(k: nat, n: nat)
    ensures Value(Zeros(k) + Digits(n)) == n
  {
    ValueOfDigits(n);
    ValueLeadingZeros(k, Digits(n));
  }

  /** The padded numeral still denotes n. */
  lemma {:induction false} ZeroPadValue(n: nat, width: nat)
    ensures Value(ZeroPad(n, width)) == n
  {
    var d := Digits(n);
    var s := ZeroPad(n, width);
    if |d| >= width {
      ValueOfDigits(n);
      assert s == d;
    } else {
      PaddedDigitsValue(width - |d|, n);
      assert s == Zeros(width - |d|) + d;
    }
    assert Value(s) == n;
  }

  /** A number below 10^width fills exactly `width` digits. */
  lemma ZeroPadWidth(n: nat, width: nat)
    requires n < Pow10(width) && width >= 1
    ensures |ZeroPad(n, width)| == width
  {
    DigitsLength(n, width);
  }

  /** A fixed-width field of digits is the zero-padded rendering of its own value. */
  lemma {:induction false} ZeroPadOfValue(s: string)
    requires |s| >= 1 && AllDigits(s)
    ensures ZeroPad(Value(s), |s|) == s
    decreases |s|
  {
    if s[0] != '0' {
      DigitsOfValue(s);
    } else if |s| == 1 {
      assert s == "0";
      assert Value(s) == 0;
    } else {
      var tail := s[1..];
      assert s == Zeros(1) + tail;
      ValueLeadingZeros(1, tail);
      ZeroPadOfValue(tail);
      var n := Value(tail);
      DigitsLength(n, |tail|);
      var d := Digits(n);
      assert |d| <= |tail|;
      assert Zeros(|s| - |d|) == "0" + Zeros(|tail| - |d|);
    }
  }

  /** A signed integer as %d prints it. */
  function IntString(i: int): (s: string)
    ensures |s| >= 1
    ensures s[0] == '-' <==> i < 0
    ensures forall k :: 0 <= k < |s| ==> IsDigit(s[k]) || (k == 0 && s[k] == '-')
  {
    if i < 0 then "-" + Digits(-i) else Digits(i)
  }

  /** The reader of IntString: accepts exactly the numerals IntString produces. */
  function ParseInt(s: string): (r: Option<int>)
  {
    if |s| >= 2 && s[0] == '-' && Canonical(s[1..]) && s[1] != '0' then Some(0 - Value(s[1..]))
    else if Canonical(s) then Some(Value(s))
    else None
  }

  lemma ParseIntString(i: int)
    ensures ParseInt(IntString(i)) == Some(i)
  {
    var s := IntString(i);
    if i < 0 {
      var d := Digits(-i);
      assert s[1..] == d && s[1] == d[0];
      ValueOfDigits(-i);
    } else {
      assert s[0] != '-';
      ValueOfDigits(i);
    }
  }

  lemma IntStringOfParse(s: string)
    requires ParseInt(s).Some?
    ensures IntString(ParseInt(s).value) == s
  {
    if |s| >= 2 && s[0] == '-' && Canonical(s[1..]) && s[1] != '0' {
      ValuePositive(s[1..]);
      DigitsOfValue(s[1..]);
    } else {
      DigitsOfValue(s);
    }
  }
}
