/**
  The line prefixes gplog writes. The full prefix is
    YYYYMMDD:HH:MM:SS program:user:host:PPPPPP-[LEVEL]:-
  with the pid zero-padded to six digits and the level label inserted as
  given; the short prefix is "LEVEL: " for WARNING, ERROR and CRITICAL and
  empty otherwise. The clock, user, host and pid are inputs here.
*/
module Prefix {
  import opened Wrappers
  import opened Decimal
  import opened Fmt
  import opened SeqFacts

  /** A wall-clock reading, as far as the "20060102:15:04:05" layout shows it. */
  datatype Timestamp = Timestamp(year: nat, month: nat, day: nat, hour: nat, minute: nat, second: nat)

  /** Every field fits its layout width and range. */
  predicate InRange(t: Timestamp) {
    && t.year <= 9999
    && 1 <= t.month <= 12 && 1 <= t.day <= 31
    && t.hour < 24 && t.minute < 60 && t.second < 60
  }

  /** Go layout "20060102": the date stamp in log file names and prefixes. */
  function DateStamp(t: Timestamp): (s: string)
    ensures AllDigits(s)
  {
    ZeroPad(t.year, 4) + ZeroPad(t.month, 2) + ZeroPad(t.day, 2)
  }

  /** Go layout "20060102:15:04:05": the time stamp opening every full prefix. */
  function LogTimestamp(t: Timestamp): string {
    DateStamp(t) + ":" + ZeroPad(t.hour, 2) + ":" + ZeroPad(t.minute, 2) + ":" + ZeroPad(t.second, 2)
  }

  lemma PowersOfTen()
    ensures Pow10(2) == 100 && Pow10(4) == 10000 && Pow10(6) == 1000000
  {
    assert Pow10(1) == 10;
    assert Pow10(3) == 1000;
    assert Pow10(5) == 100000;
  }

  /** In range, every field takes exactly its layout width. */
  lemma FieldWidths(t: Timestamp)
    requires InRange(t)
    ensures |ZeroPad(t.year, 4)| == 4 && |ZeroPad(t.month, 2)| == 2 && |ZeroPad(t.day, 2)| == 2
    ensures |ZeroPad(t.hour, 2)| == 2 && |ZeroPad(t.minute, 2)| == 2 && |ZeroPad(t.second, 2)| == 2
  {
    PowersOfTen();
    ZeroPadWidth(t.year, 4);
    ZeroPadWidth(t.month, 2);
    ZeroPadWidth(t.day, 2);
    ZeroPadWidth(t.hour, 2);
    ZeroPadWidth(t.minute, 2);
    ZeroPadWidth(t.second, 2);
  }

  /** The date stamp is eight digits: year, month, day. */
  lemma DateStampLayout(t: Timestamp)
    requires InRange(t)
    ensures var s := DateStamp(t);
      |s| == 8 && s[..4] == ZeroPad(t.year, 4) && s[4..6] == ZeroPad(t.month, 2) && s[6..] == ZeroPad(t.day, 2)
  {
    FieldWidths(t);
    Split3(ZeroPad(t.year, 4), ZeroPad(t.month, 2), ZeroPad(t.day, 2));
  }

  /** The time stamp is the date stamp and three two-digit fields, each after a colon. */
  lemma LogTimestampLayout(t: Timestamp)
    requires InRange(t)
    ensures var s := LogTimestamp(t);
      && |s| == 17 && s[..8] == DateStamp(t)
      && s[8] == ':' && s[11] == ':' && s[14] == ':'
      && s[9..11] == ZeroPad(t.hour, 2) && s[12..14] == ZeroPad(t.minute, 2) && s[15..] == ZeroPad(t.second, 2)
  {
    FieldWidths(t);
    DateStampLayout(t);
    var s := LogTimestamp(t);
    var h, mi, se := ZeroPad(t.hour, 2), ZeroPad(t.minute, 2), ZeroPad(t.second, 2);
    assert s == DateStamp(t) + ":" + h + ":" + mi + ":" + se;
  }

  /** Reads a "20060102" date stamp back into (year, month, day). */
  function ParseDateStamp(s: string): (r: Option<(nat, nat, nat)>)
  {
    if |s| == 8 && AllDigits(s) then
      var y, m, d := Value(s[..4]), Value(s[4..6]), Value(s[6..]);
      if 1 <= m <= 12 && 1 <= d <= 31 then Some((y, m, d)) else None
    else None
  }

  predicate DigitField(s: string, lo: nat, hi: nat)
    requires lo <= hi <= |s|
  {
    AllDigits(s[lo..hi])
  }

  /** Reads a "20060102:15:04:05" time stamp back. */
  function ParseLogTimestamp(s: string): (r: Option<Timestamp>)
  {
    if |s| == 17 && s[8] == ':' && s[11] == ':' && s[14] == ':'
       && DigitField(s, 0, 8) && DigitField(s, 9, 11) && DigitField(s, 12, 14) && DigitField(s, 15, 17)
    then
      match ParseDateStamp(s[..8])
      case None => None
      case Some((y, m, d)) =>
        var t := Timestamp(y, m, d, Value(s[9..11]), Value(s[12..14]), Value(s[15..]));
        if InRange(t) then Some(t) else None
    else None
  }

  lemma ParseDateStampOfStamp(t: Timestamp)
    requires InRange(t)
    ensures ParseDateStamp(DateStamp(t)) == Some((t.year, t.month, t.day))
  {
    DateStampLayout(t);
    ZeroPadValue(t.year, 4);
    ZeroPadValue(t.month, 2);
    ZeroPadValue(t.day, 2);
  }

  /** Formatting then reading a time stamp gives the time back. */
  lemma ParseLogTimestampOfStamp(t: Timestamp)
    requires InRange(t)
    ensures ParseLogTimestamp(LogTimestamp(t)) == Some(t)
  {
    var s := LogTimestamp(t);
    LogTimestampLayout(t);
    ParseDateStampOfStamp(t);
    ZeroPadValue(t.hour, 2);
    ZeroPadValue(t.minute, 2);
    ZeroPadValue(t.second, 2);
    assert DigitField(s, 0, 8) && DigitField(s, 9, 11) && DigitField(s, 12, 14) && DigitField(s, 15, 17);
  }

  /** Every date stamp the reader accepts is the stamp of the date it reads. */
  lemma DateStampOfParse(s: string, t: Timestamp)
    requires ParseDateStamp(s) == Some((t.year, t.month, t.day))
    ensures DateStamp(t) == s
  {
    var y, m, d := s[..4], s[4..6], s[6..];
    assert AllDigits(y) && AllDigits(m) && AllDigits(d);
    ZeroPadOfValue(y);
    ZeroPadOfValue(m);
    ZeroPadOfValue(d);
    assert s == y + m + d;
  }

  /** Every string the reader accepts is the stamp of the time it reads. */
  lemma LogTimestampOfParse(s: string)
    requires ParseLogTimestamp(s).Some?
    ensures InRange(ParseLogTimestamp(s).value)
    ensures LogTimestamp(ParseLogTimestamp(s).value) == s
  {
    var t := ParseLogTimestamp(s).value;
    var date, h, mi, se := s[..8], s[9..11], s[12..14], s[15..17];
    assert ParseDateStamp(date) == Some((t.year, t.month, t.day));
    assert t.hour == Value(h) && t.minute == Value(mi) && t.second == Value(se) by {
      assert s[15..] == se;
    }
    assert AllDigits(h) && AllDigits(mi) && AllDigits(se);
    ClockFieldsOfParse(s, date, h, mi, se, t);
  }

  lemma ClockFieldsOfParse(s: string, date: string, h: string, mi: string, se: string, t: Timestamp)
    requires |s| == 17 && s[8] == ':' && s[11] == ':' && s[14] == ':'
    requires date == s[..8] && h == s[9..11] && mi == s[12..14] && se == s[15..17]
    requires ParseDateStamp(date) == Some((t.year, t.month, t.day))
    requires AllDigits(h) && AllDigits(mi) && AllDigits(se)
    requires t.hour == Value(h) && t.minute == Value(mi) && t.second == Value(se)
    ensures LogTimestamp(t) == s
  {
    DateStampOfParse(date, t);
    ZeroPadOfValue(h);
    ZeroPadOfValue(mi);
    ZeroPadOfValue(se);
    assert LogTimestamp(t) == date + ":" + h + ":" + mi + ":" + se;
    SplitAtColons(s);
  }

  lemma SplitAtColons(s: string)
    requires |s| == 17 && s[8] == ':' && s[11] == ':' && s[14] == ':'
    ensures s == s[..8] + ":" + s[9..11] + ":" + s[12..14] + ":" + s[15..17]
  {
  }

  /** Who is logging: the fields of the prefix header that do not change per line. */
  datatype Identity = Identity(program: string, user: string, host: string, pid: nat)

  /** The header up to the level: "program:user:host:PPPPPP-[". */
  function HeaderHead(id: Identity): string {
    id.program + ":" + id.user + ":" + id.host + ":" + ZeroPad(id.pid, 6) + "-["
  }

  /** The header "program:user:host:PPPPPP-[level]:-". */
  function Header(id: Identity, level: string): string {
    HeaderHead(id) + level + "]:-"
  }

  /** gplog.GetHeader: the header as a format string with a %s where the level goes. */
  function HeaderFormat(id: Identity): string {
    HeaderHead(id) + "%s" + "]:-"
  }

  /** Formatting GetHeader's result with a level gives the header, as long as the
      program, user and host names hold no '%' of their own. */
  lemma HeaderFormatFills(id: Identity, level: string)
    requires NoPercent(id.program) && NoPercent(id.user) && NoPercent(id.host)
    ensures SupportedFormat(HeaderFormat(id))
    ensures Sprintf(HeaderFormat(id), [level]) == Header(id, level)
  {
    var head := HeaderHead(id);
    var pid := ZeroPad(id.pid, 6);
    assert NoPercent(pid) by {
      forall i | 0 <= i < |pid| ensures pid[i] != '%' {
        assert IsDigit(pid[i]);
      }
    }
    assert NoPercent(head) by {
      forall i | 0 <= i < |head| ensures head[i] != '%' {
        var a := |id.program| + 1;
        var b := a + |id.user| + 1;
        var c := b + |id.host| + 1;
        if i < |id.program| { assert head[i] == id.program[i]; }
        else if a <= i < a + |id.user| { assert head[i] == id.user[i - a]; }
        else if b <= i < b + |id.host| { assert head[i] == id.host[i - b]; }
        else if c <= i < c + |pid| { assert head[i] == pid[i - c]; }
      }
    }
    var pieces := [head, "]:-"];
    SprintfFillsTemplate(pieces, [level]);
    assert Template(pieces) == HeaderFormat(id);
    assert Fill(pieces, [level]) == Header(id, level);
  }

  /** The default log prefix: time stamp, a space, then the header. */
  function FullPrefix(id: Identity, now: Timestamp, level: string): string {
    LogTimestamp(now) + " " + Header(id, level)
  }

  /** Everything in a full prefix before the level label. */
  function PrefixStem(id: Identity, now: Timestamp): string {
    LogTimestamp(now) + " " + HeaderHead(id)
  }

  /** The level label carried by a full prefix of this identity at this time, if it is one. */
  function LevelOf(id: Identity, now: Timestamp, prefix: string): Option<string> {
    var stem := PrefixStem(id, now);
    if |prefix| >= |stem| + 3 && prefix[..|stem|] == stem && prefix[|prefix| - 3..] == "]:-"
    then Some(prefix[|stem|..|prefix| - 3])
    else None
  }

  lemma FullPrefixIsStemLevel(id: Identity, now: Timestamp, level: string)
    ensures FullPrefix(id, now, level) == PrefixStem(id, now) + level + "]:-"
  {
    var t, h := LogTimestamp(now) + " ", HeaderHead(id);
    assert t + (h + level + "]:-") == (t + h) + level + "]:-";
  }

  /** The level is inserted verbatim, whatever it is: it can be read back out of the prefix. */
  lemma LevelOfFullPrefix(id: Identity, now: Timestamp, level: string)
    ensures LevelOf(id, now, FullPrefix(id, now, level)) == Some(level)
  {
    FullPrefixIsStemLevel(id, now, level);
    Split3(PrefixStem(id, now), level, "]:-");
  }

  /** Every string the reader accepts is the full prefix of the level it reads. */
  lemma FullPrefixOfLevel(id: Identity, now: Timestamp, p: string)
    requires LevelOf(id, now, p).Some?
    ensures FullPrefix(id, now, LevelOf(id, now, p).value) == p
  {
    var stem := PrefixStem(id, now);
    FullPrefixIsStemLevel(id, now, LevelOf(id, now, p).value);
    assert p == p[..|stem|] + p[|stem|..|p| - 3] + p[|p| - 3..];
  }

  /** Two full prefixes differ whenever their levels differ. */
  lemma FullPrefixInjective(id: Identity, now: Timestamp, a: string, b: string)
    ensures FullPrefix(id, now, a) == FullPrefix(id, now, b) ==> a == b
  {
    LevelOfFullPrefix(id, now, a);
    LevelOfFullPrefix(id, now, b);
  }

  /** The pid field closes the header head: the pid zero-padded to six digits. */
  lemma HeaderHeadPid(id: Identity)
    requires id.pid < 1000000
    ensures var h := HeaderHead(id);
      |h| == |id.program| + |id.user| + |id.host| + 11
      && h[|h| - 8..|h| - 2] == ZeroPad(id.pid, 6)
  {
    var pid := ZeroPad(id.pid, 6);
    PowersOfTen();
    ZeroPadWidth(id.pid, 6);
    var front := id.program + ":" + id.user + ":" + id.host + ":";
    Split3(front, pid, "-[");
  }

  /** The stem of a full prefix: the time stamp, a space, and the header head. */
  lemma PrefixStemLayout(id: Identity, now: Timestamp)
    requires InRange(now) && id.pid < 1000000
    ensures var st, n := PrefixStem(id, now), |id.program| + |id.user| + |id.host| + 29;
      && |st| == n && st[..17] == LogTimestamp(now) && st[17] == ' '
      && st[n - 8..n - 2] == ZeroPad(id.pid, 6)
  {
    var h := HeaderHead(id);
    var ts := LogTimestamp(now);
    LogTimestampLayout(now);
    HeaderHeadPid(id);
    var st := PrefixStem(id, now);
    assert st == (ts + " ") + h;
    SliceLeft(ts + " ", h, 0, 17);
    SliceLeft(ts, " ", 0, 17);
    assert ts[0..17] == ts;
    SliceRight(ts + " ", h, |st| - 8, |st| - 2);
  }

  /** The layout of a full prefix: the time stamp, a space, then the header, whose pid field
      is the pid zero-padded to six digits. */
  lemma FullPrefixLayout(id: Identity, now: Timestamp, level: string)
    requires InRange(now) && id.pid < 1000000
    ensures var p, n := FullPrefix(id, now, level), |id.program| + |id.user| + |id.host| + 29;
      && |p| == n + |level| + 3
      && ParseLogTimestamp(p[..17]) == Some(now)
      && p[17] == ' '
      && p[n - 8..n - 2] == ZeroPad(id.pid, 6)
  {
    var p := FullPrefix(id, now, level);
    var stem := PrefixStem(id, now);
    PrefixStemLayout(id, now);
    ParseLogTimestampOfStamp(now);
    FullPrefixIsStemLevel(id, now, level);
    assert p == stem + (level + "]:-");
    SliceLeft(stem, level + "]:-", 0, 17);
    SliceLeft(stem, level + "]:-", |stem| - 8, |stem| - 2);
    var ts := p[..17];
    assert ts == LogTimestamp(now);
  }

  /** gplog.DefaultShortLogPrefixFunc. */
  function ShortPrefix(level: string): (r: string)
    ensures r == [] || r == level + ": "
    ensures r != [] <==> level == "WARNING" || level == "ERROR" || level == "CRITICAL"
  {
    if level == "WARNING" || level == "ERROR" || level == "CRITICAL" then level + ": " else ""
  }

  /** The short prefix of each label gplog uses, and of unknown and empty labels. */
  lemma ShortPrefixTable()
    ensures ShortPrefix("DEBUG") == "" && ShortPrefix("INFO") == ""
    ensures ShortPrefix("WARNING") == "WARNING: " && ShortPrefix("ERROR") == "ERROR: "
    ensures ShortPrefix("CRITICAL") == "CRITICAL: "
    ensures ShortPrefix("FOO") == "" && ShortPrefix("") == ""
  {
  }

  /** A prefix function as gplog lets callers install one: the default full prefix,
      the short prefix, or any function of the level label. */
  datatype PrefixFunc = FullPrefixFunc | ShortPrefixFunc | CustomPrefixFunc(f: string -> string)

  function ApplyPrefix(pf: PrefixFunc, id: Identity, now: Timestamp, level: string): string {
    match pf
    case FullPrefixFunc => FullPrefix(id, now, level)
    case ShortPrefixFunc => ShortPrefix(level)
    case CustomPrefixFunc(f) => f(level)
  }
}
