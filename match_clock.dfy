/** The match-clock parsers of the statistics layer: `timestamp_to_seconds` and
    `period_timestamp_to_seconds`, which read "H:M:S" or "H:M:S.F" strings.
    Every failure inside them is caught and turned into 0. */
module MatchClock {
  import opened Wrappers
  import opened Decimal

  /** The number of times `c` occurs in `s`. */
  function Occurrences(s: string, c: char): nat {
    if |s| == 0 then 0 else (if s[0] == c then 1 else 0) + Occurrences(s[1..], c)
  }

  /** Python's `s.split(sep)` for a one-character separator. */
  function Split(s: string, sep: char): (r: seq<string>)
    ensures |r| > 0
    ensures forall i :: 0 <= i < |r| ==> sep !in r[i]
  {
    if |s| == 0 then [""]
    else
      var rest := Split(s[1..], sep);
      if s[0] == sep then [""] + rest else [[s[0]] + rest[0]] + rest[1..]
  }

  /** Python's `sep.join(parts)`. */
  function Join(parts: seq<string>, sep: char): string
    requires |parts| > 0
  {
    if |parts| == 1 then parts[0] else parts[0] + [sep] + Join(parts[1..], sep)
  }

  /** Joining the pieces of a split gives back the string. */
  lemma {:induction false} JoinSplit(s: string, sep: char)
    ensures Join(Split(s, sep), sep) == s
    decreases |s|
  {
    if |s| > 0 {
      JoinSplit(s[1..], sep);
      var rest := Split(s[1..], sep);
      if s[0] != sep && |rest| > 1 {
        assert ([[s[0]] + rest[0]] + rest[1..])[1..] == rest[1..];
        assert rest[1..] == rest[1..][..];
      }
      assert s == [s[0]] + s[1..];
    }
  }

  /** A split has one more piece than the string has separators. */
  lemma {:induction false} SplitLength(s: string, sep: char)
    ensures |Split(s, sep)| == Occurrences(s, sep) + 1
    decreases |s|
  {
    if |s| > 0 {
      SplitLength(s[1..], sep);
    }
  }

  lemma {:induction false} SplitWithoutSeparator(a: string, sep: char)
    requires sep !in a
    ensures Split(a, sep) == [a]
    decreases |a|
  {
    if |a| > 0 {
      assert sep !in a[1..];
      SplitWithoutSeparator(a[1..], sep);
      assert [a[0]] + a[1..] == a;
    }
  }

  lemma {:induction false} SplitAtFirstSeparator(a: string, sep: char, b: string)
    requires sep !in a
    ensures Split(a + [sep] + b, sep) == [a] + Split(b, sep)
    decreases |a|
  {
    if |a| == 0 {
      assert a + [sep] + b == [sep] + b;
      assert ([sep] + b)[1..] == b;
    } else {
      assert sep !in a[1..];
      SplitAtFirstSeparator(a[1..], sep, b);
      assert (a + [sep] + b)[1..] == a[1..] + [sep] + b;
      assert [a[0]] + a[1..] == a;
    }
  }

  /** The clock fields a period-relative parser reads: minutes, seconds and the
      digits after the dot, counted as microseconds. */
  datatype PeriodClock = PeriodClock(minutes: nat, seconds: nat, micros: nat)

  /** The seconds field "S" or "S.F". More than one dot makes the two-name
      unpacking raise, which the model reports as None. */
  function SecondsField(p: string): (r: Option<(nat, nat)>)
    ensures '.' !in p ==> (r.Some? <==> Numeral(p))
    ensures '.' in p ==> (r.Some? <==> |Split(p, '.')| == 2 && Numeral(Split(p, '.')[0]) && Numeral(Split(p, '.')[1]))
  {
    if '.' in p then
      var halves := Split(p, '.');
      if |halves| != 2 then None
      else
        match (ParseNat(halves[0]), ParseNat(halves[1]))
        case (Some(s), Some(f)) => Some((s, f))
        case _ => None
    else
      match ParseNat(p)
      case Some(s) => Some((s, 0))
      case None => None
  }

  /** Minutes and seconds from the second and third `:`-separated fields. */
  function ParsePeriodClock(parts: seq<string>): Option<PeriodClock>
    requires |parts| >= 3
  {
    match (ParseNat(parts[1]), SecondsField(parts[2]))
    case (Some(m), Some((s, f))) => Some(PeriodClock(m, s, f))
    case _ => None
  }

  function PeriodClockSeconds(c: PeriodClock): real {
    (c.minutes * 60 + c.seconds) as real + c.micros as real / 1000000.0
  }

  /** `timestamp_to_seconds` (src/data_collector.py): hours, minutes and seconds,
      or 0 whenever the text is not of that shape. */
  function TimestampToSeconds(ts: string): real {
    var parts := Split(ts, ':');
    if |parts| < 3 then 0.0
    else
      match (ParseNat(parts[0]), ParsePeriodClock(parts))
      case (Some(h), Some(c)) => (h * 3600) as real + PeriodClockSeconds(c)
      case _ => 0.0
  }

  /** `period_timestamp_to_seconds`: the same parser without the hours field,
      which is never read. */
  function PeriodTimestampToSeconds(ts: string): real {
    var parts := Split(ts, ':');
    if |parts| < 3 then 0.0
    else
      match ParsePeriodClock(parts)
      case Some(c) => PeriodClockSeconds(c)
      case None => 0.0
  }

  /** The seconds field as written: "S", or "S.F" when a fraction is given. */
  function SecondsText(ss: string, fs: Option<string>): string {
    match fs
    case None => ss
    case Some(f) => ss + "." + f
  }

  /** The value of the fraction digits, 0 when there is no fraction. */
  function FractionOf(fs: Option<string>): nat
    requires fs.Some? ==> AllDigits(fs.value)
  {
    match fs
    case None => 0
    case Some(f) => DigitsValue(f)
  }

  lemma DigitsHaveNoSeparators(s: string)
    requires AllDigits(s)
    ensures ':' !in s && '.' !in s
  {
  }

  lemma SecondsFieldOfText(ss: string, fs: Option<string>)
    requires Numeral(ss) && (fs.Some? ==> Numeral(fs.value))
    ensures ':' !in SecondsText(ss, fs)
    ensures SecondsField(SecondsText(ss, fs)) == Some((DigitsValue(ss), FractionOf(fs)))
  {
    DigitsHaveNoSeparators(ss);
    match fs
    case None =>
    case Some(f) =>
      DigitsHaveNoSeparators(f);
      var t := SecondsText(ss, fs);
      assert t == ss + ['.'] + f;
      assert t[|ss|] == '.';
      SplitAtFirstSeparator(ss, '.', f);
      SplitWithoutSeparator(f, '.');
      assert Split(t, '.') == [ss, f];
  }

  lemma SplitThreeFields(a: string, b: string, c: string, tail: string)
    requires ':' !in a && ':' !in b && ':' !in c
    requires tail == "" || tail[0] == ':'
    ensures var parts := Split(a + ":" + b + ":" + c + tail, ':');
      |parts| >= 3 && parts[0] == a && parts[1] == b && parts[2] == c
  {
    var rest := b + ":" + c + tail;
    assert a + ":" + b + ":" + c + tail == a + [':'] + rest;
    SplitAtFirstSeparator(a, ':', rest);
    SplitLastFields(b, c, tail);
  }

  lemma SplitLastFields(b: string, c: string, tail: string)
    requires ':' !in b && ':' !in c
    requires tail == "" || tail[0] == ':'
    ensures var parts := Split(b + ":" + c + tail, ':');
      |parts| >= 2 && parts[0] == b && parts[1] == c
  {
    assert b + ":" + c + tail == b + [':'] + (c + tail);
    SplitAtFirstSeparator(b, ':', c + tail);
    if tail == "" {
      assert c + tail == c;
      SplitWithoutSeparator(c, ':');
    } else {
      assert c + tail == c + [':'] + tail[1..];
      SplitAtFirstSeparator(c, ':', tail[1..]);
    }
  }

  /** The fields of "H:M:<seconds><tail>" when all three are numerals, leading
      zeros allowed, and the tail is empty or starts a fourth field. */
  lemma ClockFields(hs: string, ms: string, ss: string, fs: Option<string>, tail: string)
    requires Numeral(hs) && Numeral(ms) && Numeral(ss) && (fs.Some? ==> Numeral(fs.value))
    requires tail == "" || tail[0] == ':'
    ensures var parts := Split(hs + ":" + ms + ":" + SecondsText(ss, fs) + tail, ':');
      && |parts| >= 3
      && ParseNat(parts[0]) == Some(DigitsValue(hs))
      && ParsePeriodClock(parts) == Some(PeriodClock(DigitsValue(ms), DigitsValue(ss), FractionOf(fs)))
  {
    DigitsHaveNoSeparators(hs);
    DigitsHaveNoSeparators(ms);
    SecondsFieldOfText(ss, fs);
    SplitThreeFields(hs, ms, SecondsText(ss, fs), tail);
  }

  /** A clock "H:M:S" or "H:M:S.F" of numerals, zero-padded or not, reads as
      H*3600 + M*60 + S + F/1000000, whatever the width of F; any fields after
      the third are ignored. */
  lemma TimestampOfClockText(hs: string, ms: string, ss: string, fs: Option<string>, tail: string)
    requires Numeral(hs) && Numeral(ms) && Numeral(ss) && (fs.Some? ==> Numeral(fs.value))
    requires tail == "" || tail[0] == ':'
    ensures TimestampToSeconds(hs + ":" + ms + ":" + SecondsText(ss, fs) + tail)
      == (DigitsValue(hs) * 3600 + DigitsValue(ms) * 60 + DigitsValue(ss)) as real + FractionOf(fs) as real / 1000000.0
  {
    var ts := hs + ":" + ms + ":" + SecondsText(ss, fs) + tail;
    ClockFields(hs, ms, ss, fs, tail);
    var h, c := DigitsValue(hs), PeriodClock(DigitsValue(ms), DigitsValue(ss), FractionOf(fs));
    assert TimestampToSeconds(ts) == (h * 3600) as real + PeriodClockSeconds(c);
  }

  /** The period parser reads the same text as M*60 + S + F/1000000. */
  lemma PeriodTimestampOfClockText(hs: string, ms: string, ss: string, fs: Option<string>, tail: string)
    requires Numeral(hs) && Numeral(ms) && Numeral(ss) && (fs.Some? ==> Numeral(fs.value))
    requires tail == "" || tail[0] == ':'
    ensures PeriodTimestampToSeconds(hs + ":" + ms + ":" + SecondsText(ss, fs) + tail)
      == (DigitsValue(ms) * 60 + DigitsValue(ss)) as real + FractionOf(fs) as real / 1000000.0
  {
    var ts := hs + ":" + ms + ":" + SecondsText(ss, fs) + tail;
    ClockFields(hs, ms, ss, fs, tail);
    var c := PeriodClock(DigitsValue(ms), DigitsValue(ss), FractionOf(fs));
    assert PeriodTimestampToSeconds(ts) == PeriodClockSeconds(c);
  }

  /** "0:0:1.5" is read as 1 second and 5 microseconds. */
  lemma FractionCountsMicroseconds()
    ensures TimestampToSeconds("0:0:1.5") == 1.000005
  {
    TimestampOfClockText("0", "0", "1", Some("5"), "");
    assert "0" + ":" + "0" + ":" + SecondsText("1", Some("5")) + "" == "0:0:1.5";
  }

  /** A zero-padded StatsBomb clock: "00:12:34.567" is 754 seconds and 567 microseconds. */
  lemma ZeroPaddedClock()
    ensures TimestampToSeconds("00:12:34.567") == 754.000567
    ensures PeriodTimestampToSeconds("00:12:34.567") == 754.000567
  {
    TimestampOfClockText("00", "12", "34", Some("567"), "");
    PeriodTimestampOfClockText("00", "12", "34", Some("567"), "");
    assert "00" + ":" + "12" + ":" + SecondsText("34", Some("567")) + "" == "00:12:34.567";
    assert DigitsValue("00") == 0 by { LeadingZero("0"); assert "0" + "0" == "00"; }
    assert DigitsValue("12") == 12 by { assert "12"[..1] == "1"; }
    assert DigitsValue("34") == 34 by { assert "34"[..1] == "3"; }
    assert DigitsValue("567") == 567 by { assert "567"[..2] == "56"; assert "56"[..1] == "5"; }
  }

  /** Fewer than two colons: both parsers fall back to 0. */
  lemma TooFewFieldsReadsZero(ts: string)
    requires Occurrences(ts, ':') < 2
    ensures TimestampToSeconds(ts) == 0.0 && PeriodTimestampToSeconds(ts) == 0.0
  {
    SplitLength(ts, ':');
  }

  /** A field that is not of the expected shape (hours or minutes not a numeral,
      seconds neither "S" nor "S.F" of numerals) makes the parsers fall back to 0;
      the period parser ignores the hours field. */
  lemma NonNumeralFieldReadsZero(ts: string)
    requires |Split(ts, ':')| >= 3
    requires var p := Split(ts, ':');
      ParseNat(p[0]).None? || ParseNat(p[1]).None? || SecondsField(p[2]).None?
    ensures TimestampToSeconds(ts) == 0.0
    ensures var p := Split(ts, ':');
      ParseNat(p[1]).None? || SecondsField(p[2]).None? ==> PeriodTimestampToSeconds(ts) == 0.0
  {
  }

  /** A seconds field with two or more dots makes both parsers fall back to 0. */
  lemma ExtraDotReadsZero(ts: string)
    requires |Split(ts, ':')| >= 3
    requires Occurrences(Split(ts, ':')[2], '.') >= 2
    ensures TimestampToSeconds(ts) == 0.0 && PeriodTimestampToSeconds(ts) == 0.0
  {
    var p := Split(ts, ':')[2];
    SplitLength(p, '.');
    if '.' !in p {
      NoOccurrences(p, '.');
    }
  }

  lemma {:induction false} NoOccurrences(s: string, c: char)
    requires c !in s
    ensures Occurrences(s, c) == 0
    decreases |s|
  {
    if |s| > 0 {
      assert c !in s[1..];
      NoOccurrences(s[1..], c);
    }
  }

  /** The period parser never reads the hours field: whatever stands before the
      first colon, the result is the same. */
  lemma PeriodIgnoresHours(h1: string, h2: string, rest: string)
    requires ':' !in h1 && ':' !in h2
    ensures PeriodTimestampToSeconds(h1 + ":" + rest) == PeriodTimestampToSeconds(h2 + ":" + rest)
  {
    assert h1 + ":" + rest == h1 + [':'] + rest;
    assert h2 + ":" + rest == h2 + [':'] + rest;
    SplitAtFirstSeparator(h1, ':', rest);
    SplitAtFirstSeparator(h2, ':', rest);
    var p1, p2 := Split(h1 + ":" + rest, ':'), Split(h2 + ":" + rest, ':');
    assert p1[1..] == p2[1..];
    if |p1| >= 3 {
      assert p1[1] == p2[1] && p1[2] == p2[2];
    }
  }

  /** When the hours field is a numeral, the full reading is the period reading
      plus the hours; when the clock part is malformed both are 0. */
  lemma FullReadingAddsHours(ts: string, h: nat)
    requires |Split(ts, ':')| >= 3 && ParseNat(Split(ts, ':')[0]) == Some(h)
    ensures ParsePeriodClock(Split(ts, ':')).Some? ==>
      TimestampToSeconds(ts) == (h * 3600) as real + PeriodTimestampToSeconds(ts)
    ensures ParsePeriodClock(Split(ts, ':')).None? ==>
      TimestampToSeconds(ts) == 0.0 && PeriodTimestampToSeconds(ts) == 0.0
  {
  }
}
