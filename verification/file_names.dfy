/** The name of the log file a run opens: APP_NAME-yyyyMMdd-hhmmss.log
    (Logger::Logger, backend/logger.cpp), and its parser. */
module FileNames {
  import opened Wrappers

  /** The start time fields the name is formatted from. */
  datatype DateTime = DateTime(year: nat, month: nat, day: nat, hour: nat, minute: nat, second: nat)

  /** A date and time of day whose year has at most four digits. */
  predicate ValidDateTime(t: DateTime)
  {
    t.year <= 9999 && 1 <= t.month <= 12 && 1 <= t.day <= 31 &&
    t.hour < 24 && t.minute < 60 && t.second < 60
  }

  function Pow10(n: nat): (r: nat)
    ensures r >= 1
  {
    if n == 0 then 1 else 10 * Pow10(n - 1)
  }

  predicate IsDigit(c: char)
  {
    '0' <= c <= '9'
  }

  predicate AllDigits(s: string)
  {
    forall i :: 0 <= i < |s| ==> IsDigit(s[i])
  }

  function DigitChar(d: nat): (c: char)
    requires d < 10
    ensures IsDigit(c)
  {
    ('0' as int + d) as char
  }

  function DigitValue(c: char): (d: nat)
    requires IsDigit(c)
    ensures d < 10
  {
    c as int - '0' as int
  }

  /** `n` written in exactly `width` decimal digits, zero-padded on the left. */
  function Padded(n: nat, width: nat): (s: string)
    requires n < Pow10(width)
    ensures |s| == width && AllDigits(s)
  {
    if width == 0 then ""
    else Padded(n / 10, width - 1) + [DigitChar(n % 10)]
  }

  /** The number a string of decimal digits denotes. */
  function DigitsValue(s: string): (n: nat)
    requires AllDigits(s)
    ensures n < Pow10(|s|)
  {
    if s == [] then 0
    else DigitsValue(s[..|s| - 1]) * 10 + DigitValue(s[|s| - 1])
  }

  /** Reading the padded digits back gives the number. */
  lemma {:induction false} DigitsValuePadded(n: nat, width: nat)
    requires n < Pow10(width)
    ensures DigitsValue(Padded(n, width)) == n
  {
    if width > 0 {
      var s := Padded(n, width);
      assert n / 10 < Pow10(width - 1);
      assert s[..|s| - 1] == Padded(n / 10, width - 1);
      DigitsValuePadded(n / 10, width - 1);
      assert DigitValue(DigitChar(n % 10)) == n % 10;
    }
  }

  /** Padding the value of a digit string to its own length gives the string. */
  lemma {:induction false} PaddedDigitsValue(s: string)
    requires AllDigits(s)
    ensures Padded(DigitsValue(s), |s|) == s
  {
    if s != [] {
      var init := s[..|s| - 1];
      var d := DigitValue(s[|s| - 1]);
      var n := DigitsValue(s);
      assert n == DigitsValue(init) * 10 + d;
      assert n / 10 == DigitsValue(init) && n % 10 == d;
      PaddedDigitsValue(init);
      assert DigitChar(d) == s[|s| - 1];
      assert s == init + [s[|s| - 1]];
    }
  }

  /** yyyyMMdd */
  function DatePart(t: DateTime): (s: string)
    requires ValidDateTime(t)
    ensures |s| == 8 && AllDigits(s)
  {
    Padded(t.year, 4) + Padded(t.month, 2) + Padded(t.day, 2)
  }

  /** hhmmss */
  function TimePart(t: DateTime): (s: string)
    requires ValidDateTime(t)
    ensures |s| == 6 && AllDigits(s)
  {
    Padded(t.hour, 2) + Padded(t.minute, 2) + Padded(t.second, 2)
  }

  /** The timestamp as the format string yyyyMMdd-hhmmss writes it: eight
      digits, a dash and six digits. */
  function Stamp(t: DateTime): (s: string)
    requires ValidDateTime(t)
    ensures |s| == 15 && s[8] == '-'
    ensures AllDigits(s[..8]) && AllDigits(s[9..])
  {
    DatePart(t) + "-" + TimePart(t)
  }

  /** "%1-%2.log" with APP_NAME and the stamp: twenty characters beyond the
      application name, the whole of which the parser below reads back. */
  function LogFileName(appName: string, t: DateTime): (name: string)
    requires ValidDateTime(t)
    ensures |name| == |appName| + 20
  {
    appName + "-" + Stamp(t) + ".log"
  }

  /** Three fields of digits of widths w1, w2 and the rest, and their values. */
  predicate DigitFields(s: string, w1: nat, w2: nat)
  {
    w1 + w2 <= |s| && AllDigits(s[..w1]) && AllDigits(s[w1..w1 + w2]) && AllDigits(s[w1 + w2..])
  }

  /** Reads the stamp back from the fifteen characters yyyyMMdd-hhmmss. */
  function ParseStamp(s: string): Option<DateTime>
    requires |s| == 15
  {
    var date, time := s[..8], s[9..];
    if !(DigitFields(date, 4, 2) && s[8] == '-' && DigitFields(time, 2, 2)) then None
    else
      var t := DateTime(DigitsValue(date[..4]), DigitsValue(date[4..6]), DigitsValue(date[6..]),
                        DigitsValue(time[..2]), DigitsValue(time[2..4]), DigitsValue(time[4..]));
      if ValidDateTime(t) then Some(t) else None
  }

  /** The start time a log file of this application was named after, if any. */
  function ParseLogFileName(appName: string, name: string): Option<DateTime>
  {
    var n := |appName|;
    if |name| == n + 20 && name[..n] == appName && name[n] == '-' && name[n + 16..] == ".log"
    then ParseStamp(name[n + 1..n + 16])
    else None
  }

  lemma Slices(a: string, b: string, c: string)
    ensures (a + b + c)[..|a|] == a
    ensures (a + b + c)[|a|..|a| + |b|] == b
    ensures (a + b + c)[|a| + |b|..] == c
  {
  }

  lemma Unslice(s: string, i: nat, j: nat)
    requires i <= j <= |s|
    ensures s == s[..i] + s[i..j] + s[j..]
  {
  }

  /** The fields of a date part read back as the date. */
  lemma DatePartFields(t: DateTime)
    requires ValidDateTime(t)
    ensures DigitFields(DatePart(t), 4, 2)
    ensures DigitsValue(DatePart(t)[..4]) == t.year
    ensures DigitsValue(DatePart(t)[4..6]) == t.month
    ensures DigitsValue(DatePart(t)[6..]) == t.day
  {
    Slices(Padded(t.year, 4), Padded(t.month, 2), Padded(t.day, 2));
    DigitsValuePadded(t.year, 4);
    DigitsValuePadded(t.month, 2);
    DigitsValuePadded(t.day, 2);
  }

  /** The fields of a time part read back as the time of day. */
  lemma TimePartFields(t: DateTime)
    requires ValidDateTime(t)
    ensures DigitFields(TimePart(t), 2, 2)
    ensures DigitsValue(TimePart(t)[..2]) == t.hour
    ensures DigitsValue(TimePart(t)[2..4]) == t.minute
    ensures DigitsValue(TimePart(t)[4..]) == t.second
  {
    Slices(Padded(t.hour, 2), Padded(t.minute, 2), Padded(t.second, 2));
    DigitsValuePadded(t.hour, 2);
    DigitsValuePadded(t.minute, 2);
    DigitsValuePadded(t.second, 2);
  }

  /** Parsing the name of a log file gives back the start time it was made from. */
  lemma ParseLogFileNameRoundTrip(appName: string, t: DateTime)
    requires ValidDateTime(t)
    ensures ParseLogFileName(appName, LogFileName(appName, t)) == Some(t)
  {
    var name := LogFileName(appName, t);
    var n := |appName|;
    var s := Stamp(t);
    assert name[..n] == appName;
    assert name[n + 1..n + 16] == s;
    assert name[n + 16..] == ".log";
    assert s[..8] == DatePart(t) && s[9..] == TimePart(t);
    DatePartFields(t);
    TimePartFields(t);
  }

  /** A date part the parser accepts is exactly the date part of what it read. */
  lemma ParsedDatePart(date: string, t: DateTime)
    requires DigitFields(date, 4, 2) && |date| == 8 && ValidDateTime(t)
    requires t.year == DigitsValue(date[..4]) && t.month == DigitsValue(date[4..6]) && t.day == DigitsValue(date[6..])
    ensures DatePart(t) == date
  {
    PaddedDigitsValue(date[..4]);
    PaddedDigitsValue(date[4..6]);
    PaddedDigitsValue(date[6..]);
    Unslice(date, 4, 6);
  }

  /** A time part the parser accepts is exactly the time part of what it read. */
  lemma ParsedTimePart(time: string, t: DateTime)
    requires DigitFields(time, 2, 2) && |time| == 6 && ValidDateTime(t)
    requires t.hour == DigitsValue(time[..2]) && t.minute == DigitsValue(time[2..4]) && t.second == DigitsValue(time[4..])
    ensures TimePart(t) == time
  {
    PaddedDigitsValue(time[..2]);
    PaddedDigitsValue(time[2..4]);
    PaddedDigitsValue(time[4..]);
    Unslice(time, 2, 4);
  }

  /** Every stamp the parser accepts is exactly the stamp of what it read. */
  lemma ParsedStamp(s: string, t: DateTime)
    requires |s| == 15 && ParseStamp(s) == Some(t)
    ensures ValidDateTime(t)
    ensures Stamp(t) == s
  {
    ParsedDatePart(s[..8], t);
    ParsedTimePart(s[9..], t);
    assert s == s[..8] + [s[8]] + s[9..];
  }

  /** Every name the parser accepts is exactly the log file name of that start time. */
  lemma ParsedLogFileName(appName: string, name: string, t: DateTime)
    requires ParseLogFileName(appName, name) == Some(t)
    ensures ValidDateTime(t)
    ensures LogFileName(appName, t) == name
  {
    var n := |appName|;
    var s := name[n + 1..n + 16];
    assert |name| == n + 20 && name[..n] == appName && name[n] == '-' && name[n + 16..] == ".log";
    ParsedStamp(s, t);
    assert name == name[..n] + [name[n]] + s + name[n + 16..];
  }
}
