/** The abridged activity log (`CustomLogger`): which entries are kept, how
    they are cleaned and queued, how the queue is flushed to the file of the
    day, and which day files are deleted as expired. The clock, the
    scheduler and the file system are inputs: "now" is a `Clock`, the log
    folder a `LogFolder`, and whether an append reaches the disk an oracle. */
module CustomLogging {
  import opened Common

  // ---------------------------------------------------------------------
  // Entry types

  /** The entry types the gate names; `OtherType` stands for any other. */
  datatype EntryType = SocialActivity | SuspiciousActivity | AdminActivity | Debug | Exception | OtherType

  /** The logging settings of the global configuration, and the plugin's
      debug switch. */
  datatype LoggingConfig = LoggingConfig(
    daysToKeep: int,
    socialActions: bool,
    suspiciousActivity: bool,
    adminActivity: bool,
    debugLogging: bool)

  /** `isEnabledType`, as the chain of early returns it is written as. */
  predicate IsEnabledType(c: LoggingConfig, t: EntryType)
  {
    if t == Exception then true
    else if t == SocialActivity && !c.socialActions then false
    else if t == SuspiciousActivity && !c.suspiciousActivity then false
    else if t == AdminActivity && !c.adminActivity then false
    else t != Debug || c.debugLogging
  }

  /** Exceptions are always logged, each activity type follows its own
      switch, debug entries follow the debug switch, and other types are
      always logged. */
  lemma EnabledTypes(c: LoggingConfig)
    ensures IsEnabledType(c, Exception) && IsEnabledType(c, OtherType)
    ensures IsEnabledType(c, SocialActivity) <==> c.socialActions
    ensures IsEnabledType(c, SuspiciousActivity) <==> c.suspiciousActivity
    ensures IsEnabledType(c, AdminActivity) <==> c.adminActivity
    ensures IsEnabledType(c, Debug) <==> c.debugLogging
  {
  }

  // ---------------------------------------------------------------------
  // Formatting codes

  /** The character that starts a two-character formatting code in the
      game's chat: the section sign. */
  const SectionSign: char := '\U{A7}'

  /** The character the formatter pattern starts with as the source file
      spells it: the Unicode replacement character, in the place where the
      section sign evidently belongs. */
  const ReplacementChar: char := '\U{FFFD}'

  /** The characters Java's `.` does not match outside DOTALL mode. */
  predicate LineTerminator(c: char)
  {
    c == '\n' || c == '\r' || c == '\U{85}' || c == '\U{2028}' || c == '\U{2029}'
  }

  /** No formatting code is left: every `marker` is followed by a line
      terminator or ends the text. */
  predicate NoFormatting(marker: char, s: string)
  {
    forall i :: 0 <= i < |s| - 1 && s[i] == marker ==> LineTerminator(s[i + 1])
  }

  /** `r` is `s` with some characters left out and the others in order. */
  predicate Subsequence(r: string, s: string)
    decreases |s|
  {
    if |r| == 0 then true
    else if |s| == 0 then false
    else (r[0] == s[0] && Subsequence(r[1..], s[1..])) || Subsequence(r, s[1..])
  }

  /** `replaceAll` of the pattern "`marker`, any character": codes are
      removed left to right without overlapping; a marker before a line
      terminator or at the end stays. What is left is the text's other
      characters, in their order. */
  function StripFormatting(marker: char, s: string): (r: string)
    requires !LineTerminator(marker)
    ensures |r| <= |s|
    ensures NoFormatting(marker, r)
    ensures Subsequence(r, s)
    ensures |s| > 0 && s[0] != marker ==> |r| > 0 && r[0] == s[0]
    decreases |s|
  {
    if |s| == 0 then ""
    else if |s| >= 2 && s[0] == marker && !LineTerminator(s[1]) then
      var rest := StripFormatting(marker, s[2..]);
      assert s[1..][1..] == s[2..];
      assert Subsequence(rest, s[1..]);
      rest
    else
      var rest := StripFormatting(marker, s[1..]);
      assert |s| >= 2 ==> s[1] != marker ==> rest[0] == s[1];
      assert ([s[0]] + rest)[1..] == rest;
      [s[0]] + rest
  }

  /** Text without formatting codes is left as it is. */
  lemma {:induction false} StripFormattingKeepsPlainText(marker: char, s: string)
    requires !LineTerminator(marker) && NoFormatting(marker, s)
    ensures StripFormatting(marker, s) == s
    decreases |s|
  {
    if |s| > 0 {
      assert NoFormatting(marker, s[1..]) by {
        forall i | 0 <= i < |s[1..]| - 1 && s[1..][i] == marker
          ensures LineTerminator(s[1..][i + 1])
        {
          assert s[i + 1] == marker;
        }
      }
      StripFormattingKeepsPlainText(marker, s[1..]);
      assert s == [s[0]] + s[1..];
    }
  }

  /** Stripping twice is stripping once. */
  lemma StripFormattingIdempotent(marker: char, s: string)
    requires !LineTerminator(marker)
    ensures StripFormatting(marker, StripFormatting(marker, s)) == StripFormatting(marker, s)
  {
    StripFormattingKeepsPlainText(marker, StripFormatting(marker, s));
  }

  lemma ConsAppend(c: char, a: string, x: string)
    ensures [c] + (a + x) == ([c] + a) + x
  {
  }

  /** A stretch of text without the marker survives in place, whatever
      follows it. */
  lemma {:induction false} StripFormattingKeepsPlainPrefix(marker: char, a: string, b: string)
    requires !LineTerminator(marker) && marker !in a
    ensures StripFormatting(marker, a + b) == a + StripFormatting(marker, b)
    decreases |a|
  {
    if |a| > 0 {
      var t := a + b;
      assert t[0] == a[0] && a[0] != marker;
      assert t[1..] == a[1..] + b;
      assert marker !in a[1..];
      StripFormattingKeepsPlainPrefix(marker, a[1..], b);
      var x := StripFormatting(marker, b);
      assert StripFormatting(marker, t) == [a[0]] + (a[1..] + x);
      ConsAppend(a[0], a[1..], x);
      assert [a[0]] + a[1..] == a;
    } else {
      assert a + b == b;
    }
  }

  /** As the pattern is spelled, a section-sign code is never removed and
      a replacement character swallows the character after it; the
      section-sign pattern does the reverse. */
  lemma FormattingMarkerDiscrepancy()
    ensures StripFormatting(ReplacementChar, [SectionSign, 'a']) == [SectionSign, 'a']
    ensures StripFormatting(SectionSign, [SectionSign, 'a']) == []
    ensures StripFormatting(ReplacementChar, [ReplacementChar, 'a']) == []
    ensures StripFormatting(SectionSign, [ReplacementChar, 'a']) == [ReplacementChar, 'a']
  {
    StripFormattingKeepsPlainText(ReplacementChar, [SectionSign, 'a']);
    StripFormattingKeepsPlainText(SectionSign, [ReplacementChar, 'a']);
  }

  /** As spelled, the pattern leaves every text without a replacement
      character unchanged, section-sign codes included. */
  lemma AsWrittenKeepsColourCodes(s: string)
    requires ReplacementChar !in s
    ensures StripFormatting(ReplacementChar, s) == s
  {
    StripFormattingKeepsPlainText(ReplacementChar, s);
  }

  // ---------------------------------------------------------------------
  // Numbers in names

  predicate IsDigit(c: char)
  {
    '0' <= c <= '9'
  }

  predicate AllDigits(s: string)
  {
    forall i :: 0 <= i < |s| ==> IsDigit(s[i])
  }

  /** The value of a string of decimal digits. */
  function DigitsValue(s: string): (n: nat)
    requires AllDigits(s)
  {
    if |s| == 0 then 0 else DigitsValue(s[..|s| - 1]) * 10 + (s[|s| - 1] as int - '0' as int)
  }

  /** The decimal digits of `n`, without leading zeros. */
  function Digits(n: nat): (s: string)
    ensures |s| >= 1 && AllDigits(s)
  {
    if n < 10 then [('0' as int + n) as char] else Digits(n / 10) + [('0' as int + n % 10) as char]
  }

  lemma {:induction false} DigitsValueOfDigits(n: nat)
    ensures DigitsValue(Digits(n)) == n
  {
    if n >= 10 {
      DigitsValueOfDigits(n / 10);
      var s := Digits(n);
      assert s[..|s| - 1] == Digits(n / 10);
    }
  }

  /** `n` printed with at least `width` digits, as `SimpleDateFormat` prints
      a field of `width` pattern letters. */
  function Padded(n: nat, width: nat): (s: string)
    ensures |s| >= width && |s| >= 1 && AllDigits(s)
  {
    var d := Digits(n);
    if |d| >= width then d else Zeros(width - |d|) + d
  }

  function Zeros(k: nat): (s: string)
    ensures |s| == k && AllDigits(s)
  {
    if k == 0 then "" else "0" + Zeros(k - 1)
  }

  lemma {:induction false} LeadingZerosValue(k: nat, s: string)
    requires AllDigits(s)
    ensures DigitsValue(Zeros(k) + s) == DigitsValue(s)
    decreases |s|
  {
    if |s| == 0 {
      ZerosValue(k);
      assert Zeros(k) + s == Zeros(k);
    } else {
      var t := Zeros(k) + s;
      assert t[..|t| - 1] == Zeros(k) + s[..|s| - 1];
      LeadingZerosValue(k, s[..|s| - 1]);
    }
  }

  lemma {:induction false} ZerosValue(k: nat)
    ensures DigitsValue(Zeros(k)) == 0
  {
    if k > 0 {
      var z := Zeros(k);
      assert z[..k - 1] == Zeros(k - 1) by {
        ZerosAreZero(k);
        ZerosAreZero(k - 1);
      }
      ZerosValue(k - 1);
      ZerosAreZero(k);
    }
  }

  lemma {:induction false} ZerosAreZero(k: nat)
    ensures forall i :: 0 <= i < k ==> Zeros(k)[i] == '0'
  {
    if k > 0 {
      ZerosAreZero(k - 1);
    }
  }

  lemma PaddedValue(n: nat, width: nat)
    ensures DigitsValue(Padded(n, width)) == n
  {
    DigitsValueOfDigits(n);
    var d := Digits(n);
    if |d| < width {
      assert Padded(n, width) == Zeros(width - |d|) + d;
      LeadingZerosValue(width - |d|, d);
    } else {
      assert Padded(n, width) == d;
    }
  }

  const IntMin: int := -0x8000_0000
  const IntMax: int := 0x7FFF_FFFF

  /** `Integer.parseInt` on decimal text: an optional sign, then at least one
      digit, and a value within the 32-bit range; anything else is a
      `NumberFormatException`, here `None`. */
  function ParseInt(s: string): (r: Option<int>)
    ensures r.Some? ==> IntMin <= r.value <= IntMax
  {
    if |s| == 0 then None
    else
      var body := if s[0] == '-' || s[0] == '+' then s[1..] else s;
      if |body| == 0 || !AllDigits(body) then None
      else
        var v: int := if s[0] == '-' then 0 - DigitsValue(body) else DigitsValue(body);
        if IntMin <= v <= IntMax then Some(v) else None
  }

  /** A number printed by the date format parses back. */
  lemma ParsePadded(n: nat, width: nat)
    requires n <= IntMax
    ensures ParseInt(Padded(n, width)) == Some(n)
  {
    PaddedValue(n, width);
    var s := Padded(n, width);
    assert IsDigit(s[0]);
  }

  // ---------------------------------------------------------------------
  // File names

  /** `String.replace(".log", "")`: every occurrence is removed, left to
      right. */
  function RemoveLog(s: string): (r: string)
    decreases |s|
  {
    if |s| < 4 then s
    else if s[..4] == ".log" then RemoveLog(s[4..])
    else [s[0]] + RemoveLog(s[1..])
  }

  lemma {:induction false} RemoveLogSuffix(s: string)
    requires '.' !in s
    ensures RemoveLog(s + ".log") == s
    decreases |s|
  {
    if |s| == 0 {
      assert s + ".log" == ".log";
      assert RemoveLog(".log") == RemoveLog("");
    } else {
      var t := s + ".log";
      assert t[0] == s[0] && t[0] != '.';
      assert t[1..] == s[1..] + ".log";
      RemoveLogSuffix(s[1..]);
      assert s == [s[0]] + s[1..];
    }
  }

  /** Every piece between underscores, empty ones included. */
  function SplitAll(s: string): (r: seq<string>)
    ensures |r| >= 1
  {
    if |s| == 0 then [""]
    else if s[0] == '_' then [""] + SplitAll(s[1..])
    else
      var t := SplitAll(s[1..]);
      [[s[0]] + t[0]] + t[1..]
  }

  function DropTrailingEmpty(r: seq<string>): seq<string>
  {
    if |r| > 0 && r[|r| - 1] == "" then DropTrailingEmpty(r[..|r| - 1]) else r
  }

  /** `String.split("_")`: the whole text when there is no underscore, else
      the pieces without the trailing empty ones. */
  function SplitUnderscore(s: string): seq<string>
  {
    if '_' !in s then [s] else DropTrailingEmpty(SplitAll(s))
  }

  lemma {:induction false} SplitAllPlain(a: string)
    requires '_' !in a
    ensures SplitAll(a) == [a]
  {
    if |a| > 0 {
      SplitAllPlain(a[1..]);
      assert a == [a[0]] + a[1..];
    }
  }

  lemma {:induction false} SplitAllFirst(a: string, b: string)
    requires '_' !in a
    ensures SplitAll(a + "_" + b) == [a] + SplitAll(b)
  {
    var s := a + "_" + b;
    if |a| == 0 {
      assert s == "_" + b;
      assert s[1..] == b;
    } else {
      assert s[1..] == a[1..] + "_" + b;
      SplitAllFirst(a[1..], b);
      assert a == [a[0]] + a[1..];
    }
  }

  /** How `deleteExpiredLogs` reads a name: not three parts, three parts one
      of which is not a number, or a date with the month as written
      (1-based). */
  datatype NameParse = WrongShape | NotNumeric | Dated(year: int, month: int, day: int)

  function ParseFileName(name: string): NameParse
  {
    var parts := SplitUnderscore(RemoveLog(name));
    if |parts| != 3 then WrongShape
    else
      var year := ParseInt(parts[0]);
      var month := ParseInt(parts[1]);
      var day := ParseInt(parts[2]);
      if year.None? || month.None? || day.None? then NotNumeric
      else Dated(year.value, month.value, day.value)
  }

  /** "Now" as the clock reports it, month 1-based. */
  datatype Clock = Clock(year: int, month: int, day: int, hour: int, minute: int)

  predicate ValidClock(c: Clock)
  {
    1 <= c.year <= IntMax && ValidDate(c.year, c.month, c.day) &&
    0 <= c.hour < 24 && 0 <= c.minute < 60
  }

  /** The `yyyy_MM_dd` name of the day's log file. */
  function FileName(c: Clock): string
    requires ValidClock(c)
  {
    Padded(c.year, 4) + "_" + Padded(c.month, 2) + "_" + Padded(c.day, 2) + ".log"
  }

  /** The `HH:mm` time stamp of an entry. */
  function Timestamp(c: Clock): string
    requires ValidClock(c)
  {
    Padded(c.hour, 2) + ":" + Padded(c.minute, 2)
  }

  lemma DigitsHaveNoSeparators(s: string)
    requires AllDigits(s)
    ensures '.' !in s && '_' !in s
  {
  }

  /** Three underscore-free, non-empty parts joined by underscores split
      back into those parts. */
  lemma {:induction false} SplitThree(y: string, m: string, d: string)
    requires '_' !in y && '_' !in m && '_' !in d && d != ""
    ensures SplitUnderscore(y + "_" + m + "_" + d) == [y, m, d]
  {
    var base := y + "_" + (m + "_" + d);
    assert y + "_" + m + "_" + d == base;
    assert base[|y|] == '_';
    SplitAllPlain(d);
    SplitAllFirst(m, d);
    SplitAllFirst(y, m + "_" + d);
    assert SplitAll(base) == [y, m, d];
    assert DropTrailingEmpty([y, m, d]) == [y, m, d];
  }

  /** The name of the day's file reads back as that day. */
  lemma {:induction false} FileNameRoundTrip(c: Clock)
    requires ValidClock(c)
    ensures ParseFileName(FileName(c)) == Dated(c.year, c.month, c.day)
  {
    var y, m, d := Padded(c.year, 4), Padded(c.month, 2), Padded(c.day, 2);
    DigitsHaveNoSeparators(y);
    DigitsHaveNoSeparators(m);
    DigitsHaveNoSeparators(d);
    var base := y + "_" + m + "_" + d;
    assert FileName(c) == base + ".log";
    RemoveLogSuffix(base);
    SplitThree(y, m, d);
    ParsePadded(c.year, 4);
    ParsePadded(c.month, 2);
    ParsePadded(c.day, 2);
  }

  // ---------------------------------------------------------------------
  // Calendar

  predicate Leap(year: int)
  {
    year % 4 == 0 && (year % 100 != 0 || year % 400 == 0)
  }

  /** The length of `month` in a year that is or is not a leap year. */
  function MonthLength(leap: bool, month: int): int
    requires 1 <= month <= 12
  {
    if month == 2 then (if leap then 29 else 28)
    else if month == 4 || month == 6 || month == 9 || month == 11 then 30
    else 31
  }

  function DaysInMonth(year: int, month: int): int
    requires 1 <= month <= 12
  {
    MonthLength(Leap(year), month)
  }

  predicate ValidDate(year: int, month: int, day: int)
  {
    1 <= month <= 12 && 1 <= day <= DaysInMonth(year, month)
  }

  /** The leap years among the years before `year`, counted from year 1
      (the count goes negative before it, one less per leap year). */
  function LeapsBefore(year: int): int
  {
    (year - 1) / 4 - (year - 1) / 100 + (year - 1) / 400
  }

  /** Days from 1970-01-01 to the first of January of `year`, proleptic
      Gregorian. */
  function YearStart(year: int): int
  {
    365 * (year - 1970) + LeapsBefore(year) - LeapsBefore(1970)
  }

  /** Days of a year before the first of `month`. */
  function DaysBeforeMonth(leap: bool, month: int): int
    requires 1 <= month <= 12
  {
    var common :=
      if month == 1 then 0 else if month == 2 then 31 else if month == 3 then 59
      else if month == 4 then 90 else if month == 5 then 120 else if month == 6 then 151
      else if month == 7 then 181 else if month == 8 then 212 else if month == 9 then 243
      else if month == 10 then 273 else if month == 11 then 304 else 334;
    if month > 2 && leap then common + 1 else common
  }

  /** The month starts are the running sums of the month lengths, and the
      months fill the year. */
  lemma MonthStarts(leap: bool, month: int)
    requires 1 <= month <= 12
    ensures month < 12 ==> DaysBeforeMonth(leap, month + 1) == DaysBeforeMonth(leap, month) + MonthLength(leap, month)
    ensures month == 12 ==> DaysBeforeMonth(leap, 12) + MonthLength(leap, 12) == if leap then 366 else 365
  {
  }

  /** The day a lenient calendar settles on for `set(year, month0, day)`,
      as days from 1970-01-01: a month (0-based) outside 0..11 moves the
      year, a day outside the month moves the date. */
  function DayNumber(year: int, month0: int, day: int): int
  {
    var y := year + month0 / 12;
    YearStart(y) + DaysBeforeMonth(Leap(y), month0 % 12 + 1) + day - 1
  }

  lemma DivStep4(y: int)
    ensures y / 4 - (y - 1) / 4 == if y % 4 == 0 then 1 else 0
  {
  }

  lemma DivStep100(y: int)
    ensures y / 100 - (y - 1) / 100 == if y % 100 == 0 then 1 else 0
  {
  }

  lemma DivStep400(y: int)
    ensures y / 400 - (y - 1) / 400 == if y % 400 == 0 then 1 else 0
  {
  }

  /** A year is one day longer than 365 exactly when it is a leap year. */
  lemma {:induction false} YearLength(year: int)
    ensures YearStart(year + 1) - YearStart(year) == if Leap(year) then 366 else 365
  {
    DivStep4(year);
    DivStep100(year);
    DivStep400(year);
  }

  /** A month within the year is read as itself, and day numbers of one
      month are its start plus the day. */
  lemma MonthInYear(year: int, month: int, day: int)
    requires 1 <= month <= 12
    ensures DayNumber(year, month - 1, day) == YearStart(year) + DaysBeforeMonth(Leap(year), month) + day - 1
  {
    assert (month - 1) / 12 == 0 && (month - 1) % 12 == month - 1;
  }

  /** The day after a valid date (the next day of the month, the first of
      the next month, or New Year's Day) is valid and has the next day
      number, so day numbers order dates as the calendar does. */
  lemma NextDateIsNextDay(year: int, month: int, day: int)
    requires ValidDate(year, month, day)
    ensures day < DaysInMonth(year, month) ==>
              ValidDate(year, month, day + 1) && DayNumber(year, month - 1, day + 1) == DayNumber(year, month - 1, day) + 1
    ensures day == DaysInMonth(year, month) && month < 12 ==>
              ValidDate(year, month + 1, 1) && DayNumber(year, month, 1) == DayNumber(year, month - 1, day) + 1
    ensures day == DaysInMonth(year, month) && month == 12 ==>
              ValidDate(year + 1, 1, 1) && DayNumber(year + 1, 0, 1) == DayNumber(year, month - 1, day) + 1
  {
    if day < DaysInMonth(year, month) {
      NextDayInMonth(year, month - 1, day);
    } else if month < 12 {
      NextMonthIsNextDay(year, month, day);
    } else {
      NextYearIsNextDay(year, month, day);
    }
  }

  /** Within a month, the next day has the next day number. */
  lemma NextDayInMonth(year: int, month0: int, day: int)
    ensures DayNumber(year, month0, day + 1) == DayNumber(year, month0, day) + 1
  {
  }

  /** The first of the next month follows the last day of a month before
      December. */
  lemma NextMonthIsNextDay(year: int, month: int, day: int)
    requires 1 <= month < 12 && day == DaysInMonth(year, month)
    ensures DayNumber(year, month, 1) == DayNumber(year, month - 1, day) + 1
  {
    MonthInYear(year, month, day);
    MonthInYear(year, month + 1, 1);
    MonthStarts(Leap(year), month);
  }

  /** New Year's Day follows the last of December. */
  lemma NextYearIsNextDay(year: int, month: int, day: int)
    requires month == 12 && day == DaysInMonth(year, month)
    ensures DayNumber(year + 1, 0, 1) == DayNumber(year, month - 1, day) + 1
  {
    MonthInYear(year, 12, 31);
    MonthInYear(year + 1, 1, 1);
    MonthStarts(Leap(year), 12);
    YearLength(year);
  }

  /** The epoch is day 0, and February has its leap day in 2000 but not in
      1900. */
  lemma DayNumberExamples()
    ensures DayNumber(1970, 0, 1) == 0
    ensures DayNumber(2000, 2, 1) - DayNumber(2000, 1, 1) == 29
    ensures DayNumber(1900, 2, 1) - DayNumber(1900, 1, 1) == 28
  {
    assert Leap(2000) && !Leap(1900);
    MonthInYear(1970, 1, 1);
    MonthInYear(2000, 3, 1);
    MonthInYear(2000, 2, 1);
    MonthInYear(1900, 3, 1);
    MonthInYear(1900, 2, 1);
  }

  // ---------------------------------------------------------------------
  // Expiry

  /** Whether `deleteExpiredLogs` deletes a folder entry, given how its
      name reads: a file whose name reads as a date before today less the
      days to keep. Both calendars carry the current time of day, so the
      comparison is between days. */
  predicate Expired(parse: NameParse, isDirectory: bool, config: LoggingConfig, now: Clock)
  {
    !isDirectory &&
    match parse
    case Dated(year, month, day) => DayNumber(year, month - 1, day) < Boundary(config, now)
    case _ => false
  }

  /** The first day whose file is kept: today less the days to keep. */
  function Boundary(config: LoggingConfig, now: Clock): int
  {
    DayNumber(now.year, now.month - 1, now.day) - config.daysToKeep
  }

  /** The file the day's entries go to is never expired on that day while
      logs are kept, and a file dated one day before the boundary is. */
  lemma TodaysFileKept(config: LoggingConfig, now: Clock)
    requires ValidClock(now) && config.daysToKeep >= 0
    ensures !Expired(ParseFileName(FileName(now)), false, config, now)
  {
    FileNameRoundTrip(now);
  }

  // ---------------------------------------------------------------------
  // The log folder and the logger

  /** A folder entry: a file with its text, or a directory. */
  datatype Entry = File(contents: string) | Directory

  /** The log folder, by entry name. */
  class LogFolder {
    var entries: map<string, Entry>

    constructor (entries: map<string, Entry>)
      ensures this.entries == entries
    {
      this.entries := entries;
    }

    /** The text of file `name`; a missing file reads as empty. */
    function Contents(name: string): string
      reads this
    {
      if name in entries && entries[name].File? then entries[name].contents else ""
    }

    /** `Files.append`: creates the file if needed and adds `text` at its
        end. It fails on a directory and when `succeeds`, the outcome of
        the disk write, is false. */
    method Append(name: string, text: string, succeeds: bool) returns (ok: bool)
      modifies this
      ensures ok == (succeeds && !(name in old(entries) && old(entries)[name].Directory?))
      ensures ok ==> entries == old(entries)[name := File(old(Contents(name)) + text)]
      ensures !ok ==> entries == old(entries)
    {
      ok := succeeds && !(name in entries && entries[name].Directory?);
      if ok {
        entries := entries[name := File(Contents(name) + text)];
      }
    }

    /** `File.delete`. */
    method Delete(name: string)
      modifies this
      ensures entries == old(entries) - {name}
    {
      entries := entries - {name};
    }
  }

  /** The line `addEntry` queues for `entry` at `now`. */
  function LogLine(now: Clock, entry: string): string
    requires ValidClock(now)
  {
    Timestamp(now) + " " + StripFormatting(SectionSign, entry) + "\n"
  }

  /** A queued line is the five-character time stamp, a space, and the
      entry without formatting codes, ending the line. */
  lemma LogLineShape(now: Clock, entry: string)
    requires ValidClock(now)
    ensures var line := LogLine(now, entry);
            |line| == 7 + |StripFormatting(SectionSign, entry)| && line[2] == ':' && line[5] == ' ' &&
            line[6..|line| - 1] == StripFormatting(SectionSign, entry) && NoFormatting(SectionSign, line[6..|line| - 1]) &&
            line[|line| - 1] == '\n'
  {
    assert |Digits(now.hour)| <= 2 by {
      assert now.hour < 10 ==> |Digits(now.hour)| == 1;
      assert now.hour >= 10 ==> Digits(now.hour) == Digits(now.hour / 10) + [('0' as int + now.hour % 10) as char];
    }
    assert |Digits(now.minute)| <= 2 by {
      assert now.minute < 10 ==> |Digits(now.minute)| == 1;
      assert now.minute >= 10 ==> Digits(now.minute) == Digits(now.minute / 10) + [('0' as int + now.minute % 10) as char];
    }
  }

  /** What the expiry loop does with one folder entry. */
  datatype Verdict = Keep | Ignore | Delete

  /** The body of the expiry loop for one entry: directories and names not
      in three parts are kept silently, names with a non-number part are
      kept and reported, and dated files before the boundary are deleted. */
  method Examine(name: string, isDirectory: bool, config: LoggingConfig, now: Clock) returns (verdict: Verdict)
    ensures verdict == Delete <==> Expired(ParseFileName(name), isDirectory, config, now)
    ensures verdict == Ignore <==> !isDirectory && ParseFileName(name) == NotNumeric
  {
    if isDirectory {
      return Keep;
    }
    var parts := SplitUnderscore(RemoveLog(name));
    if |parts| != 3 {
      return Keep;
    }
    var year, month, day := ParseInt(parts[0]), ParseInt(parts[1]), ParseInt(parts[2]);
    if year.None? || month.None? || day.None? {
      return Ignore;
    }
    assert ParseFileName(name) == Dated(year.value, month.value, day.value);
    var boundary := Boundary(config, now);
    if DayNumber(year.value, month.value - 1, day.value) < boundary {
      return Delete;
    }
    return Keep;
  }

  /** The folder while the expiry loop runs: the entries still `pending`
      and the examined entries that are not expired. */
  ghost function Pruned(start: map<string, Entry>, pending: set<string>, config: LoggingConfig, now: Clock): map<string, Entry>
  {
    map name | name in start && (name in pending || !Expired(ParseFileName(name), start[name].Directory?, config, now))
      :: start[name]
  }

  /** Examining one more entry removes it exactly when it is expired. */
  lemma PrunedStep(start: map<string, Entry>, pending: set<string>, name: string, config: LoggingConfig, now: Clock)
    requires name in pending && name in start
    ensures Pruned(start, pending - {name}, config, now) ==
              if Expired(ParseFileName(name), start[name].Directory?, config, now)
              then Pruned(start, pending, config, now) - {name}
              else Pruned(start, pending, config, now)
  {
  }

  /** The files the expiry loop has reported: examined files whose name has
      three parts, not all numbers. */
  ghost function Reported(start: map<string, Entry>, pending: set<string>): set<string>
  {
    set name | name in start && name !in pending && start[name].File? && ParseFileName(name) == NotNumeric
  }

  lemma ReportedStep(start: map<string, Entry>, pending: set<string>, name: string)
    requires name in pending && name in start
    ensures Reported(start, pending - {name}) ==
              if start[name].File? && ParseFileName(name) == NotNumeric
              then Reported(start, pending) + {name}
              else Reported(start, pending)
  {
  }

  /** The day file's text and the buffer after a flush. */
  datatype Flushed = Flushed(file: string, buffer: string)

  /** `writeEntries` as written, on values. `late` is the text `addEntry`
      calls on other threads queue while the flush runs, after the buffer
      is read (`toString`) and before it is cleared (`setLength(0)`);
      `written` says whether the append reached the disk. An empty buffer
      returns at once. */
  function FlushAsWritten(file: string, buffer: string, late: string, written: bool): (f: Flushed)
    ensures buffer != "" && written ==> f.buffer == "" && f.file == file + buffer
    ensures !(buffer != "" && written) ==> f == Flushed(file, buffer + late)
  {
    if buffer != "" && written then Flushed(file + buffer, "") else Flushed(file, buffer + late)
  }

  /** The flush the retry comment intends: only the text that was written
      leaves the buffer (`delete(0, n)` for the `n` characters read). */
  function Flush(file: string, buffer: string, late: string, written: bool): (f: Flushed)
    ensures f.file + f.buffer == file + buffer + late
    ensures buffer != "" && written ==> f.file == file + buffer && f.buffer == late
    ensures !(buffer != "" && written) ==> f.file == file
  {
    if buffer != "" && written then Flushed(file + buffer, late) else Flushed(file, buffer + late)
  }

  /** As written, a successful flush loses exactly the late text: the file
      and the buffer together are short of it, and nothing is lost when
      no text arrives late or the write fails. */
  lemma {:induction false} FlushLosesLateText(file: string, buffer: string, late: string, written: bool)
    ensures var f := FlushAsWritten(file, buffer, late, written);
            (f.file + f.buffer == file + buffer + late) <==> (late == "" || buffer == "" || !written)
    ensures var f := FlushAsWritten(file, buffer, late, written);
            buffer != "" && written ==> file + buffer + late == f.file + f.buffer + late
  {
    var f := FlushAsWritten(file, buffer, late, written);
    if late != "" && buffer != "" && written {
      assert |f.file + f.buffer| < |file + buffer + late|;
    } else if buffer != "" && written {
      assert late == "" && f.buffer == "";
      assert f.file + f.buffer == file + buffer + late;
    }
  }

  /** The two flushes agree whenever no text arrives during the flush. */
  lemma FlushesAgreeWithoutLateText(file: string, buffer: string, written: bool)
    ensures FlushAsWritten(file, buffer, "", written) == Flush(file, buffer, "", written)
  {
  }

  /** The logger: the buffer of lines waiting to be written. */
  class CustomLogger {
    var queuedEntries: string

    /** Opening the log deletes the expired files at once; the recurring
        writer and remover are left to the scheduler. */
    constructor (folder: LogFolder, config: LoggingConfig, now: Clock)
      requires ValidClock(now)
      modifies folder
      ensures queuedEntries == ""
      ensures folder.entries ==
                map name | name in old(folder.entries) && !Expired(ParseFileName(name), old(folder.entries)[name].Directory?, config, now)
                  :: old(folder.entries)[name]
    {
      queuedEntries := "";
      new;
      var _ := DeleteExpiredLogs(folder, config, now);
    }

    /** `addEntry`: nothing when logging is off (no days kept) or the type is
        disabled; otherwise the entry's line is queued. */
    method AddEntry(config: LoggingConfig, entry: string, entryType: EntryType, now: Clock)
      requires ValidClock(now)
      modifies this
      ensures queuedEntries ==
                if config.daysToKeep == 0 || !IsEnabledType(config, entryType) then old(queuedEntries)
                else old(queuedEntries) + LogLine(now, entry)
    {
      if config.daysToKeep == 0 {
        return;
      }
      if !IsEnabledType(config, entryType) {
        return;
      }
      var stripped := StripFormatting(SectionSign, entry);
      var timestamp := Timestamp(now);
      queuedEntries := queuedEntries + (timestamp + " " + stripped + "\n");
    }

    /** `writeEntries`, with the intended flush: an empty buffer writes
        nothing; otherwise the text read from the buffer is appended to the
        day's file and then removed from the buffer, and when the append
        fails it is kept for the next write. `late` is the text other
        threads queue meanwhile. No text is lost or written twice: the
        file and the buffer together hold what they held, followed by the
        late text. */
    method WriteEntries(folder: LogFolder, now: Clock, succeeds: bool, late: string)
      requires ValidClock(now)
      modifies this, folder
      ensures var name := FileName(now);
              folder.Contents(name) + queuedEntries == old(folder.Contents(name)) + old(queuedEntries) + late
      ensures var name := FileName(now);
              var written := succeeds && !(name in old(folder.entries) && old(folder.entries)[name].Directory?);
              var f := Flush(old(folder.Contents(name)), old(queuedEntries), late, written);
              queuedEntries == f.buffer &&
              folder.entries == if old(queuedEntries) != "" && written then old(folder.entries)[name := File(f.file)]
                                else old(folder.entries)
    {
      if |queuedEntries| == 0 {
        queuedEntries := queuedEntries + late;
        return;
      }
      var filename := FileName(now);
      var snapshot := queuedEntries;
      var ok := folder.Append(filename, snapshot, succeeds);
      queuedEntries := queuedEntries + late;
      if ok {
        queuedEntries := queuedEntries[|snapshot|..];
      }
    }

    /** `deleteExpiredLogs`: every expired file is deleted, everything else
        stays; the names of files in three parts that are not all numbers
        are returned, as the debug entries that report them. */
    method DeleteExpiredLogs(folder: LogFolder, config: LoggingConfig, now: Clock) returns (ignored: set<string>)
      requires ValidClock(now)
      modifies folder
      ensures folder.entries ==
                map name | name in old(folder.entries) && !Expired(ParseFileName(name), old(folder.entries)[name].Directory?, config, now)
                  :: old(folder.entries)[name]
      ensures ignored ==
                set name | name in old(folder.entries) && old(folder.entries)[name].File? && ParseFileName(name) == NotNumeric
    {
      ghost var start := folder.entries;
      var remaining := folder.entries.Keys;
      ignored := {};
      while remaining != {}
        invariant remaining <= start.Keys
        invariant folder.entries == Pruned(start, remaining, config, now)
        invariant ignored == Reported(start, remaining)
        decreases remaining
      {
        var name :| name in remaining;
        PrunedStep(start, remaining, name, config, now);
        ReportedStep(start, remaining, name);
        remaining := remaining - {name};
        var verdict := Examine(name, folder.entries[name].Directory?, config, now);
        if verdict == Ignore {
          ignored := ignored + {name};
        } else if verdict == Delete {
          folder.Delete(name);
        }
      }
    }
  }
}
