/** `formatTimeToJST` of public/app.js: a candle's Unix time in seconds is
    shown as its Japan Standard Time wall-clock reading, read off a `Date`
    moved nine hours forward through its UTC fields.  The calendar is the
    proleptic Gregorian one of ECMAScript dates, computed here by the
    days-to-civil algorithm of H. Hinnant, and its inverse is given beside it. */
module AppTime {
  import opened Wrappers
  import opened Strings

  /** ECMAScript time values are at most 8.64e15 ms away from the epoch. */
  const MaxTimeValue: int := 8640000000000000
  /** Nine hours, in milliseconds. */
  const JstOffsetMs: int := 32400000

  datatype Civil = Civil(year: int, month: int, day: int)

  /** The Gregorian year within a 400-year era from the day within it,
      counting years from March 1st. */
  lemma DoyRangeBlock(doe: int, c: int, b: int)
    requires 0 <= c < 4 && 0 <= b < 25
    requires 36524 * c + 1461 * b <= doe < 36524 * c + 1461 * b + 1461
    requires doe < 36524 * c + 36524
    ensures var yoe := (doe - doe / 1460 + doe / 36524 - doe / 146096) / 365;
            var doy := doe - (365 * yoe + yoe / 4 - yoe / 100);
            0 <= yoe < 400 && 0 <= doy < 366
  {
    assert doe / 36524 == c;
    assert doe / 146096 == 0;
    var k := doe - 36524 * c - 1461 * b;
    var q := doe / 1460;
    assert 1460 * q <= doe < 1460 * q + 1460;
    var e := q - 25 * c - b;
    assert 0 <= e <= 1;
    assert k == 1460 ==> e == 1;
    var j := (k - e) / 365;
    assert 0 <= j <= 3;
    var yoe := (doe - q + c) / 365;
    assert doe - q + c == 36500 * c + 1460 * b + (k - e);
    assert yoe == 100 * c + 4 * b + j;
    assert yoe / 4 == 25 * c + b;
    assert yoe / 100 == c;
  }

  function YearOfEra(doe: int): (yoe: int)
    requires 0 <= doe < 146097
    ensures 0 <= yoe < 400
    ensures 0 <= doe - (365 * yoe + yoe / 4 - yoe / 100) < 366
  {
    if doe == 146096 then
      399
    else
      var c := doe / 36524;
      var b := (doe - 36524 * c) / 1461;
      DoyRangeBlock(doe, c, b);
      (doe - doe / 1460 + doe / 36524 - doe / 146096) / 365
  }

  /** The month counted from March (0 = March, 11 = February) of a day of
      the March-based year. */
  function MarchMonth(doy: int): (mp: int)
    requires 0 <= doy < 366
    ensures 0 <= mp < 12
    ensures 1 <= doy - (153 * mp + 2) / 5 + 1 <= 31
  {
    (5 * doy + 2) / 153
  }

  /** The calendar date of a count of days since 1970-01-01. */
  function CivilFromDays(days: int): (c: Civil)
    ensures 1 <= c.month <= 12 && 1 <= c.day <= 31
  {
    var z := days + 719468;
    var era := z / 146097;
    var doe := z - era * 146097;
    var yoe := YearOfEra(doe);
    var doy := doe - (365 * yoe + yoe / 4 - yoe / 100);
    var mp := MarchMonth(doy);
    var m := if mp < 10 then mp + 3 else mp - 9;
    Civil(yoe + era * 400 + (if m <= 2 then 1 else 0), m, doy - (153 * mp + 2) / 5 + 1)
  }

  /** The number of days from 1970-01-01 to a calendar date. */
  function DaysFromCivil(c: Civil): int {
    var y := c.year - (if c.month <= 2 then 1 else 0);
    var era := y / 400;
    var yoe := y - era * 400;
    var mp := if c.month > 2 then c.month - 3 else c.month + 9;
    var doy := (153 * mp + 2) / 5 + c.day - 1;
    era * 146097 + yoe * 365 + yoe / 4 - yoe / 100 + doy - 719468
  }

  /** The date shown for a day identifies the day. */
  lemma CivilRoundTrip(days: int)
    ensures DaysFromCivil(CivilFromDays(days)) == days
  {
    var z := days + 719468;
    var era := z / 146097;
    var doe := z - era * 146097;
    var yoe := YearOfEra(doe);
    var y := yoe + era * 400;
    assert y / 400 == era;
  }

  lemma EpochIsFirstOfJanuary1970()
    ensures CivilFromDays(0) == Civil(1970, 1, 1)
    ensures DaysFromCivil(Civil(1970, 1, 1)) == 0
  {
    assert 719468 / 146097 == 4;
    assert 135080 / 1460 == 92 && 135080 / 36524 == 3 && 135080 / 146096 == 0;
    assert 134991 / 365 == 369;
    assert YearOfEra(135080) == 369;
    assert 369 / 4 == 92 && 369 / 100 == 3;
    assert (5 * 306 + 2) / 153 == 10 && (153 * 10 + 2) / 5 == 306;
    assert MarchMonth(306) == 10;
    assert 1969 / 400 == 4;
  }

  /** The fields of the shifted `Date` read through its UTC getters. */
  datatype Stamp = Stamp(date: Civil, hours: int, minutes: int, seconds: int)

  /** Whether both `Date`s built by the formatter hold a time value; out of
      range, every getter yields NaN. */
  predicate DatesValid(unixTime: int) {
    -MaxTimeValue <= unixTime * 1000 <= MaxTimeValue
    && -MaxTimeValue <= unixTime * 1000 + JstOffsetMs <= MaxTimeValue
  }

  function JstStamp(unixTime: int): Option<Stamp> {
    if !DatesValid(unixTime) then None
    else
      var secs := unixTime + JstOffsetMs / 1000;
      var sod := secs % 86400;
      Some(Stamp(CivilFromDays(secs / 86400), sod / 3600, sod % 3600 / 60, sod % 60))
  }

  /** A second of the day splits into hours, minutes and seconds. */
  lemma ClockSplit(sod: int)
    requires 0 <= sod < 86400
    ensures 0 <= sod / 3600 < 24 && 0 <= sod % 3600 / 60 < 60 && 0 <= sod % 60 < 60
    ensures (sod / 3600) * 3600 + (sod % 3600 / 60) * 60 + sod % 60 == sod
  {
    var h := sod / 3600;
    var r := sod % 3600;
    assert sod == h * 3600 + r;
    var m := r / 60;
    assert r == m * 60 + r % 60;
    assert sod == (h * 60 + m) * 60 + r % 60;
  }

  /** Every field of a stamp is in its range, and the stamp reads back to
      the Unix time plus nine hours. */
  lemma StampRoundTrip(unixTime: int)
    requires DatesValid(unixTime)
    ensures var s := JstStamp(unixTime).value;
            0 <= s.hours < 24 && 0 <= s.minutes < 60 && 0 <= s.seconds < 60
            && 1 <= s.date.month <= 12 && 1 <= s.date.day <= 31
            && DaysFromCivil(s.date) * 86400 + s.hours * 3600 + s.minutes * 60 + s.seconds == unixTime + 32400
  {
    var secs := unixTime + 32400;
    var days := secs / 86400;
    var sod := secs % 86400;
    assert secs == days * 86400 + sod;
    ClockSplit(sod);
    CivilRoundTrip(days);
  }

  /** `String(n).padStart(2, '0')`. */
  function PadStart2(s: string): string {
    if |s| >= 2 then s else seq(2 - |s|, _ => '0') + s
  }

  function Pad2(n: nat): (r: string)
    requires n < 100
    ensures |r| == 2
  {
    PadStart2(NatToString(n))
  }

  /** A two-digit field reads back to its value. */
  lemma Pad2Value(n: nat)
    requires n < 100
    ensures DigitsValue(Pad2(n)) == n
  {
    NatToStringRoundTrip(n);
    if n < 10 {
      var s := Pad2(n);
      assert s == "0" + NatToString(n);
      assert s[..1] == "0";
      assert DigitsValue(s[..1]) == DigitsValue(s[..0]) * 10 + 0;
      assert s[..0] == [];
    }
  }

  const InvalidText: string := "NaN/NaN/NaN NaN:NaN:NaN"

  /** The text of `${year}/${month}/${day} ${hours}:${minutes}:${seconds}`
      after the year. */
  function AfterYear(s: Stamp): string
    requires 1 <= s.date.month <= 12 && 1 <= s.date.day <= 31
    requires 0 <= s.hours < 24 && 0 <= s.minutes < 60 && 0 <= s.seconds < 60
  {
    "/" + Pad2(s.date.month) + "/" + Pad2(s.date.day) + " " + Pad2(s.hours) + ":" + Pad2(s.minutes) + ":" + Pad2(s.seconds)
  }

  function FormatTimeToJst(unixTime: int): string {
    match JstStamp(unixTime)
    case None => InvalidText
    case Some(s) =>
      StampRoundTrip(unixTime);
      IntToString(s.date.year) + AfterYear(s)
  }

  lemma EpochStamp()
    ensures JstStamp(0) == Some(Stamp(Civil(1970, 1, 1), 9, 0, 0))
  {
    EpochIsFirstOfJanuary1970();
    EpochClock();
  }

  lemma EpochClock()
    ensures DatesValid(0)
    ensures 32400 / 86400 == 0 && 32400 % 86400 == 32400
    ensures 32400 / 3600 == 9 && 32400 % 3600 / 60 == 0 && 32400 % 60 == 0
  {
  }

  lemma EpochYearText()
    ensures IntToString(1970) == "1970"
  {
    assert NatToString(1) == "1";
    assert NatToString(19) == "19";
    assert NatToString(197) == "197";
  }

  lemma EpochClockText()
    ensures AfterYear(Stamp(Civil(1970, 1, 1), 9, 0, 0)) == "/01/01 09:00:00"
  {
    assert Pad2(1) == "01" && Pad2(9) == "09" && Pad2(0) == "00";
  }

  /** The Unix epoch is nine in the morning of 1970-01-01 in Japan. */
  lemma EpochShown()
    ensures FormatTimeToJst(0) == "1970/01/01 09:00:00"
  {
    EpochStamp();
    EpochYearText();
    EpochClockText();
    assert FormatTimeToJst(0) == "1970" + "/01/01 09:00:00";
  }

  /** Out of the range of `Date`, every field prints as NaN. */
  lemma InvalidShownAsNaN(unixTime: int)
    ensures !DatesValid(unixTime) <==> FormatTimeToJst(unixTime) == InvalidText
  {
    if DatesValid(unixTime) {
      var t := FormatTimeToJst(unixTime);
      var s := JstStamp(unixTime).value;
      StampRoundTrip(unixTime);
      var y := IntToString(s.date.year);
      assert t == y + AfterYear(s);
      assert t[|y|] == '/';
      SignShown(s.date.year);
      if s.date.year >= 0 {
        assert '0' <= NatToString(s.date.year)[0] <= '9';
      }
      assert t[0] == y[0];
      assert t[0] != InvalidText[0];
    }
  }

  lemma SplitEqualTails(a: string, b: string, c: string, d: string)
    requires a + b == c + d && |b| == |d|
    ensures a == c && b == d
  {
    assert a == (a + b)[..|a|];
    assert c == (c + d)[..|c|];
    assert b == (a + b)[|a|..];
    assert d == (c + d)[|c|..];
  }

  lemma Pad2Injective(m: nat, n: nat)
    requires m < 100 && n < 100 && Pad2(m) == Pad2(n)
    ensures m == n
  {
    Pad2Value(m);
    Pad2Value(n);
  }

  /** Where each field sits in the text after the year. */
  lemma AfterYearFields(s: Stamp)
    requires 1 <= s.date.month <= 12 && 1 <= s.date.day <= 31
    requires 0 <= s.hours < 24 && 0 <= s.minutes < 60 && 0 <= s.seconds < 60
    ensures |AfterYear(s)| == 15
    ensures AfterYear(s)[1..3] == Pad2(s.date.month) && AfterYear(s)[4..6] == Pad2(s.date.day)
    ensures AfterYear(s)[7..9] == Pad2(s.hours) && AfterYear(s)[10..12] == Pad2(s.minutes)
    ensures AfterYear(s)[13..15] == Pad2(s.seconds)
  {
  }

  /** Equal tails after the year carry equal fields. */
  lemma AfterYearInjective(s1: Stamp, s2: Stamp)
    requires 1 <= s1.date.month <= 12 && 1 <= s1.date.day <= 31
    requires 0 <= s1.hours < 24 && 0 <= s1.minutes < 60 && 0 <= s1.seconds < 60
    requires 1 <= s2.date.month <= 12 && 1 <= s2.date.day <= 31
    requires 0 <= s2.hours < 24 && 0 <= s2.minutes < 60 && 0 <= s2.seconds < 60
    requires AfterYear(s1) == AfterYear(s2)
    ensures s1.date.month == s2.date.month && s1.date.day == s2.date.day
    ensures s1.hours == s2.hours && s1.minutes == s2.minutes && s1.seconds == s2.seconds
  {
    AfterYearFields(s1);
    AfterYearFields(s2);
    Pad2Injective(s1.date.month, s2.date.month);
    Pad2Injective(s1.date.day, s2.date.day);
    Pad2Injective(s1.hours, s2.hours);
    Pad2Injective(s1.minutes, s2.minutes);
    Pad2Injective(s1.seconds, s2.seconds);
  }

  /** Distinct candle times within the range of `Date` get distinct labels. */
  lemma FormatInjective(u1: int, u2: int)
    requires DatesValid(u1) && DatesValid(u2)
    requires FormatTimeToJst(u1) == FormatTimeToJst(u2)
    ensures u1 == u2
  {
    StampRoundTrip(u1);
    StampRoundTrip(u2);
    var s1 := JstStamp(u1).value;
    var s2 := JstStamp(u2).value;
    SplitEqualTails(IntToString(s1.date.year), AfterYear(s1), IntToString(s2.date.year), AfterYear(s2));
    IntToStringInjective(s1.date.year, s2.date.year);
    AfterYearInjective(s1, s2);
  }
}
