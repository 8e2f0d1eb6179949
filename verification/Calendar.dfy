/**
 The report time stamp: seconds since 1970 turned into a UTC date-time in the form of RFC 3339,
 proved against the closed-form second count of the proleptic Gregorian calendar.
 */
module Calendar {
  import opened Common
  import opened Decimal

  datatype Date = Date(year: int, month: int, day: int, hour: int, minute: int, second: int)

  /** The leap-year rule of Appendix C of RFC 3339. */
  predicate IsLeap(y: int) { (y % 4 == 0 && y % 100 != 0) || y % 400 == 0 }

  function YearDays(y: int): int { if IsLeap(y) then 366 else 365 }

  /** The month lengths of section 5.7 of RFC 3339. */
  const MONTHS: seq<int> := [31, 28, 31, 30, 31, 30, 31, 31, 30, 31, 30, 31]

  function MonthDays(y: int, m: int): int
    requires 1 <= m <= 12
  {
    if m == 2 && IsLeap(y) then 29 else MONTHS[m - 1]
  }

  predicate ValidDate(d: Date) {
    && 1 <= d.month <= 12 && 1 <= d.day <= MonthDays(d.year, d.month)
    && 0 <= d.hour < 24 && 0 <= d.minute < 60 && 0 <= d.second < 60
  }

  /** Days from 1 January of year 1 to 1 January of year `y`. */
  function DaysBeforeYear(y: int): int { 365 * (y - 1) + (y - 1) / 4 - (y - 1) / 100 + (y - 1) / 400 }

  const DAYS_BEFORE_MONTH: seq<int> := [0, 31, 59, 90, 120, 151, 181, 212, 243, 273, 304, 334, 365]

  /** Days from 1 January to the first of month `m`; month 13 is the end of the year. */
  function DaysBeforeMonth(y: int, m: int): int
    requires 1 <= m <= 13
  {
    DAYS_BEFORE_MONTH[m - 1] + if m > 2 && IsLeap(y) then 1 else 0
  }

  function DayNumber(d: Date): int
    requires ValidDate(d)
  {
    DaysBeforeYear(d.year) - DaysBeforeYear(1970) + DaysBeforeMonth(d.year, d.month) + d.day - 1
  }

  /** Seconds since the start of 1970, without leap seconds. */
  function SecondsOf(d: Date): int
    requires ValidDate(d)
  {
    86400 * DayNumber(d) + 3600 * d.hour + 60 * d.minute + d.second
  }

  // ---------------------------------------------------------------------
  // One date per second

  lemma YearStep(y: int)
    ensures DaysBeforeYear(y + 1) == DaysBeforeYear(y) + YearDays(y)
  {
    assert y / 4 - (y - 1) / 4 == if y % 4 == 0 then 1 else 0;
    assert y / 100 - (y - 1) / 100 == if y % 100 == 0 then 1 else 0;
    assert y / 400 - (y - 1) / 400 == if y % 400 == 0 then 1 else 0;
    assert y % 400 == 0 ==> y % 100 == 0;
    assert y % 100 == 0 ==> y % 4 == 0;
  }

  lemma {:induction false} LaterYear(y: int, z: int)
    requires y < z
    ensures DaysBeforeYear(y) + YearDays(y) <= DaysBeforeYear(z)
    decreases z - y
  {
    YearStep(z - 1);
    if y < z - 1 { LaterYear(y, z - 1); } else { YearStep(y); }
  }

  lemma MonthStep(y: int, m: int)
    requires 1 <= m <= 12
    ensures DaysBeforeMonth(y, m + 1) == DaysBeforeMonth(y, m) + MonthDays(y, m)
    ensures DaysBeforeMonth(y, 13) == YearDays(y) && DaysBeforeMonth(y, 1) == 0
  {
  }

  lemma LaterMonth(y: int, m: int, n: int)
    requires 1 <= m < n <= 13
    ensures DaysBeforeMonth(y, m) + MonthDays(y, m) <= DaysBeforeMonth(y, n)
  {
  }

  /** The position of a valid day in its year. */
  lemma DayInYear(d: Date)
    requires ValidDate(d)
    ensures 0 <= DaysBeforeMonth(d.year, d.month) + d.day - 1 < YearDays(d.year)
  {
  }

  lemma EarlierYearEarlierDay(d: Date, e: Date)
    requires ValidDate(d) && ValidDate(e) && d.year < e.year
    ensures DayNumber(d) < DayNumber(e)
  {
    LaterYear(d.year, e.year);
    DayInYear(d);
    DayInYear(e);
  }

  lemma SameDayNumber(d: Date, e: Date)
    requires ValidDate(d) && ValidDate(e) && DayNumber(d) == DayNumber(e)
    ensures d.year == e.year && d.month == e.month && d.day == e.day
  {
    if d.year < e.year { EarlierYearEarlierDay(d, e); }
    if e.year < d.year { EarlierYearEarlierDay(e, d); }
    if d.month < e.month { LaterMonth(d.year, d.month, e.month); }
    if e.month < d.month { LaterMonth(d.year, e.month, d.month); }
  }

  /** No two valid dates, of any years, have the same second count. */
  lemma SecondsInjective(d: Date, e: Date)
    requires ValidDate(d) && ValidDate(e) && SecondsOf(d) == SecondsOf(e)
    ensures d == e
  {
    assert DayNumber(d) == DayNumber(e);
    SameDayNumber(d, e);
  }

  // ---------------------------------------------------------------------
  // Text

  function Zeros(k: nat): (s: seq<byte>)
    ensures |s| == k && AllDigits(s)
  {
    seq(k, _ => ZERO)
  }

  /** At least `width` digits, zeros in front. */
  function Padded(n: nat, width: nat): (s: seq<byte>)
    ensures AllDigits(s)
  {
    if |Digits(n)| < width then Zeros(width - |Digits(n)|) + Digits(n) else Digits(n)
  }

  lemma {:induction false} ValueOfZeros(k: nat)
    ensures Value(Zeros(k)) == 0
    decreases k
  {
    if k > 0 {
      assert Zeros(k)[..k - 1] == Zeros(k - 1);
      ValueOfZeros(k - 1);
    }
  }

  lemma {:induction false} ValueSkipsZeros(k: nat, s: seq<byte>)
    requires AllDigits(s)
    ensures Value(Zeros(k) + s) == Value(s)
    decreases |s|
  {
    if s == [] {
      assert Zeros(k) + s == Zeros(k);
      ValueOfZeros(k);
    } else {
      assert (Zeros(k) + s)[..k + |s| - 1] == Zeros(k) + s[..|s| - 1];
      ValueSkipsZeros(k, s[..|s| - 1]);
    }
  }

  lemma ValueOfPadded(n: nat, width: nat)
    ensures Value(Padded(n, width)) == n
  {
    ValueOfDigits(n);
    if |Digits(n)| < width { ValueSkipsZeros(width - |Digits(n)|, Digits(n)); }
  }

  lemma TwoWide(n: nat)
    requires n < 100
    ensures |Padded(n, 2)| == 2
  {
    if n >= 10 { assert |Digits(n)| == |Digits(n / 10)| + 1; }
  }

  const DASH: byte := 45
  const TEE: byte := 84
  const COLON: byte := 58
  const ZED: byte := 90

  function Two(n: nat): (s: seq<byte>)
    requires n < 100
    ensures |s| == 2
  {
    TwoWide(n);
    Padded(n, 2)
  }

  /** `-MM-DDTHH:MM:SSZ` */
  function Layout(month: seq<byte>, day: seq<byte>, hour: seq<byte>, minute: seq<byte>, second: seq<byte>): seq<byte>
    requires |month| == |day| == |hour| == |minute| == |second| == 2
  {
    [DASH, month[0], month[1], DASH, day[0], day[1], TEE, hour[0], hour[1],
     COLON, minute[0], minute[1], COLON, second[0], second[1], ZED]
  }

  function Tail(d: Date): seq<byte>
    requires ValidDate(d)
  {
    Layout(Two(d.month), Two(d.day), Two(d.hour), Two(d.minute), Two(d.second))
  }

  function Text(d: Date): seq<byte>
    requires ValidDate(d) && d.year >= 0
  {
    Padded(d.year, 4) + Tail(d)
  }

  /** The number in two digits, or -1. */
  function ReadTwo(s: seq<byte>): int
    requires |s| == 2
  {
    if AllDigits(s) then Value(s) else -1
  }

  /** Reads the fixed-width part after the year. */
  function ReadTail(year: int, t: seq<byte>): (r: Option<Date>)
    requires |t| == 16
    ensures r.Some? ==> ValidDate(r.value) && r.value.year == year
  {
    if t[0] != DASH || t[3] != DASH || t[6] != TEE || t[9] != COLON || t[12] != COLON || t[15] != ZED then None
    else
      var d := Date(year, ReadTwo(t[1..3]), ReadTwo(t[4..6]), ReadTwo(t[7..9]), ReadTwo(t[10..12]), ReadTwo(t[13..15]));
      if ValidDate(d) then Some(d) else None
  }

  /** Reads the text form: a year of four or more digits, then the fixed-width rest. */
  function ReadDate(t: seq<byte>): (r: Option<Date>)
    ensures r.Some? ==> ValidDate(r.value) && r.value.year >= 0
  {
    var y := |t| - 16;
    if y < 4 || !AllDigits(t[..y]) then None else ReadTail(Value(t[..y]), t[y..])
  }

  lemma ReadTwoOfTwo(n: nat)
    requires n < 100
    ensures ReadTwo(Two(n)) == n
  {
    ValueOfPadded(n, 2);
  }

  lemma LayoutFields(month: seq<byte>, day: seq<byte>, hour: seq<byte>, minute: seq<byte>, second: seq<byte>)
    requires |month| == |day| == |hour| == |minute| == |second| == 2
    ensures var t := Layout(month, day, hour, minute, second);
      && t[1..3] == month && t[4..6] == day && t[7..9] == hour && t[10..12] == minute && t[13..15] == second
  {
    var t := Layout(month, day, hour, minute, second);
    assert t[1..3] == [month[0], month[1]] && t[4..6] == [day[0], day[1]] && t[7..9] == [hour[0], hour[1]];
    assert t[10..12] == [minute[0], minute[1]] && t[13..15] == [second[0], second[1]];
  }

  lemma ReadTailOfTail(d: Date)
    requires ValidDate(d)
    ensures ReadTail(d.year, Tail(d)) == Some(d)
  {
    LayoutFields(Two(d.month), Two(d.day), Two(d.hour), Two(d.minute), Two(d.second));
    ReadTwoOfTwo(d.month);
    ReadTwoOfTwo(d.day);
    ReadTwoOfTwo(d.hour);
    ReadTwoOfTwo(d.minute);
    ReadTwoOfTwo(d.second);
  }

  /** Formatting loses nothing: the text reads back to the date. */
  lemma TextRoundTrip(d: Date)
    requires ValidDate(d) && d.year >= 0
    ensures ReadDate(Text(d)) == Some(d)
  {
    var t, y := Text(d), |Padded(d.year, 4)|;
    assert t[..y] == Padded(d.year, 4) && t[y..] == Tail(d);
    ValueOfPadded(d.year, 4);
    ReadTailOfTail(d);
  }

  // ---------------------------------------------------------------------
  // The loops

  /** Takes whole years off the day count. */
  method YearOf(total: nat) returns (year: int, days: int)
    ensures year >= 1970 && 0 <= days < YearDays(year)
    ensures total == DaysBeforeYear(year) - DaysBeforeYear(1970) + days
  {
    days, year := total, 1970;
    while true
      invariant year >= 1970 && days >= 0 && total == DaysBeforeYear(year) - DaysBeforeYear(1970) + days
      decreases days
    {
      var yd := if IsLeap(year) then 366 else 365;
      if days < yd { break; }
      YearStep(year);
      days := days - yd;
      year := year + 1;
    }
  }

  /** Takes whole months off the day of the year; stops inside the twelve months. */
  method MonthOf(year: int, dayOfYear: nat) returns (month: int, day: int)
    requires dayOfYear < YearDays(year)
    ensures 1 <= month <= 12 && 1 <= day <= MonthDays(year, month)
    ensures dayOfYear == DaysBeforeMonth(year, month) + day - 1
  {
    var feb := if IsLeap(year) then 29 else 28;
    var m, days := 0, dayOfYear;
    MonthStep(year, 1);
    while m < 12
      invariant 0 <= m <= 12 && 0 <= days && dayOfYear == DaysBeforeMonth(year, m + 1) + days
      invariant DaysBeforeMonth(year, 13) == YearDays(year)
    {
      var dim := if m == 1 then feb else MONTHS[m];
      if days < dim { break; }
      MonthStep(year, m + 1);
      days := days - dim;
      m := m + 1;
    }
    month, day := m + 1, days + 1;
  }

  /**
   The time stamp of a second count reads back as a valid date, whose Gregorian second count is
   the input; the text is the standard one for that date.
   */
  method FormatSecs(secs: u64) returns (text: seq<byte>)
    ensures ReadDate(text).Some? && SecondsOf(ReadDate(text).value) == secs
    ensures text == Text(ReadDate(text).value) && ReadDate(text).value.year >= 1970
  {
    var rest := secs;
    var s := rest % 60;
    rest := rest / 60;
    var min := rest % 60;
    rest := rest / 60;
    var hour := rest % 24;
    var year, dayOfYear := YearOf(rest / 24);
    var month, day := MonthOf(year, dayOfYear);
    var date := Date(year, month, day, hour, min, s);
    text := Text(date);
    TextRoundTrip(date);
  }
}
