/** Period keys: the wall-clock hour, formatted `yyyy-MM-dd-HH`, that names
    one aggregation window, and the `yyyy/MM/dd/HH` folder used for report
    keys. The clock reading is a calendar hour of the proleptic Gregorian
    calendar, supplied by the caller. */
module PeriodKeys {
  import opened Outcomes
  import opened Text

  datatype DateHour = DateHour(year: int, month: int, day: int, hour: int)

  predicate IsLeapYear(y: int)
  {
    y % 4 == 0 && (y % 100 != 0 || y % 400 == 0)
  }

  function DaysInMonth(y: int, m: int): (n: int)
    requires 1 <= m <= 12
    ensures 28 <= n <= 31
  {
    if m == 2 then (if IsLeapYear(y) then 29 else 28)
    else if m == 4 || m == 6 || m == 9 || m == 11 then 30
    else 31
  }

  predicate Valid(d: DateHour)
  {
    1 <= d.month <= 12 && 1 <= d.day <= DaysInMonth(d.year, d.month) && 0 <= d.hour <= 23
  }

  /** The hour before `d` (LocalDateTime.minusHours(1)). */
  function Previous(d: DateHour): (r: DateHour)
    requires Valid(d)
    ensures Valid(r)
  {
    if d.hour > 0 then d.(hour := d.hour - 1)
    else if d.day > 1 then d.(day := d.day - 1, hour := 23)
    else if d.month > 1 then DateHour(d.year, d.month - 1, DaysInMonth(d.year, d.month - 1), 23)
    else DateHour(d.year - 1, 12, 31, 23)
  }

  /** The hour after `d` (LocalDateTime.plusHours(1)). */
  function Next(d: DateHour): (r: DateHour)
    requires Valid(d)
    ensures Valid(r)
  {
    if d.hour < 23 then d.(hour := d.hour + 1)
    else if d.day < DaysInMonth(d.year, d.month) then d.(day := d.day + 1, hour := 0)
    else if d.month < 12 then DateHour(d.year, d.month + 1, 1, 0)
    else DateHour(d.year + 1, 1, 1, 0)
  }

  /** Previous and Next undo each other. */
  lemma PreviousNextInverse(d: DateHour)
    requires Valid(d)
    ensures Next(Previous(d)) == d
    ensures Previous(Next(d)) == d
  {
  }

  /** Days from 0001-01-01 to the first day of year `y` (floor division, so
      it holds for every year of the proleptic calendar). */
  function DaysBeforeYear(y: int): int
  {
    365 * (y - 1) + (y - 1) / 4 - (y - 1) / 100 + (y - 1) / 400
  }

  /** Days from the first of January of year `y` to the first of month `m`. */
  function DaysBeforeMonth(y: int, m: int): int
    requires 1 <= m <= 12
  {
    var before := [0, 31, 59, 90, 120, 151, 181, 212, 243, 273, 304, 334];
    before[m - 1] + (if m > 2 && IsLeapYear(y) then 1 else 0)
  }

  /** Hours since 0001-01-01T00: the position of an hour on the time line. */
  function HourIndex(d: DateHour): int
    requires Valid(d)
  {
    24 * (DaysBeforeYear(d.year) + DaysBeforeMonth(d.year, d.month) + d.day - 1) + d.hour
  }

  /** A year has 365 days, 366 in a leap year. */
  lemma YearLength(y: int)
    ensures DaysBeforeYear(y + 1) - DaysBeforeYear(y) == DaysBeforeMonth(y, 12) + 31
  {
    assert y / 4 - (y - 1) / 4 == if y % 4 == 0 then 1 else 0;
    assert y / 100 - (y - 1) / 100 == if y % 100 == 0 then 1 else 0;
    assert y / 400 - (y - 1) / 400 == if y % 400 == 0 then 1 else 0;
    assert y % 400 == 0 ==> y % 100 == 0;
    assert y % 100 == 0 ==> y % 4 == 0;
  }

  lemma MonthLength(y: int, m: int)
    requires 1 < m <= 12
    ensures DaysBeforeMonth(y, m) - DaysBeforeMonth(y, m - 1) == DaysInMonth(y, m - 1)
  {
  }

  /** The previous period is exactly one hour before. */
  lemma PreviousIsOneHourEarlier(d: DateHour)
    requires Valid(d)
    ensures HourIndex(Previous(d)) == HourIndex(d) - 1
  {
    if d.hour == 0 && d.day == 1 {
      if d.month == 1 {
        YearLength(d.year - 1);
      } else {
        MonthLength(d.year, d.month);
      }
    }
  }

  // ----- Formatting -----

  function Pad2(n: nat): (r: string)
    requires n < 100
    ensures |r| == 2 && AllDigits(r)
  {
    [Digit(n / 10), Digit(n % 10)]
  }

  function Pad4(n: nat): (r: string)
    requires n < 10000
    ensures |r| == 4 && AllDigits(r)
  {
    Pad2(n / 100) + Pad2(n % 100)
  }

  /** Years that the four-digit pattern `yyyy` prints without a sign. */
  predicate Printable(d: DateHour)
  {
    Valid(d) && 1 <= d.year <= 9999
  }

  /** The hour written `yyyy`, `MM`, `dd`, `HH` with `sep` between the
      fields: 13 characters, the separator at positions 4, 7 and 10. */
  function HourStamp(d: DateHour, sep: char): (r: string)
    requires Printable(d)
    ensures |r| == 13 && r[4] == sep && r[7] == sep && r[10] == sep
    ensures r[0..4] == Pad4(d.year) && r[5..7] == Pad2(d.month) && r[8..10] == Pad2(d.day) && r[11..13] == Pad2(d.hour)
  {
    Pad4(d.year) + [sep] + Pad2(d.month) + [sep] + Pad2(d.day) + [sep] + Pad2(d.hour)
  }

  /** The period key `yyyy-MM-dd-HH`. */
  function PeriodKey(d: DateHour): string
    requires Printable(d)
  {
    HourStamp(d, '-')
  }

  /** The report folder `yyyy/MM/dd/HH`. */
  function FolderKey(d: DateHour): string
    requires Printable(d)
  {
    HourStamp(d, '/')
  }

  function Value2(s: string): nat
    requires |s| == 2 && AllDigits(s)
  {
    10 * DigitValue(s[0]) + DigitValue(s[1])
  }

  function Value4(s: string): nat
    requires |s| == 4 && AllDigits(s)
  {
    100 * Value2(s[0..2]) + Value2(s[2..4])
  }

  /** Reads a period key back into its hour. */
  function ParsePeriodKey(s: string): Option<DateHour>
  {
    if |s| == 13 && s[4] == '-' && s[7] == '-' && s[10] == '-'
       && AllDigits(s[0..4]) && AllDigits(s[5..7]) && AllDigits(s[8..10]) && AllDigits(s[11..13])
    then
      var d := DateHour(Value4(s[0..4]), Value2(s[5..7]), Value2(s[8..10]), Value2(s[11..13]));
      if Printable(d) then Some(d) else None
    else None
  }

  lemma Pad2RoundTrip(n: nat)
    requires n < 100
    ensures Value2(Pad2(n)) == n
  {
    assert 10 * (n / 10) + n % 10 == n;
  }

  lemma Pad4RoundTrip(n: nat)
    requires n < 10000
    ensures Value4(Pad4(n)) == n
  {
    var s := Pad4(n);
    assert s[0..2] == Pad2(n / 100) && s[2..4] == Pad2(n % 100);
    Pad2RoundTrip(n / 100);
    Pad2RoundTrip(n % 100);
  }

  /** Formatting then parsing gives the hour back. */
  lemma PeriodKeyRoundTrip(d: DateHour)
    requires Printable(d)
    ensures ParsePeriodKey(PeriodKey(d)) == Some(d)
  {
    Pad4RoundTrip(d.year);
    Pad2RoundTrip(d.month);
    Pad2RoundTrip(d.day);
    Pad2RoundTrip(d.hour);
  }

  /** Distinct hours have distinct period keys. */
  lemma PeriodKeyInjective(d: DateHour, e: DateHour)
    requires Printable(d) && Printable(e) && PeriodKey(d) == PeriodKey(e)
    ensures d == e
  {
    PeriodKeyRoundTrip(d);
    PeriodKeyRoundTrip(e);
  }
}
