/**
 * The proleptic Gregorian calendar and the parts of JavaScript's `Date` that the
 * application uses: the local-time constructor `new Date(y, m, d)` (years 0-99 mapped
 * to 1900-1999, months and days that overflow in either direction, the time-value
 * range of +-8.64e15 ms), `setDate`, the date part of `toISOString` and the strict
 * `YYYY-MM-DD` form accepted by `new Date(text)`.
 * Dates are calendar tuples; the local time zone is taken as one where local midnight
 * and UTC midnight fall on the same calendar day.
 */
module Calendar {
  import opened Wrappers
  import opened JsText
  import opened JsNumber

  /** A calendar date; `month` is 1-based. */
  datatype Date = Date(year: int, month: int, day: int)

  /** A JavaScript `Date`: an invalid date (time value NaN) or a calendar day. */
  datatype DateValue = Invalid | At(date: Date)

  predicate IsLeap(y: int) {
    y % 4 == 0 && (y % 100 != 0 || y % 400 == 0)
  }

  function DaysInMonth(y: int, m: int): (n: int)
    requires 1 <= m <= 12
    ensures 28 <= n <= 31
    ensures n == 29 <==> m == 2 && IsLeap(y)
  {
    if m == 2 then (if IsLeap(y) then 29 else 28)
    else if m == 4 || m == 6 || m == 9 || m == 11 then 30
    else 31
  }

  predicate ValidDate(d: Date) {
    1 <= d.month <= 12 && 1 <= d.day <= DaysInMonth(d.year, d.month)
  }

  /** Days from 1 January of year y to the first day of month m. */
  function DaysBeforeMonth(y: int, m: int): (n: int)
    requires 1 <= m <= 12
    ensures 0 <= n <= 335
  {
    var base :=
      if m == 1 then 0 else if m == 2 then 31 else if m == 3 then 59
      else if m == 4 then 90 else if m == 5 then 120 else if m == 6 then 151
      else if m == 7 then 181 else if m == 8 then 212 else if m == 9 then 243
      else if m == 10 then 273 else if m == 11 then 304 else 334;
    if m > 2 && IsLeap(y) then base + 1 else base
  }

  /** DayFromYear of ECMAScript: days from 1970-01-01 to 1 January of year y. */
  function DayFromYear(y: int): int {
    365 * (y - 1970) + LeapDaysBefore(y)
  }

  /** The leap days between 1970 and year y (negative before 1970). */
  function LeapDaysBefore(y: int): int {
    (y - 1969) / 4 - (y - 1901) / 100 + (y - 1601) / 400
  }

  /** The day number (days since 1970-01-01) of day d of month m of year y, d unrestricted. */
  function Days(y: int, m: int, d: int): int
    requires 1 <= m <= 12
  {
    DayFromYear(y) + DaysBeforeMonth(y, m) + d - 1
  }

  /** MakeDay of ECMAScript, with a 0-based month that may lie outside 0..11. */
  function MakeDay(y: int, m0: int, d: int): int {
    Days(y + m0 / 12, m0 % 12 + 1, d)
  }

  /** For a month 1..12 no carry happens. */
  lemma MakeDayOfMonth(y: int, m: int, d: int)
    requires 1 <= m <= 12
    ensures MakeDay(y, m - 1, d) == Days(y, m, d)
  {
    assert (m - 1) / 12 == 0 && (m - 1) % 12 == m - 1;
  }

  lemma DaysShift(y: int, m: int, d: int, k: int)
    requires 1 <= m <= 12
    ensures Days(y, m, d + k) == Days(y, m, d) + k
  {
  }

  function DayNumber(date: Date): int
    requires 1 <= date.month <= 12
  {
    Days(date.year, date.month, date.day)
  }

  /** Walks a day past the end of its month forward into the right month. */
  function NormalizeUp(y: int, m: int, d: int): (r: Date)
    requires 1 <= m <= 12 && d >= 1
    ensures ValidDate(r)
    ensures d <= DaysInMonth(y, m) ==> r == Date(y, m, d)
    decreases d
  {
    if d <= DaysInMonth(y, m) then Date(y, m, d)
    else if m == 12 then NormalizeUp(y + 1, 1, d - 31)
    else NormalizeUp(y, m + 1, d - DaysInMonth(y, m))
  }

  /** Walks a day before the start of its month back into the right month. */
  function NormalizeDown(y: int, m: int, d: int): (r: Date)
    requires 1 <= m <= 12 && d <= DaysInMonth(y, m)
    ensures ValidDate(r)
    ensures d >= 1 ==> r == Date(y, m, d)
    decreases 1 - d
  {
    if d >= 1 then Date(y, m, d)
    else if m == 1 then NormalizeDown(y - 1, 12, d + 31)
    else NormalizeDown(y, m - 1, d + DaysInMonth(y, m - 1))
  }

  /**
   * The calendar date that `new Date(y, m0, d)` denotes: month overflow carried into
   * the year, day overflow carried into neighbouring months.
   */
  function Normalize(y: int, m0: int, d: int): (r: Date)
    ensures ValidDate(r)
    ensures 0 <= m0 <= 11 && 1 <= d <= DaysInMonth(y, m0 + 1) ==> r == Date(y, m0 + 1, d)
    ensures 1 <= d <= 28 ==> r == Date(y + m0 / 12, m0 % 12 + 1, d)
  {
    var ym := y + m0 / 12;
    var mn := m0 % 12 + 1;
    if d >= 1 then NormalizeUp(ym, mn, d) else NormalizeDown(ym, mn, d)
  }

  lemma StepBy4(y: int)
    ensures (y - 1968) / 4 - (y - 1969) / 4 == (if y % 4 == 0 then 1 else 0)
  {
  }

  lemma StepBy100(y: int)
    ensures (y - 1900) / 100 - (y - 1901) / 100 == (if y % 100 == 0 then 1 else 0)
  {
  }

  lemma StepBy400(y: int)
    ensures (y - 1600) / 400 - (y - 1601) / 400 == (if y % 400 == 0 then 1 else 0)
  {
  }

  lemma LeapStep(y: int)
    ensures LeapDaysBefore(y + 1) == LeapDaysBefore(y) + (if IsLeap(y) then 1 else 0)
  {
    StepBy4(y);
    StepBy100(y);
    StepBy400(y);
  }

  /** A year has 366 days when it is a leap year and 365 otherwise. */
  lemma YearLength(y: int)
    ensures DayFromYear(y + 1) == DayFromYear(y) + (if IsLeap(y) then 366 else 365)
  {
    LeapStep(y);
  }

  lemma MonthStep(y: int, m: int)
    requires 1 <= m <= 12
    ensures m < 12 ==> DaysBeforeMonth(y, m + 1) == DaysBeforeMonth(y, m) + DaysInMonth(y, m)
    ensures m == 12 ==> DayFromYear(y + 1) == DayFromYear(y) + DaysBeforeMonth(y, 12) + 31
  {
    if m == 12 {
      YearLength(y);
    }
  }

  /** Day d + (length of month m) of month m is day d of the following month. */
  lemma DaysStep(y: int, m: int, d: int)
    requires 1 <= m <= 12
    ensures m < 12 ==> Days(y, m + 1, d) == Days(y, m, d + DaysInMonth(y, m))
    ensures m == 12 ==> Days(y + 1, 1, d) == Days(y, 12, d + 31)
  {
    MonthStep(y, m);
  }

  lemma {:induction false} NormalizeUpDays(y: int, m: int, d: int)
    requires 1 <= m <= 12 && d >= 1
    ensures DayNumber(NormalizeUp(y, m, d)) == Days(y, m, d)
    decreases d
  {
    if d > DaysInMonth(y, m) {
      if m == 12 {
        DaysStep(y, 12, d - 31);
        NormalizeUpDays(y + 1, 1, d - 31);
      } else {
        var n := DaysInMonth(y, m);
        DaysStep(y, m, d - n);
        NormalizeUpDays(y, m + 1, d - n);
      }
    }
  }

  lemma {:induction false} NormalizeDownDays(y: int, m: int, d: int)
    requires 1 <= m <= 12 && d <= DaysInMonth(y, m)
    ensures DayNumber(NormalizeDown(y, m, d)) == Days(y, m, d)
    decreases 1 - d
  {
    if d < 1 {
      if m == 1 {
        DaysStep(y - 1, 12, d);
        NormalizeDownDays(y - 1, 12, d + 31);
      } else {
        var n := DaysInMonth(y, m - 1);
        DaysStep(y, m - 1, d);
        NormalizeDownDays(y, m - 1, d + n);
      }
    }
  }

  /** The normalised date is the day that MakeDay counts: the carry keeps the day number. */
  lemma NormalizeDays(y: int, m0: int, d: int)
    ensures DayNumber(Normalize(y, m0, d)) == MakeDay(y, m0, d)
  {
    if d >= 1 {
      NormalizeUpDays(y + m0 / 12, m0 % 12 + 1, d);
    } else {
      NormalizeDownDays(y + m0 / 12, m0 % 12 + 1, d);
    }
  }

  /** The time value of a local midnight lies within +-8.64e15 ms, i.e. +-10^8 days. */
  const MaxDays: int := 100000000

  predicate InTimeRange(day: int) {
    -MaxDays <= day <= MaxDays
  }

  /** A local-time date from integer fields, with no year mapping (as `setDate` rebuilds it). */
  function MakeLocal(y: int, m0: int, d: int): (r: DateValue)
    ensures r.At? <==> InTimeRange(MakeDay(y, m0, d))
    ensures r.At? ==> ValidDate(r.date) && DayNumber(r.date) == MakeDay(y, m0, d)
  {
    NormalizeDays(y, m0, d);
    if InTimeRange(MakeDay(y, m0, d)) then At(Normalize(y, m0, d)) else Invalid
  }

  /** The year the `Date` constructor uses: integral parts 0..99 denote 1900..1999. */
  function ConstructorYear(y: int): (yr: int)
    ensures 0 <= y <= 99 ==> yr == 1900 + y
    ensures !(0 <= y <= 99) ==> yr == y
  {
    if 0 <= y <= 99 then 1900 + y else y
  }

  /** `new Date(y, m, d)` in local time, for number arguments (fractions truncated). */
  function NewDate(y: Num, m: Num, d: Num): (r: DateValue)
    ensures y.NaN? || m.NaN? || d.NaN? ==> r == Invalid
    ensures r.At? ==> ValidDate(r.date)
  {
    if y.NaN? || m.NaN? || d.NaN? then Invalid
    else MakeLocal(ConstructorYear(Trunc(y.v)), Trunc(m.v), Trunc(d.v))
  }

  /** `new Date(y, m0, d)` for integer arguments. */
  function NewDateInt(y: int, m0: int, d: int): (r: DateValue)
    ensures r.At? ==> ValidDate(r.date)
  {
    NewDate(Finite(y as real), Finite(m0 as real), Finite(d as real))
  }

  /**
   * `new Date(y, m - 1, d)` for a year 0..9999 builds the date in year ConstructorYear(y)
   * unchanged when that date is valid.
   */
  lemma NewDateOfValid(y: int, m: int, d: int)
    requires 0 <= y <= 9999 && ValidDate(Date(ConstructorYear(y), m, d))
    ensures NewDateInt(y, m - 1, d) == At(Date(ConstructorYear(y), m, d))
  {
    var m0 := m - 1;
    assert Trunc(y as real) == y;
    assert Trunc(m0 as real) == m0;
    assert Trunc(d as real) == d;
    assert m0 / 12 == 0 && m0 % 12 == m0;
    assert InTimeRange(MakeDay(ConstructorYear(y), m0, d));
  }

  /** `new Date(y, m0, d)` with a year 100..9999, a month offset within a year back or two ahead and a day 1..31 lands on the normalised date. */
  lemma NewDateFields(y: int, m0: int, d: int)
    requires 100 <= y <= 9999 && -12 <= m0 <= 23 && 1 <= d <= 31
    ensures NewDateInt(y, m0, d) == At(Normalize(y, m0, d))
  {
    assert Trunc(y as real) == y && Trunc(m0 as real) == m0 && Trunc(d as real) == d;
    assert InTimeRange(MakeDay(y, m0, d));
  }

  /** The first day of the month i months before month m of year y. */
  function MonthsBack(y: int, m: int, i: int): (r: Date)
    requires 1 <= m <= 12
    ensures ValidDate(r) && r.day == 1
    ensures r.year * 12 + r.month == y * 12 + m - i
    ensures i == 0 ==> r == Date(y, m, 1)
  {
    Date(y + (m - 1 - i) / 12, (m - 1 - i) % 12 + 1, 1)
  }

  /** `new Date(y, m - 1 - i, 1)`: the first day of the month i months before. */
  lemma NewDateMonthsBack(y: int, m: int, i: int)
    requires 1970 <= y <= 9999 && 1 <= m <= 12 && 0 <= i < 12
    ensures NewDateInt(y, m - 1 - i, 1) == At(MonthsBack(y, m, i))
  {
    LocalDateIsNewDate(y, m - 1 - i, 1);
    assert MonthsBack(y, m, i) == LocalDate(y, m - 1 - i, 1);
  }

  /**
   * `new Date(y, m0, d)` for a year 100..9999, a month offset a year back to two years ahead
   * and a day 1..28: always the date of day d, with the month offset carried into the year.
   */
  function LocalDate(y: int, m0: int, d: int): (r: Date)
    requires 100 <= y <= 9999 && -12 <= m0 <= 23 && 1 <= d <= 28
    ensures ValidDate(r) && r.day == d && r.year * 12 + r.month == y * 12 + m0 + 1
    ensures 0 <= m0 <= 11 ==> r == Date(y, m0 + 1, d)
  {
    Date(y + m0 / 12, m0 % 12 + 1, d)
  }

  lemma LocalDateIsNewDate(y: int, m0: int, d: int)
    requires 100 <= y <= 9999 && -12 <= m0 <= 23 && 1 <= d <= 28
    ensures NewDateInt(y, m0, d) == At(LocalDate(y, m0, d))
  {
    NewDateFields(y, m0, d);
  }

  /** `date.setDate(date.getDate() + k)`: k days later, if still in range. */
  function AddDays(date: Date, k: int): (r: DateValue)
    requires ValidDate(date)
    ensures r.At? ==> ValidDate(r.date) && DayNumber(r.date) == DayNumber(date) + k
  {
    ShiftedDay(date, k);
    MakeLocal(date.year, date.month - 1, date.day + k)
  }

  /** A month's worth of days after a date of year 100..9999 is still a date. */
  lemma AddDaysDefined(date: Date, k: int)
    requires ValidDate(date) && 100 <= date.year <= 9999 && 0 <= k <= 31
    ensures AddDays(date, k).At?
  {
    ShiftedDay(date, k);
    DayNumberBounds(date);
  }

  /** Dates of years 100..9999 lie well inside the time range. */
  lemma DayNumberBounds(date: Date)
    requires ValidDate(date) && 100 <= date.year <= 9999
    ensures -1000000 <= DayNumber(date) <= 3000000
  {
  }

  /** Day d + k of month m counts k days past day d, whatever the carry. */
  lemma ShiftedDay(date: Date, k: int)
    requires ValidDate(date)
    ensures MakeDay(date.year, date.month - 1, date.day + k) == DayNumber(date) + k
  {
    MakeDayOfMonth(date.year, date.month, date.day + k);
    DaysShift(date.year, date.month, date.day, k);
  }

  /** The four-digit year of an ISO string, or the six-digit signed form outside 0..9999. */
  function IsoYear(y: int): (s: string)
    ensures |s| >= 4
    ensures 0 <= y <= 9999 ==> |s| == 4 && AllDigits(s) && DigitsValue(s) == y
  {
    if 0 <= y <= 9999 then
      NatToStringShort(y, 4);
      PadStartZerosValue(NatToString(y), 4);
      NatToStringValue(y);
      PadStart(NatToString(y), 4, '0')
    else (if y < 0 then "-" else "+") + PadStart(NatToString(if y < 0 then -y else y), 6, '0')
  }

  /** Years 1000..9999 need no padding. */
  lemma IsoYearFourDigits(y: int)
    requires 1000 <= y <= 9999
    ensures IsoYear(y) == IntToString(y)
  {
    assert TenPow(3) == 1000 && TenPow(4) == 10000;
    NatToStringShort(y, 4);
    NatToStringLong(y, 4);
  }

  /** A date that exists in the calendar. */
  type CalendarDate = d: Date | ValidDate(d) witness Date(1970, 1, 1)

  /** `date.toISOString().split('T')[0]`: `YYYY-MM-DD`. */
  function IsoDateText(date: Date): (s: string)
    requires ValidDate(date)
    ensures |s| >= 10
  {
    IsoYear(date.year) + "-" + Pad2(date.month) + "-" + Pad2(date.day)
  }

  /** The ISO text of the first day of a month ends in "-01". */
  lemma IsoFirstDay(y: int, m: int)
    requires 1 <= m <= 12
    ensures IsoDateText(Date(y, m, 1)) == IsoYear(y) + "-" + Pad2(m) + "-01"
  {
  }

  /** The shape `^\d{4}-\d{2}-\d{2}$`. */
  predicate IsIsoDateShape(s: string) {
    |s| == 10 && s[4] == '-' && s[7] == '-'
    && AllDigits(s[0..4]) && AllDigits(s[5..7]) && AllDigits(s[8..10])
  }

  /** `new Date(text)` on a date-only ISO string: the date if its fields are in range. */
  function ParseIsoDate(s: string): (r: Option<Date>)
    ensures r.Some? ==> IsIsoDateShape(s) && ValidDate(r.value) && 0 <= r.value.year <= 9999
  {
    if !IsIsoDateShape(s) then None
    else
      var date := Date(DigitsValue(s[0..4]), DigitsValue(s[5..7]), DigitsValue(s[8..10]));
      if ValidDate(date) && date.year <= 9999 then Some(date) else None
  }

  lemma IsoParts(a: string, b: string, c: string)
    requires |a| == 4 && |b| == 2 && |c| == 2
    ensures var s := a + "-" + b + "-" + c;
      |s| == 10 && s[4] == '-' && s[7] == '-' && s[0..4] == a && s[5..7] == b && s[8..10] == c
  {
  }

  lemma IsoDateRoundTrip(date: Date)
    requires ValidDate(date) && 0 <= date.year <= 9999
    ensures IsIsoDateShape(IsoDateText(date))
    ensures ParseIsoDate(IsoDateText(date)) == Some(date)
  {
    IsoParts(IsoYear(date.year), Pad2(date.month), Pad2(date.day));
  }

  const MsPerDay: int := 86400000

  /** `new Date(text).getTime()` for a date-only text: UTC midnight of an ISO date, None for NaN. */
  function DateOnlyTime(text: string): (t: Option<int>)
    ensures t.Some? <==> ParseIsoDate(text).Some?
    ensures t.Some? ==> t.value == DayNumber(ParseIsoDate(text).value) * MsPerDay
  {
    match ParseIsoDate(text)
    case None => None
    case Some(date) => Some(DayNumber(date) * MsPerDay)
  }

  /** Month and day order: is a strictly before b? */
  predicate Before(a: Date, b: Date) {
    a.year < b.year || (a.year == b.year && (a.month < b.month || (a.month == b.month && a.day < b.day)))
  }
}
