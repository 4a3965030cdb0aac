/**
 * `adjustDateToTargetMonth` of src/components/DataReplicator.tsx: a row's date moved to the
 * same day of the target month, both as intended (by calendar day) and as written (through
 * UTC parsing and local-time reading, which depends on the time zone).
 */
module ReplicatorDates {
  import opened Wrappers
  import opened JsText
  import opened JsNumber
  import opened Calendar
  import opened DateUtils

  /** `2000 + parseInt(targetYear)`, where a missing second field is `undefined` (NaN). */
  function TargetYear(parts: seq<string>): (n: Num)
    ensures |parts| < 2 ==> n == NaN
  {
    var v := if |parts| >= 2 then ParseInt(parts[1]) else NaN;
    if v.Finite? then Finite(2000.0 + v.v) else NaN
  }

  /**
   * `new Date(year, monthMap[abbr], day)` for the month index k of the abbreviation
   * (-1 when `monthMap` has no such key, i.e. `undefined`); None for an invalid date,
   * on which `toISOString` throws.
   */
  function MoveDate(day: int, year: Num, k: int): (r: Option<Date>)
    ensures r.Some? ==> ValidDate(r.value) && k >= 0
  {
    if k < 0 then None
    else
      match NewDate(year, Finite(k as real), Finite(day as real))
      case Invalid => None
      case At(d) => Some(d)
  }

  /** For a year 100..9999 and a known month the day is placed in that month, rolling over when too large. */
  lemma MoveDateOf(day: int, y: int, k: int)
    requires 100 <= y <= 9999 && 0 <= k < 12 && 1 <= day <= 31
    ensures MoveDate(day, Finite(y as real), k) == Some(Normalize(y, k, day))
  {
    NewDateFields(y, k, day);
  }

  /**
   * adjustDateToTargetMonth, by calendar day: day `original.day` of the target month
   * as ISO text; None where the source throws (unknown abbreviation, date out of range).
   */
  function AdjustDate(original: Date, target: string): (r: Option<string>)
    requires ValidDate(original)
    ensures r.Some? ==> MonthIndex(Split(target, '/')[0]) >= 0 && |r.value| >= 10
  {
    var parts := Split(target, '/');
    match MoveDate(original.day, TargetYear(parts), MonthIndex(parts[0]))
    case None => None
    case Some(d) => Some(IsoDateText(d))
  }

  /** The fields of a key `abbr/yy` with a two-digit year: the abbreviation and 2000 plus the digits' value. */
  lemma TargetFields(abbr: string, yy: string, y: int)
    requires '/' !in abbr && '/' !in yy && yy != [] && AllDigits(yy) && y == 2000 + DigitsValue(yy)
    ensures Split(abbr + "/" + yy, '/')[0] == abbr
    ensures TargetYear(Split(abbr + "/" + yy, '/')) == Finite(y as real)
  {
    SlashSplit(abbr, yy);
    ParseIntDigits(yy);
  }

  /** How the day lands in the month: day d counted from the start of month k + 1, that very day when it fits. */
  lemma NormalizedDay(y: int, k: int, d: int)
    requires 0 <= k < 12
    ensures DayNumber(Normalize(y, k, d)) == Days(y, k + 1, d)
    ensures 1 <= d <= DaysInMonth(y, k + 1) ==> Normalize(y, k, d) == Date(y, k + 1, d)
  {
    NormalizeDays(y, k, d);
    MakeDayOfMonth(y, k + 1, d);
  }

  /** Once the target's fields are read, the date is built from them. */
  lemma AdjustOfFields(original: Date, target: string, y: int, k: int)
    requires ValidDate(original) && 0 <= k < 12 && 2000 <= y <= 9999
    requires MonthIndex(Split(target, '/')[0]) == k && TargetYear(Split(target, '/')) == Finite(y as real)
    ensures AdjustDate(original, target) == Some(IsoDateText(Normalize(y, k, original.day)))
  {
    MoveDateOf(original.day, y, k);
  }

  /**
   * Moving a date to month `abbr/yy` keeps its day: the result is the date whose day number
   * is day `original.day` counted from the start of the target month, which is that very day
   * of the target month when the month is long enough.
   */
  lemma AdjustKeepsDay(original: Date, abbr: string, yy: string, y: int, m: int)
    requires ValidDate(original) && '/' !in abbr && '/' !in yy && yy != [] && AllDigits(yy)
    requires m == MonthIndex(abbr) + 1 && m >= 1 && y == 2000 + DigitsValue(yy) && y <= 9999
    ensures var r := Normalize(y, m - 1, original.day);
      AdjustDate(original, abbr + "/" + yy) == Some(IsoDateText(r))
      && DayNumber(r) == Days(y, m, original.day)
      && (original.day <= DaysInMonth(y, m) ==> r == Date(y, m, original.day))
  {
    TargetFields(abbr, yy, y);
    AdjustOfFields(original, abbr + "/" + yy, y, m - 1);
    NormalizedDay(y, m - 1, original.day);
  }

  /** A target whose first field is not one of the twelve abbreviations throws. */
  lemma AdjustUnknownMonth(original: Date, target: string)
    requires ValidDate(original) && MonthIndex(Split(target, '/')[0]) == -1
    ensures AdjustDate(original, target) == None
  {
  }

  /** `new Date(text).getDate()` in a zone `offset` minutes east of UTC: UTC midnight is the previous local day west of UTC. */
  function LocalDay(original: Date, offset: int): (day: int)
    requires ValidDate(original)
    ensures 1 <= day <= 31
    ensures offset >= 0 || original.day >= 2 ==> day == (if offset < 0 then original.day - 1 else original.day)
  {
    if offset < 0 then Normalize(original.year, original.month - 1, original.day - 1).day else original.day
  }

  /** `toISOString()` of a local midnight: the previous UTC day east of UTC. */
  function UtcDay(d: Date, offset: int): (r: Date)
    requires ValidDate(d)
    ensures ValidDate(r)
    ensures offset <= 0 ==> r == d
    ensures offset > 0 && d.day >= 2 ==> r == Date(d.year, d.month, d.day - 1)
  {
    if offset > 0 then Normalize(d.year, d.month - 1, d.day - 1) else d
  }

  /**
   * adjustDateToTargetMonth as written, for a time zone `offset` minutes east of UTC:
   * `new Date(text)` is UTC midnight, `getDate()` reads the local day, the new date is
   * local midnight, and `toISOString()` writes the UTC day.
   */
  function AdjustDateAsWritten(original: Date, target: string, offset: int): (r: Option<string>)
    requires ValidDate(original) && -1440 < offset < 1440
    ensures offset == 0 ==> r == AdjustDate(original, target)
  {
    var parts := Split(target, '/');
    match MoveDate(LocalDay(original, offset), TargetYear(parts), MonthIndex(parts[0]))
    case None => None
    case Some(d) => Some(IsoDateText(UtcDay(d, offset)))
  }

  /** Two different dates of years 0..9999 have different ISO texts. */
  lemma IsoDateTextInjective(a: Date, b: Date)
    requires ValidDate(a) && ValidDate(b) && 0 <= a.year <= 9999 && 0 <= b.year <= 9999 && a != b
    ensures IsoDateText(a) != IsoDateText(b)
  {
    IsoDateRoundTrip(a);
    IsoDateRoundTrip(b);
  }

  /** Outside UTC the code as written builds the day before the intended one. */
  lemma AsWrittenDate(original: Date, y: int, k: int, offset: int)
    requires ValidDate(original) && 2000 <= y <= 9999 && 0 <= k < 12 && offset != 0
    requires 2 <= original.day <= DaysInMonth(y, k + 1)
    ensures MoveDate(LocalDay(original, offset), Finite(y as real), k).Some?
    ensures UtcDay(MoveDate(LocalDay(original, offset), Finite(y as real), k).value, offset) == Date(y, k + 1, original.day - 1)
    ensures MoveDate(original.day, Finite(y as real), k) == Some(Date(y, k + 1, original.day))
  {
    MoveDateOf(original.day, y, k);
    if offset < 0 {
      WestDate(original, y, k, offset);
    } else {
      EastDate(original, y, k, offset);
    }
  }

  /** West of UTC the local day is one early and the ISO day is the local one. */
  lemma WestDate(original: Date, y: int, k: int, offset: int)
    requires ValidDate(original) && 2000 <= y <= 9999 && 0 <= k < 12 && offset < 0
    requires 2 <= original.day <= DaysInMonth(y, k + 1)
    ensures MoveDate(LocalDay(original, offset), Finite(y as real), k) == Some(Date(y, k + 1, original.day - 1))
    ensures UtcDay(Date(y, k + 1, original.day - 1), offset) == Date(y, k + 1, original.day - 1)
  {
    assert LocalDay(original, offset) == original.day - 1;
    MoveDateOf(original.day - 1, y, k);
  }

  /** East of UTC the local day is right and the ISO day is one early. */
  lemma EastDate(original: Date, y: int, k: int, offset: int)
    requires ValidDate(original) && 2000 <= y <= 9999 && 0 <= k < 12 && offset > 0
    requires 2 <= original.day <= DaysInMonth(y, k + 1)
    ensures MoveDate(LocalDay(original, offset), Finite(y as real), k) == Some(Date(y, k + 1, original.day))
    ensures UtcDay(Date(y, k + 1, original.day), offset) == Date(y, k + 1, original.day - 1)
  {
    MoveDateOf(original.day, y, k);
  }

  /**
   * In any zone other than UTC the code as written moves a date to the day before the
   * intended one.
   */
  lemma AsWrittenDayEarly(original: Date, abbr: string, yy: string, y: int, m: int, offset: int)
    requires ValidDate(original) && '/' !in abbr && '/' !in yy && yy != [] && AllDigits(yy)
    requires m == MonthIndex(abbr) + 1 && m >= 1 && y == 2000 + DigitsValue(yy) && y <= 9999
    requires offset != 0 && -1440 < offset < 1440 && 2 <= original.day <= DaysInMonth(y, m)
    ensures AdjustDateAsWritten(original, abbr + "/" + yy, offset) == Some(IsoDateText(Date(y, m, original.day - 1)))
    ensures AdjustDate(original, abbr + "/" + yy) == Some(IsoDateText(Date(y, m, original.day)))
    ensures AdjustDateAsWritten(original, abbr + "/" + yy, offset) != AdjustDate(original, abbr + "/" + yy)
  {
    TargetFields(abbr, yy, y);
    AsWrittenOfFields(original, abbr + "/" + yy, y, m - 1, offset);
    IsoDateTextInjective(Date(y, m, original.day - 1), Date(y, m, original.day));
  }

  /** Once the target's fields are read, both versions build their dates from them. */
  lemma AsWrittenOfFields(original: Date, target: string, y: int, k: int, offset: int)
    requires ValidDate(original) && 0 <= k < 12 && 2000 <= y <= 9999
    requires offset != 0 && -1440 < offset < 1440 && 2 <= original.day <= DaysInMonth(y, k + 1)
    requires MonthIndex(Split(target, '/')[0]) == k && TargetYear(Split(target, '/')) == Finite(y as real)
    ensures AdjustDateAsWritten(original, target, offset) == Some(IsoDateText(Date(y, k + 1, original.day - 1)))
    ensures AdjustDate(original, target) == Some(IsoDateText(Date(y, k + 1, original.day)))
  {
    AsWrittenDate(original, y, k, offset);
  }

  /** The key of a month of 2000..2099 splits into its abbreviation and two digits. */
  lemma MonthRefFields(y: int, m: int)
    requires 2000 <= y <= 2099 && 1 <= m <= 12
    ensures var yy := Pad2(YearSuffix(y));
      MonthRef(y, m) == Months[m - 1] + "/" + yy
      && '/' !in Months[m - 1] && MonthIndex(Months[m - 1]) == m - 1
      && '/' !in yy && yy != [] && AllDigits(yy) && y == 2000 + DigitsValue(yy)
  {
    var yy := Pad2(YearSuffix(y));
    assert '/' !in yy by {
      forall i | 0 <= i < |yy| ensures yy[i] != '/' { assert IsDigit(yy[i]); }
    }
    MonthsUpper(m - 1);
  }

  /** Moving a date to the key of a month of 2000..2099 keeps its day, rolling over as `Date` does. */
  lemma AdjustToMonthRef(original: Date, y: int, m: int)
    requires ValidDate(original) && 2000 <= y <= 2099 && 1 <= m <= 12
    ensures var r := Normalize(y, m - 1, original.day);
      AdjustDate(original, MonthRef(y, m)) == Some(IsoDateText(r))
      && DayNumber(r) == Days(y, m, original.day)
      && (original.day <= DaysInMonth(y, m) ==> r == Date(y, m, original.day))
  {
    MonthRefFields(y, m);
    AdjustKeepsDay(original, Months[m - 1], Pad2(YearSuffix(y)), y, m);
  }

  /** With the keys the application writes, the code as written is one day early outside UTC. */
  lemma AsWrittenMonthRef(original: Date, y: int, m: int, offset: int)
    requires ValidDate(original) && 2000 <= y <= 2099 && 1 <= m <= 12
    requires offset != 0 && -1440 < offset < 1440 && 2 <= original.day <= DaysInMonth(y, m)
    ensures AdjustDateAsWritten(original, MonthRef(y, m), offset) == Some(IsoDateText(Date(y, m, original.day - 1)))
    ensures AdjustDate(original, MonthRef(y, m)) == Some(IsoDateText(Date(y, m, original.day)))
  {
    MonthRefFields(y, m);
    AsWrittenDayEarly(original, Months[m - 1], Pad2(YearSuffix(y)), y, m, offset);
  }

  /** The 15th of March 2024 moved to `ABR/24` in UTC-3 (offset -180) comes out as the 14th of April. */
  lemma AsWrittenCounterexample()
    ensures AdjustDateAsWritten(Date(2024, 3, 15), MonthRef(2024, 4), -180) == Some(IsoDateText(Date(2024, 4, 14)))
    ensures AdjustDate(Date(2024, 3, 15), MonthRef(2024, 4)) == Some(IsoDateText(Date(2024, 4, 15)))
  {
    AsWrittenMonthRef(Date(2024, 3, 15), 2024, 4, -180);
  }

  /** The key of April 2024. */
  lemma AprilKey()
    ensures MonthRef(2024, 4) == "ABR/24"
  {
    assert YearSuffix(2024) == 24;
    assert Pad2(24) == [DigitChar(2), DigitChar(4)];
  }
}
