/**
 * The month-reference key of the application, `MMM/YY` with Portuguese month
 * abbreviations (e.g. `SET/25`), and its two conversions (src/utils/dateUtils.ts):
 * from an ISO date `YYYY-MM-DD` to the key, and from the key back to the first day
 * of that month.
 */
module DateUtils {
  import opened Wrappers
  import opened JsText
  import opened JsNumber
  import opened Calendar

  const Months: seq<string> :=
    ["JAN", "FEV", "MAR", "ABR", "MAI", "JUN", "JUL", "AGO", "SET", "OUT", "NOV", "DEZ"]

  /** The last two decimal digits of a year, as a number 0..99. */
  function YearSuffix(y: int): (r: nat)
    ensures r < 100
    ensures 2000 <= y <= 2099 ==> r == y - 2000
  {
    y % 100
  }

  /** The key of month m (1-based) of year y: abbreviation, '/', last two digits of the year. */
  function MonthRef(y: int, m: int): (key: string)
    requires 1 <= m <= 12
    ensures |key| == 6 && key[3] == '/' && key[..3] == Months[m - 1]
  {
    MonthsShape(m - 1);
    Months[m - 1] + "/" + Pad2(YearSuffix(y))
  }

  lemma MonthsShape(k: nat)
    requires k < 12
    ensures |Months[k]| == 3
    ensures forall i :: 0 <= i < 3 ==> 'A' <= Months[k][i] <= 'Z'
  {
  }

  /** `s.slice(-2)`. */
  function LastTwo(s: string): (r: string)
    ensures |r| == if |s| < 2 then |s| else 2
    ensures r == s[|s| - |r|..]
  {
    if |s| < 2 then s else s[|s| - 2..]
  }

  /** Position of `abbr` among the twelve abbreviations (`indexOf`), -1 when absent. */
  function MonthIndex(abbr: string): (k: int)
    ensures -1 <= k < 12
    ensures k >= 0 ==> Months[k] == abbr
    ensures k == -1 <==> abbr !in Months
  {
    IndexFrom(abbr, 0)
  }

  function IndexFrom(abbr: string, i: nat): (k: int)
    requires i <= 12
    ensures k == -1 || i <= k < 12
    ensures k >= 0 ==> Months[k] == abbr && abbr !in Months[i..k]
    ensures k == -1 <==> abbr !in Months[i..]
    decreases 12 - i
  {
    if i == 12 then -1
    else if Months[i] == abbr then i
    else
      assert Months[i..] == [Months[i]] + Months[i + 1..];
      IndexFrom(abbr, i + 1)
  }

  /** The field `k` of `parts` as `Number` reads it; a missing field is `undefined`, i.e. NaN. */
  function FieldNumber(parts: seq<string>, k: nat): (n: Num)
    ensures k >= |parts| ==> n == NaN
  {
    if k < |parts| then ToNumber(parts[k]) else NaN
  }

  /** The key a `Date` renders to: an invalid date reads "undefined/aN". */
  function KeyOfDate(v: DateValue): (key: string)
    requires v.At? ==> ValidDate(v.date)
  {
    match v
    case Invalid => "undefined/aN"
    case At(dt) => MonthsShape(dt.month - 1); Months[dt.month - 1] + "/" + LastTwo(IntToString(dt.year))
  }

  /**
   * formatDateToMonthRef: "" for "", otherwise the key of the local date
   * `new Date(year, month - 1, day)` built from the '-'-separated fields.
   */
  function FormatDateToMonthRef(s: string): (r: string)
    ensures s == [] <==> r == []
  {
    if s == [] then ""
    else
      var parts := Split(s, '-');
      KeyOfDate(NewDate(FieldNumber(parts, 0), Sub(FieldNumber(parts, 1), Finite(1.0)), FieldNumber(parts, 2)))
  }

  /** The text of `parseInt(year) + 2000`. */
  function FullYearText(yearText: string): (r: string)
    ensures r != []
  {
    match IntegerPrefix(TrimStart(yearText))
    case None => "NaN"
    case Some(v) => IntToString(v + 2000)
  }

  /**
   * parseMonthRefToDate: "" unless the key has a '/' and a known abbreviation
   * (matched after upper-casing), otherwise `${2000 + YY}-${MM}-01`.
   */
  function ParseMonthRefToDate(key: string): (r: string)
    ensures r == [] <==> key == [] || '/' !in key || MonthIndex(ToUpper(Split(key, '/')[0])) == -1
  {
    if key == [] || '/' !in key then ""
    else
      var parts := Split(key, '/');
      var k := MonthIndex(ToUpper(parts[0]));
      if k == -1 then ""
      else FullYearText(parts[1]) + "-" + Pad2(k + 1) + "-01"
  }

  /** The last two characters of the decimal text of y >= 10 are the two-digit y mod 100. */
  lemma LastTwoDigits(y: int)
    requires y >= 10
    ensures LastTwo(IntToString(y)) == Pad2(YearSuffix(y))
  {
    NatToStringLastTwo(y);
    SuffixDigits(y);
  }

  /** The tens and units digits of y are those of its last two digits. */
  lemma SuffixDigits(y: nat)
    ensures (y / 10) % 10 == YearSuffix(y) / 10 && y % 10 == YearSuffix(y) % 10
  {
    var q, r := y / 100, YearSuffix(y);
    assert y == 100 * q + r;
    assert y / 10 == 10 * q + r / 10;
  }

  lemma SplitDateFields(yt: string, mt: string, dt: string)
    requires '-' !in yt && '-' !in mt && '-' !in dt
    ensures Split(yt + "-" + mt + "-" + dt, '-') == [yt, mt, dt]
  {
    assert yt + "-" + mt + "-" + dt == yt + ['-'] + (mt + ['-'] + dt);
    SplitCons(yt, '-', mt + ['-'] + dt);
    SplitCons(mt, '-', dt);
  }

  lemma DigitsNoDash(s: string)
    requires AllDigits(s)
    ensures '-' !in s
  {
    forall i | 0 <= i < |s| ensures s[i] != '-' {
      assert IsDigit(s[i]);
    }
  }

  /** A digit field reads as its value. */
  lemma FieldNumberDigits(parts: seq<string>, k: nat)
    requires k < |parts| && parts[k] != [] && AllDigits(parts[k])
    ensures FieldNumber(parts, k) == Finite(DigitsValue(parts[k]) as real)
  {
    ToNumberDigits(parts[k]);
  }

  /** The fields of `yt-MM-DD` as `Number` reads them. */
  lemma DigitFieldNumbers(yt: string, m: nat, d: nat)
    requires yt != [] && AllDigits(yt)
    ensures var parts := Split(yt + "-" + Pad2(m) + "-" + Pad2(d), '-');
      FieldNumber(parts, 0) == Finite(DigitsValue(yt) as real)
      && FieldNumber(parts, 1) == Finite(m as real)
      && FieldNumber(parts, 2) == Finite(d as real)
  {
    var mt, dt := Pad2(m), Pad2(d);
    DigitsNoDash(yt);
    DigitsNoDash(mt);
    DigitsNoDash(dt);
    SplitDateFields(yt, mt, dt);
    var parts := [yt, mt, dt];
    FieldNumberDigits(parts, 0);
    FieldNumberDigits(parts, 1);
    FieldNumberDigits(parts, 2);
  }

  lemma SubOne(m0: int)
    ensures Sub(Finite((m0 + 1) as real), Finite(1.0)) == Finite(m0 as real)
  {
  }

  /** Text whose three fields read as the numbers y, m0 + 1 and d gives the key of `new Date(y, m0, d)`. */
  lemma FormatOfNumbers(s: string, y: int, m0: int, d: int)
    requires s != []
    requires FieldNumber(Split(s, '-'), 0) == Finite(y as real)
    requires FieldNumber(Split(s, '-'), 1) == Finite((m0 + 1) as real)
    requires FieldNumber(Split(s, '-'), 2) == Finite(d as real)
    ensures FormatDateToMonthRef(s) == KeyOfDate(NewDateInt(y, m0, d))
  {
    SubOne(m0);
  }

  /** The date that `new Date(year, month - 1, day)` builds from digit fields. */
  lemma FormatOfDigitFields(yt: string, m: nat, d: nat)
    requires yt != [] && AllDigits(yt)
    ensures FormatDateToMonthRef(yt + "-" + Pad2(m) + "-" + Pad2(d)) == KeyOfDate(NewDateInt(DigitsValue(yt), m - 1, d))
  {
    DigitFieldNumbers(yt, m, d);
    FormatOfNumbers(yt + "-" + Pad2(m) + "-" + Pad2(d), DigitsValue(yt), m - 1, d);
  }

  /**
   * For digit fields that denote a valid date in a year 0..9999 the key is that date's
   * month and year, the year read as the `Date` constructor reads it.
   */
  lemma FormatDigitDate(yt: string, m: nat, d: nat)
    requires yt != [] && AllDigits(yt) && DigitsValue(yt) <= 9999
    requires ValidDate(Date(ConstructorYear(DigitsValue(yt)), m, d))
    ensures FormatDateToMonthRef(yt + "-" + Pad2(m) + "-" + Pad2(d)) == MonthRef(ConstructorYear(DigitsValue(yt)), m)
  {
    var y := DigitsValue(yt);
    var full := ConstructorYear(y);
    FormatOfDigitFields(yt, m, d);
    NewDateOfValid(y, m, d);
    LastTwoDigits(full);
    assert KeyOfDate(At(Date(full, m, d))) == MonthRef(full, m);
  }

  /** For a valid ISO date in a year 100..9999 the key is the date's month and year. */
  lemma FormatIsoDate(date: Date)
    requires ValidDate(date) && 100 <= date.year <= 9999
    ensures FormatDateToMonthRef(IsoDateText(date)) == MonthRef(date.year, date.month)
  {
    var yt := IsoYear(date.year);
    assert DigitsValue(yt) == date.year;
    assert ConstructorYear(date.year) == date.year;
    assert IsoDateText(date) == yt + "-" + Pad2(date.month) + "-" + Pad2(date.day);
    FormatDigitDate(yt, date.month, date.day);
  }

  /** Years 0..99 are read as 1900..1999. */
  lemma FormatTwoDigitYear(date: Date)
    requires 0 <= date.year <= 99 && ValidDate(date) && ValidDate(Date(1900 + date.year, date.month, date.day))
    ensures FormatDateToMonthRef(IsoDateText(date)) == MonthRef(1900 + date.year, date.month)
  {
    var yt := IsoYear(date.year);
    assert DigitsValue(yt) == date.year;
    assert ConstructorYear(date.year) == 1900 + date.year;
    assert IsoDateText(date) == yt + "-" + Pad2(date.month) + "-" + Pad2(date.day);
    FormatDigitDate(yt, date.month, date.day);
  }

  /** A shift by whole centuries keeps the key: 1900 + y and y share their two-digit suffix. */
  lemma MonthRefCentury(y: int, m: int)
    requires 1 <= m <= 12
    ensures MonthRef(1900 + y, m) == MonthRef(y, m)
  {
    assert YearSuffix(1900 + y) == YearSuffix(y);
  }

  lemma UpperCharIdempotent(c: char)
    ensures UpperChar(UpperChar(c)) == UpperChar(c)
    ensures UpperChar(c) == '/' <==> c == '/'
  {
  }

  lemma UpperIdempotent(abbr: string)
    ensures ToUpper(ToUpper(abbr)) == ToUpper(abbr)
    ensures '/' !in abbr ==> '/' !in ToUpper(abbr)
  {
    var up := ToUpper(abbr);
    forall i | 0 <= i < |abbr| ensures UpperChar(up[i]) == up[i] && (up[i] == '/' <==> abbr[i] == '/') {
      UpperCharIdempotent(abbr[i]);
    }
  }

  /** Matching the abbreviation is case-insensitive. */
  lemma ParseCaseInsensitive(abbr: string, rest: string)
    requires '/' !in abbr
    ensures ParseMonthRefToDate(abbr + "/" + rest) == ParseMonthRefToDate(ToUpper(abbr) + "/" + rest)
  {
    UpperIdempotent(abbr);
    SlashCons(abbr, rest);
    SlashCons(ToUpper(abbr), rest);
  }

  /** A month part that upper-cases to an abbreviation names that month. */
  lemma UpperToMonth(abbr: string, k: nat, rest: string)
    requires k < 12 && ToUpper(abbr) == Months[k] && '/' !in abbr
    ensures ParseMonthRefToDate(abbr + "/" + rest) == ParseMonthRefToDate(Months[k] + "/" + rest) != ""
  {
    ParseCaseInsensitive(abbr, rest);
    MonthsUpper(k);
    SlashCons(Months[k], rest);
  }

  /** "ſet" and "maı" upper-case to SET and MAI, so they name September and May. */
  lemma FoldedLetters(rest: string)
    ensures ParseMonthRefToDate("\U{017F}et" + "/" + rest) == ParseMonthRefToDate("SET" + "/" + rest) != ""
    ensures ParseMonthRefToDate("ma\U{0131}" + "/" + rest) == ParseMonthRefToDate("MAI" + "/" + rest) != ""
  {
    var longS, dotless := "\U{017F}et", "ma\U{0131}";
    assert ToUpper(longS) == Months[8];
    assert ToUpper(dotless) == Months[4];
    UpperToMonth(longS, 8, rest);
    UpperToMonth(dotless, 4, rest);
  }

  lemma FirstDayParts(y: string, mm: string)
    requires |mm| == 2
    ensures var r := y + "-" + mm + "-01";
      |r| == |y| + 6 && r[|r| - 3..] == "-01" && r[|r| - 6] == '-'
      && r[..|r| - 6] == y && r[|r| - 5..|r| - 3] == mm
  {
  }

  /** A non-empty result is `<year>-<two-digit month 01..12>-01`, the year being 2000 + YY. */
  lemma ParseShape(key: string)
    requires ParseMonthRefToDate(key) != []
    ensures var r := ParseMonthRefToDate(key);
      |r| >= 7 && r[|r| - 3..] == "-01" && r[|r| - 6] == '-'
      && r[..|r| - 6] == FullYearText(Split(key, '/')[1])
      && AllDigits(r[|r| - 5..|r| - 3]) && 1 <= DigitsValue(r[|r| - 5..|r| - 3]) <= 12
  {
    var parts := Split(key, '/');
    var k := MonthIndex(ToUpper(parts[0]));
    var y := FullYearText(parts[1]);
    var r := ParseMonthRefToDate(key);
    assert r == y + "-" + Pad2(k + 1) + "-01";
    FirstDayParts(y, Pad2(k + 1));
  }

  /** The twelve abbreviations are pairwise different. */
  lemma MonthsDistinct(j: nat, k: nat)
    requires j < 12 && k < 12 && Months[j] == Months[k]
    ensures j == k
  {
    assert Months[j][..3] == Months[k][..3];
  }

  /** Months less than a year apart have different keys. */
  lemma KeysDistinct(a: Date, b: Date, i: int, j: int)
    requires 1 <= a.month <= 12 && 1 <= b.month <= 12 && 0 <= i < 12 && 0 <= j < 12 && i != j
    requires a.year * 12 + a.month + i == b.year * 12 + b.month + j
    ensures MonthRef(a.year, a.month) != MonthRef(b.year, b.month)
  {
    MonthsApart(a.year, a.month, b.year, b.month, i, j);
    MonthsDiffer(a.month - 1, b.month - 1);
  }

  /** Two months fewer than twelve apart and at different distances from one month differ in month number. */
  lemma MonthsApart(ya: int, ma: int, yb: int, mb: int, i: int, j: int)
    requires 1 <= ma <= 12 && 1 <= mb <= 12 && 0 <= i < 12 && 0 <= j < 12 && i != j
    requires ya * 12 + ma + i == yb * 12 + mb + j
    ensures ma != mb
  {
    var d := ya - yb;
    assert d * 12 == ya * 12 - yb * 12;
    assert ma - mb == j - i - d * 12;
    if d >= 1 {
      assert d * 12 >= 12;
    } else if d <= -1 {
      assert d * 12 <= -12;
    }
  }

  lemma MonthsDiffer(j: nat, k: nat)
    requires j < 12 && k < 12 && j != k
    ensures Months[j] != Months[k]
  {
    if Months[j] == Months[k] {
      MonthsDistinct(j, k);
    }
  }

  /** A string of capital letters is its own upper case. */
  lemma UpperOfCapitals(s: string)
    requires forall i :: 0 <= i < |s| ==> 'A' <= s[i] <= 'Z'
    ensures ToUpper(s) == s
  {
  }

  lemma MonthsUpper(k: nat)
    requires k < 12
    ensures ToUpper(Months[k]) == Months[k]
    ensures MonthIndex(Months[k]) == k
    ensures '/' !in Months[k]
  {
    MonthsShape(k);
    UpperOfCapitals(Months[k]);
    var j := MonthIndex(Months[k]);
    assert Months[k] in Months;
    MonthsDistinct(j, k);
  }

  /** `parseInt(YY) + 2000` is the text of the read number plus 2000. */
  lemma FullYearOfPrefix(t: string, v: int)
    requires IntegerPrefix(TrimStart(t)) == Some(v)
    ensures FullYearText(t) == IntToString(v + 2000)
  {
  }

  /** `parseInt(YY) + 2000` for the two digits of a year 2000..2099 gives the year back. */
  lemma FullYearOfSuffix(y: int)
    requires 2000 <= y <= 2099
    ensures FullYearText(Pad2(YearSuffix(y))) == IsoYear(y)
  {
    SuffixPrefix(y);
    FullYearOfPrefix(Pad2(YearSuffix(y)), y - 2000);
    IsoYearFourDigits(y);
  }

  /** `parseInt` reads the two digits of a year 2000..2099 as the year minus 2000. */
  lemma SuffixPrefix(y: int)
    requires 2000 <= y <= 2099
    ensures IntegerPrefix(TrimStart(Pad2(YearSuffix(y)))) == Some(y - 2000)
  {
    ParseIntDigits(Pad2(YearSuffix(y)));
  }

  /** The key of month k + 1 with year digits yy converts to `<2000 + yy>-<month>-01`. */
  lemma ParseMonthKey(k: nat, yy: string)
    requires k < 12 && '/' !in yy
    ensures ParseMonthRefToDate(Months[k] + "/" + yy) == FullYearText(yy) + "-" + Pad2(k + 1) + "-01"
  {
    MonthsUpper(k);
    ParseKeyOfIndex(Months[k], yy, k);
  }

  lemma ParseKeyOfIndex(abbr: string, yy: string, k: int)
    requires '/' !in abbr && '/' !in yy && ToUpper(abbr) == abbr && MonthIndex(abbr) == k && k >= 0
    ensures ParseMonthRefToDate(abbr + "/" + yy) == FullYearText(yy) + "-" + Pad2(k + 1) + "-01"
  {
    SlashSplit(abbr, yy);
  }

  /** `abbr/yy` with no other '/' has a '/' and splits into its two sides. */
  lemma SlashSplit(abbr: string, yy: string)
    requires '/' !in abbr && '/' !in yy
    ensures '/' in abbr + "/" + yy && Split(abbr + "/" + yy, '/') == [abbr, yy]
  {
    SlashCons(abbr, yy);
  }

  /** The first field of `abbr/rest` is abbr when abbr has no '/'. */
  lemma SlashCons(abbr: string, rest: string)
    requires '/' !in abbr
    ensures '/' in abbr + "/" + rest && Split(abbr + "/" + rest, '/') == [abbr] + Split(rest, '/')
  {
    var key := abbr + "/" + rest;
    assert key == abbr + ['/'] + rest;
    SplitCons(abbr, '/', rest);
    assert key[|abbr|] == '/';
  }

  /** For years 2000..2099 the key of a month converts to the first day of that month. */
  lemma ParseMonthRef(y: int, m: int)
    requires 2000 <= y <= 2099 && 1 <= m <= 12
    ensures ParseMonthRefToDate(MonthRef(y, m)) == IsoDateText(Date(y, m, 1))
  {
    var yy := Pad2(YearSuffix(y));
    assert '/' !in yy by {
      forall i | 0 <= i < |yy| ensures yy[i] != '/' { assert IsDigit(yy[i]); }
    }
    ParseMonthKey(m - 1, yy);
    FullYearOfSuffix(y);
    IsoFirstDay(y, m);
  }

  /** For years 2000..2099 the key converts back to the first day of the date's month. */
  lemma MonthRefRoundTrip(date: Date)
    requires ValidDate(date) && 2000 <= date.year <= 2099
    ensures ParseMonthRefToDate(FormatDateToMonthRef(IsoDateText(date))) == IsoDateText(Date(date.year, date.month, 1))
  {
    FormatIsoDate(date);
    ParseMonthRef(date.year, date.month);
  }
}
