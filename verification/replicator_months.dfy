/**
 * The source months the replication dialog offers (`generateMonthOptions` in
 * src/components/DataReplicator.tsx): the keys of the current month and the eleven before it.
 */
module ReplicatorMonths {
  import opened Wrappers
  import opened JsText
  import opened JsNumber
  import opened Calendar
  import opened DateUtils

  datatype MonthOption = MonthOption(value: string, caption: string)

  /** `${year}-${MM}-01` as the loop writes it. */
  function OptionText(date: Date): (s: string)
    requires 1 <= date.month <= 12
    ensures |s| >= 7
  {
    IntToString(date.year) + "-" + Pad2(date.month) + "-01"
  }

  /** The text written for the first day of a month converts to that month's key. */
  lemma OptionTextKey(date: Date)
    requires ValidDate(date) && date.day == 1 && 1000 <= date.year <= 9999
    ensures FormatDateToMonthRef(OptionText(date)) == MonthRef(date.year, date.month)
  {
    IsoYearFourDigits(date.year);
    IsoFirstDay(date.year, date.month);
    FormatIsoDate(date);
  }

  /** Iteration i builds the first day of the month i months back and writes its key. */
  lemma OptionAt(today: Date, i: int)
    requires ValidDate(today) && 1970 <= today.year <= 9999 && 0 <= i < 12
    ensures var back := MonthsBack(today.year, today.month, i);
      NewDateInt(today.year, today.month - 1 - i, 1) == At(back)
      && FormatDateToMonthRef(OptionText(back)) == MonthRef(back.year, back.month)
  {
    NewDateMonthsBack(today.year, today.month, i);
    OptionTextKey(MonthsBack(today.year, today.month, i));
  }

  /** `new Date(today.getFullYear(), today.getMonth() - i, 1)`, which is always a valid date here. */
  function NewDateOf(today: Date, i: int): (d: Date)
    requires ValidDate(today) && 1970 <= today.year <= 9999 && 0 <= i < 12
    ensures d == MonthsBack(today.year, today.month, i)
  {
    OptionAt(today, i);
    NewDateInt(today.year, today.month - 1 - i, 1).date
  }

  /** Iteration i pushes the option of the month i months back. */
  lemma OptionStep(today: Date, i: int, localeLabel: Date -> string)
    requires ValidDate(today) && 1970 <= today.year <= 9999 && 0 <= i < 12
    ensures var key := FormatDateToMonthRef(OptionText(NewDateOf(today, i)));
      MonthOption(key, localeLabel(NewDateOf(today, i)) + " (" + key + ")")
      == OptionFor(MonthsBack(today.year, today.month, i), localeLabel)
  {
    OptionAt(today, i);
  }

  /** The option for the month starting on `first`: its key, and the locale text followed by the key. */
  function OptionFor(first: Date, localeLabel: Date -> string): MonthOption
    requires ValidDate(first)
  {
    var key := MonthRef(first.year, first.month);
    MonthOption(key, localeLabel(first) + " (" + key + ")")
  }

  /** The sequence f(0), ..., f(n - 1). */
  function Tabulate<T>(f: nat -> T, n: nat): (r: seq<T>)
    ensures |r| == n
  {
    if n == 0 then [] else Tabulate(f, n - 1) + [f(n - 1)]
  }

  lemma {:induction false} TabulateAt<T>(f: nat -> T, n: nat, i: nat)
    requires i < n
    ensures Tabulate(f, n)[i] == f(i)
  {
    if i < n - 1 {
      TabulateAt(f, n - 1, i);
    }
  }

  /** The options of the n most recent months, newest first. */
  function RecentOptions(today: Date, localeLabel: Date -> string, n: nat): (r: seq<MonthOption>)
    requires ValidDate(today)
    ensures |r| == n
  {
    Tabulate((k: nat) => OptionFor(MonthsBack(today.year, today.month, k), localeLabel), n)
  }

  /** Entry i of the list is the option of the month i months back. */
  lemma RecentOptionAt(today: Date, localeLabel: Date -> string, n: nat, i: nat)
    requires ValidDate(today) && i < n
    ensures RecentOptions(today, localeLabel, n)[i] == OptionFor(MonthsBack(today.year, today.month, i), localeLabel)
  {
    TabulateAt((k: nat) => OptionFor(MonthsBack(today.year, today.month, k), localeLabel), n, i);
  }

  /**
   * generateMonthOptions: entry i is the option of the month i months before today's month
   * (today and the locale text are parameters here).
   */
  method GenerateMonthOptions(today: Date, localeLabel: Date -> string) returns (months: seq<MonthOption>)
    requires ValidDate(today) && 1970 <= today.year <= 9999
    ensures months == RecentOptions(today, localeLabel, 12)
    ensures forall i :: 0 <= i < 12 ==> months[i] == OptionFor(MonthsBack(today.year, today.month, i), localeLabel)
  {
    months := [];
    for i := 0 to 12
      invariant months == RecentOptions(today, localeLabel, i)
    {
      var date := NewDateOf(today, i);
      var dateString := OptionText(date);
      var monthRef := FormatDateToMonthRef(dateString);
      var option := MonthOption(monthRef, localeLabel(date) + " (" + monthRef + ")");
      OptionStep(today, i, localeLabel);
      months := months + [option];
    }
    forall i | 0 <= i < 12
      ensures months[i] == OptionFor(MonthsBack(today.year, today.month, i), localeLabel)
    {
      RecentOptionAt(today, localeLabel, 12, i);
    }
  }

  /** The twelve offered keys are pairwise different. */
  lemma MonthOptionsDistinct(y: int, m: int, i: int, j: int)
    requires 1 <= m <= 12 && 0 <= i < 12 && 0 <= j < 12 && i != j
    ensures MonthRef(MonthsBack(y, m, i).year, MonthsBack(y, m, i).month)
         != MonthRef(MonthsBack(y, m, j).year, MonthsBack(y, m, j).month)
  {
    KeysDistinct(MonthsBack(y, m, i), MonthsBack(y, m, j), i, j);
  }
}
