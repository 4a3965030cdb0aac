/**
 * The spreadsheet reader of src/utils/parseExcel.ts: cell sanitisers, date formatting,
 * sheet classification and the per-sheet loops that collect incomes, expenses and debts,
 * with the file-size and record-count limits.
 */
module ParseExcel {
  import opened Wrappers
  import opened JsText
  import opened JsNumber
  import opened Calendar
  import opened Lists
  import opened Spreadsheet

  const MaxFileSizeBytes: nat := 5 * 1024 * 1024
  const MaxRecordsPerSheet: nat := 1000
  const MaxStringLength: nat := 255
  const MaxObservacoesLength: nat := 500
  const MaxValor: real := 99999999.99
  const MinValor: real := 0.0

  // ---------------------------------------------------------------------------------------
  // Sanitisers

  /** The characters the string sanitiser removes: C0 controls other than tab, LF and CR, and DEL. */
  predicate IsControl(c: char) {
    c <= '\U{0008}' || c == '\U{000B}' || c == '\U{000C}' || ('\U{000E}' <= c <= '\U{001F}') || c == '\U{007F}'
  }

  predicate Kept(c: char) {
    !IsControl(c)
  }

  /** The number of UTF-16 code units of one character. */
  function Units(c: char): (n: nat)
    ensures n == Utf16Length([c])
  {
    assert [c][1..] == [];
    if c as int > 0xFFFF then 2 else 1
  }

  /**
   * `s.slice(0, n)`, n counted in UTF-16 code units, as `String.prototype.slice` counts:
   * the longest prefix of at most n units. A character outside the Basic Multilingual Plane
   * whose two units straddle the cut is left out whole.
   */
  function Slice(s: string, n: nat): (r: string)
    ensures |r| <= |s| && Utf16Length(r) <= n && r == s[..|r|]
    ensures Utf16Length(s) <= n ==> r == s
    ensures |r| < |s| ==> Utf16Length(s[..|r| + 1]) > n
    decreases |s|
  {
    if s == [] then []
    else
      var w := Units(s[0]);
      assert s[..1] == [s[0]];
      if w > n then []
      else
        var rest := Slice(s[1..], n - w);
        var r := [s[0]] + rest;
        assert r[1..] == rest;
        assert s[1..][..|rest|] == s[..|r|][1..];
        assert |rest| < |s[1..]| ==> s[1..][..|rest| + 1] == s[..|r| + 1][1..];
        r
  }

  /** A character takes at most two units. */
  lemma {:induction false} UnitsAtMostTwice(s: string)
    ensures Utf16Length(s) <= 2 * |s|
  {
    if s != [] {
      UnitsAtMostTwice(s[1..]);
    }
  }

  /** The default description and category fit the length limit. */
  lemma DefaultTextsFit()
    ensures Utf16Length("Sem descrição") <= MaxStringLength
    ensures Utf16Length("Outros") <= MaxStringLength
  {
    UnitsAtMostTwice("Sem descrição");
    UnitsAtMostTwice("Outros");
  }

  /** The cut counts units: one emoji is two of them, and half of one is not kept. */
  lemma SliceAstral()
    ensures Slice("\U{1F600}\U{1F600}", 2) == "\U{1F600}"
    ensures Slice("\U{1F600}\U{1F600}", 1) == ""
  {
    var e := "\U{1F600}\U{1F600}";
    assert e[1..][1..] == [];
  }

  /** Removing characters never lengthens a text. */
  lemma {:induction false} FilterUnits(s: string, p: char -> bool)
    ensures Utf16Length(Filter(s, p)) <= Utf16Length(s)
  {
    if s != [] {
      var init, last := s[..|s| - 1], s[|s| - 1];
      assert s == init + [last];
      FilterUnits(init, p);
      Utf16LengthAppend(init, [last]);
      Utf16LengthAppend(Filter(init, p), if p(last) then [last] else []);
    }
  }

  /**
   * `sanitizeString`: the text of the cell, trimmed, cut to maxLength UTF-16 units, with the
   * control characters removed.
   */
  function SanitizeString(v: Cell, maxLength: nat): (r: string)
    ensures v.Blank? ==> r == []
    ensures |r| <= Utf16Length(r) <= maxLength
    ensures forall i :: 0 <= i < |r| ==> !IsControl(r[i])
  {
    if v.Blank? then ""
    else
      var cut := Slice(Trim(CellText(v)), maxLength);
      FilterUnits(cut, Kept);
      Filter(cut, Kept)
  }

  /** Every other character of the trimmed, cut text survives, as often as it occurs there. */
  lemma SanitizeKeeps(v: Cell, maxLength: nat, c: char)
    requires !v.Blank? && !IsControl(c)
    ensures multiset(SanitizeString(v, maxLength))[c] == multiset(Slice(Trim(CellText(v)), maxLength))[c]
  {
    FilterOccurrences(Slice(Trim(CellText(v)), maxLength), Kept, c);
  }

  /** Text that is already clean (short enough, no control characters, no outer white space) is kept as is. */
  lemma SanitizeClean(s: string, maxLength: nat)
    requires Utf16Length(s) <= maxLength
    requires forall i :: 0 <= i < |s| ==> !IsControl(s[i])
    requires s != [] ==> !IsJsWhiteSpace(s[0]) && !IsJsWhiteSpace(s[|s| - 1])
    ensures SanitizeString(Text(s), maxLength) == s
  {
    assert TrimStart(s) == s;
    assert TrimEnd(s) == s;
    FilterAll(s, Kept);
  }

  /** The characters the number sanitiser keeps: `[\d,.-]`. */
  predicate IsAmountChar(c: char) {
    IsDigit(c) || c == ',' || c == '.' || c == '-'
  }

  /** The number read from a cell: other characters dropped, the first ',' made '.', then `parseFloat`. */
  function AmountOf(v: Cell): (n: Num)
    requires !v.Blank?
  {
    ParseFloat(ReplaceFirst(Filter(CellText(v), IsAmountChar), ',', '.'))
  }

  function RealMin(a: real, b: real): (r: real)
    ensures r <= a && r <= b && (r == a || r == b)
  {
    if a <= b then a else b
  }

  function RealMax(a: real, b: real): (r: real)
    ensures r >= a && r >= b && (r == a || r == b)
  {
    if a >= b then a else b
  }

  /** `sanitizeNumber`: 0 for an empty or unreadable cell, otherwise the amount clamped to [min, max]. */
  function SanitizeNumber(v: Cell, min: real, max: real): (r: real)
    ensures v.Blank? ==> r == 0.0
    ensures !v.Blank? && AmountOf(v).NaN? ==> r == 0.0
    ensures !v.Blank? && AmountOf(v).Finite? ==>
      var x := AmountOf(v).v;
      (min <= max ==> min <= r <= max)
      && (min <= x <= max ==> r == x)
      && (x < min ==> r == min)
      && (max < x && min <= max ==> r == max)
  {
    if v.Blank? then 0.0
    else match AmountOf(v)
      case NaN => 0.0
      case Finite(x) => RealMax(min, RealMin(x, max))
  }

  /** With the default bounds the result lies in [0, 99999999.99]. */
  lemma SanitizeNumberDefault(v: Cell)
    ensures 0.0 <= SanitizeNumber(v, MinValor, MaxValor) <= MaxValor
  {
  }

  /** Digits with a decimal comma ("150,50") are read as the decimal number they write. */
  lemma AmountDecimalComma(i: string, f: string)
    requires AllDigits(i) && AllDigits(f) && i != []
    ensures AmountOf(Text(i + "," + f)) == Finite(Mantissa(DigitsValue(i), DigitsValue(f), |f|))
  {
    DecimalCommaText(i, f);
    ParseFloatFraction(i, f);
  }

  /** The text "I,F" keeps all its characters and its comma becomes a point. */
  lemma DecimalCommaText(i: string, f: string)
    requires AllDigits(i) && AllDigits(f)
    ensures var s := i + "," + f;
      Filter(s, IsAmountChar) == s && ReplaceFirst(s, ',', '.') == i + "." + f
  {
    var s := i + "," + f;
    forall k | 0 <= k < |s| ensures IsAmountChar(s[k]) {
      if k < |i| { assert s[k] == i[k]; } else if k > |i| { assert s[k] == f[k - |i| - 1]; }
    }
    FilterAll(s, IsAmountChar);
    assert s[..|i|] == i && s[|i|] == ',';
    assert ',' !in i by {
      forall k | 0 <= k < |i| ensures i[k] != ',' { assert IsDigit(i[k]); }
    }
    assert IndexOfChar(s, ',') == |i|;
  }


  /** The text left once the thousands-separated amount "I.J,F" has had its comma turned into a point. */
  lemma ThousandsText(i: string, j: string, f: string)
    requires AllDigits(i) && AllDigits(j) && AllDigits(f) && i != []
    ensures ReplaceFirst(Filter(CellText(Text(i + "." + j + "," + f)), IsAmountChar), ',', '.') == i + "." + j + "." + f
  {
    var s := i + "." + j + "," + f;
    var p := i + "." + j;
    forall k | 0 <= k < |s| ensures IsAmountChar(s[k]) {
      if k < |i| { assert s[k] == i[k]; }
      else if |i| < k < |p| { assert s[k] == j[k - |i| - 1]; }
      else if k > |p| { assert s[k] == f[k - |p| - 1]; }
    }
    FilterAll(s, IsAmountChar);
    assert ',' !in p by {
      forall k | 0 <= k < |p| ensures p[k] != ',' {
        if k < |i| { assert IsDigit(i[k]); } else if k > |i| { assert p[k] == j[k - |i| - 1]; assert IsDigit(j[k - |i| - 1]); }
      }
    }
    assert s == p + [','] + f;
    assert s[..|p|] == p && s[|p|] == ',';
    assert IndexOfChar(s, ',') == |p|;
  }

  /**
   * A Brazilian amount with a thousands separator, "1.234,56", is read only up to its
   * second point: the value is I.J ("1.234"), not I J.F.
   */
  lemma AmountThousands(i: string, j: string, f: string)
    requires AllDigits(i) && AllDigits(j) && AllDigits(f) && i != []
    ensures AmountOf(Text(i + "." + j + "," + f)) == Finite(Mantissa(DigitsValue(i), DigitsValue(j), |j|))
  {
    ThousandsText(i, j, f);
    ParseFloatStops(i, j, '.', f);
  }

  // ---------------------------------------------------------------------------------------
  // Dates

  /** The fields `XLSX.SSF.parse_date_code` returns for a serial date number. */
  datatype DateCode = DateCode(y: int, m: int, d: int)

  /**
   * What the reader takes from outside: today's date (UTC), the serial-date decoder of the
   * XLSX library, and the date `new Date(text)` yields for other text (UTC calendar date).
   */
  datatype Environment = Environment(
    today: CalendarDate,
    dateCode: real -> Option<DateCode>,
    parseDate: string -> Option<CalendarDate>)

  /** `${y}-${MM}-${DD}` for decoded serial-date fields, the month and day padded to two digits. */
  function CodeText(c: DateCode): (s: string)
    ensures |s| >= 5
  {
    IntToString(c.y) + "-" + PadStart(IntToString(c.m), 2, '0') + "-" + PadStart(IntToString(c.d), 2, '0')
  }

  /** `formatDate`: null for a falsy cell; ISO-shaped text as is; a serial date written out; else the parsed date. */
  function FormatDate(v: Cell, env: Environment): (r: Option<string>)
    ensures !Filled(v) ==> r == None
    ensures v.Text? && IsIsoDateShape(v.s) ==> r == Some(v.s)
    ensures r.Some? ==> r.value != []
  {
    if !Filled(v) then None
    else if v.Text? && IsIsoDateShape(v.s) then Some(v.s)
    else if v.Numeric? && env.dateCode(v.n).Some? then Some(CodeText(env.dateCode(v.n).value))
    else ParsedDateText(CellText(v), env)
  }

  /** `new Date(text)`, written back as `toISOString().split('T')[0]` when it is a valid date. */
  function ParsedDateText(text: string, env: Environment): (r: Option<string>)
    ensures r.Some? ==> |r.value| >= 10
  {
    match env.parseDate(text)
    case Some(d) => Some(IsoDateText(d))
    case None => None
  }

  /** A date cell in ISO form passes through, so dates written by the application come back unchanged. */
  lemma FormatDateIso(date: Date, env: Environment)
    requires ValidDate(date) && 0 <= date.year <= 9999
    ensures FormatDate(Text(IsoDateText(date)), env) == Some(IsoDateText(date))
  {
    IsoDateRoundTrip(date);
  }

  /** The text written for a serial date of a year 1000..9999 is the date's ISO text. */
  lemma DateCodeText(date: Date)
    requires ValidDate(date) && 1000 <= date.year <= 9999
    ensures CodeText(DateCode(date.year, date.month, date.day)) == IsoDateText(date)
  {
    IsoYearFourDigits(date.year);
    Pad2IsPadStart(date.month);
    Pad2IsPadStart(date.day);
  }

  /** A serial date of a year 1000..9999 is written in the same ISO form as a date string. */
  lemma FormatDateCode(n: real, shown: string, env: Environment, date: Date)
    requires n != 0.0 && env.dateCode(n) == Some(DateCode(date.year, date.month, date.day))
    requires ValidDate(date) && 1000 <= date.year <= 9999
    ensures FormatDate(Numeric(n, shown), env) == Some(IsoDateText(date))
  {
    assert FormatDate(Numeric(n, shown), env) == Some(CodeText(DateCode(date.year, date.month, date.day)));
    DateCodeText(date);
  }

  // ---------------------------------------------------------------------------------------
  // Records

  /** An income or expense row: `data` is `data_recebimento` or `data_pagamento`. */
  datatype Movement = Movement(descricao: string, categoria: string, valor: real, data: string,
                               mesReferencia: string, observacoes: Option<string>)

  datatype Debt = Debt(descricao: string, categoria: Option<string>, valorTotal: real, valorPago: real,
                       valorRestante: real, dataVencimento: Option<string>, status: string,
                       observacoes: Option<string>)

  datatype ExcelData = ExcelData(receitas: seq<Movement>, despesas: seq<Movement>, dividas: seq<Debt>)

  /** A sheet as rows of cells (`sheet_to_json` with `header: 1`); the first row is the header. */
  datatype Sheet = Sheet(name: string, rows: seq<seq<Cell>>)

  datatype SheetKind = ReceitaSheet | DespesaSheet | DividaSheet | OtherSheet

  datatype ImportError = FileTooLarge | Unreadable | TooManyRecords

  /** `s || fallback` on strings. */
  function OrElse(s: string, fallback: string): (r: string)
    ensures s != [] ==> r == s
    ensures s == [] ==> r == fallback
  {
    if s == [] then fallback else s
  }

  /** `s || null` on strings. */
  function NonEmpty(s: string): (r: Option<string>)
    ensures r.Some? <==> s != []
    ensures r.Some? ==> r.value == s
  {
    if s == [] then None else Some(s)
  }

  /** A row is read only when it has a truthy first cell. */
  predicate Usable(row: seq<Cell>) {
    |row| > 0 && Filled(row[0])
  }

  /** `sanitizeString(v, n) || fallback` for a fallback that fits: non-empty, at most n units. */
  function SanitizedOr(v: Cell, n: nat, fallback: string): (r: string)
    requires fallback != [] && Utf16Length(fallback) <= n
    ensures r != [] && Utf16Length(r) <= n
  {
    OrElse(SanitizeString(v, n), fallback)
  }

  /** `sanitizeString(v, 7) || today.slice(0, 7)`: a non-empty month text of at most 7 characters. */
  function MonthOr(v: Cell, today: string): (r: string)
    requires |today| >= 7
    ensures r != [] && |r| <= 7
  {
    OrElse(SanitizeString(v, 7), today[..7])
  }

  /** The income or expense built from a row. */
  function MovementOf(row: seq<Cell>, env: Environment): (m: Movement)
    ensures m.descricao != [] && Utf16Length(m.descricao) <= MaxStringLength
    ensures m.categoria != [] && Utf16Length(m.categoria) <= MaxStringLength
    ensures m.mesReferencia != [] && |m.mesReferencia| <= 7
    ensures m.observacoes.Some? ==> Utf16Length(m.observacoes.value) <= MaxObservacoesLength
    ensures MinValor <= m.valor <= MaxValor
  {
    DefaultTextsFit();
    var date := FormatDate(CellAt(row, 3), env);
    var today := IsoDateText(env.today);
    Movement(
      SanitizedOr(CellAt(row, 0), MaxStringLength, "Sem descrição"),
      SanitizedOr(CellAt(row, 1), MaxStringLength, "Outros"),
      SanitizeNumber(CellAt(row, 2), MinValor, MaxValor),
      if date.Some? then date.value else today,
      MonthOr(CellAt(row, 4), today),
      NonEmpty(SanitizeString(CellAt(row, 5), MaxObservacoesLength)))
  }

  /** The debt built from a row: paid capped at the total, remaining never negative. */
  function DebtOf(row: seq<Cell>, env: Environment): (d: Debt)
    ensures 0.0 <= d.valorPago <= d.valorTotal <= MaxValor
    ensures d.valorPago + d.valorRestante == d.valorTotal && d.valorRestante >= 0.0
    ensures d.status == (if d.valorPago == d.valorTotal then "pago" else "pendente")
    ensures d.descricao != [] && Utf16Length(d.descricao) <= MaxStringLength
  {
    DefaultTextsFit();
    var total := SanitizeNumber(CellAt(row, 2), MinValor, MaxValor);
    var paid := SanitizeNumber(CellAt(row, 3), MinValor, MaxValor);
    Debt(
      SanitizedOr(CellAt(row, 0), MaxStringLength, "Sem descrição"),
      NonEmpty(SanitizeString(CellAt(row, 1), MaxStringLength)),
      total,
      RealMin(paid, total),
      RealMax(0.0, total - paid),
      FormatDate(CellAt(row, 4), env),
      if paid >= total then "pago" else "pendente",
      NonEmpty(SanitizeString(CellAt(row, 5), MaxObservacoesLength)))
  }

  function MovementBuilder(env: Environment): seq<Cell> -> Movement {
    row => MovementOf(row, env)
  }

  function DebtBuilder(env: Environment): seq<Cell> -> Debt {
    row => DebtOf(row, env)
  }

  predicate PositiveValor(m: Movement) {
    m.valor > 0.0
  }

  predicate PositiveTotal(d: Debt) {
    d.valorTotal > 0.0
  }

  /** The income or expense a row contributes: only usable rows with a positive value. */
  function MovementFrom(env: Environment): seq<Cell> -> Option<Movement> {
    Keep(Usable, MovementBuilder(env), PositiveValor)
  }

  /** The debt a row contributes: only usable rows with a positive total. */
  function DebtFrom(env: Environment): seq<Cell> -> Option<Debt> {
    Keep(Usable, DebtBuilder(env), PositiveTotal)
  }

  // ---------------------------------------------------------------------------------------
  // Sheets

  /** A header cell names the word: it is truthy and its lower-cased text contains the word. */
  predicate HeaderMentions(h: Cell, word: string) {
    Filled(h) && Contains(ToLower(CellText(h)), word)
  }

  /** The sheet name or one of its header cells mentions the word. */
  predicate Mentions(name: string, header: seq<Cell>, word: string) {
    Contains(ToLower(name), word) || exists i :: 0 <= i < |header| && HeaderMentions(header[i], word)
  }

  /** The classification: incomes first, then expenses, then debts; other sheets are ignored. */
  function Kind(name: string, header: seq<Cell>): (k: SheetKind)
    ensures k == ReceitaSheet <==> Mentions(name, header, "receita")
    ensures k == DespesaSheet <==> !Mentions(name, header, "receita") && Mentions(name, header, "despesa")
    ensures k == DividaSheet <==> !Mentions(name, header, "receita") && !Mentions(name, header, "despesa")
                                  && Mentions(name, header, "divida")
  {
    if Mentions(name, header, "receita") then ReceitaSheet
    else if Mentions(name, header, "despesa") then DespesaSheet
    else if Mentions(name, header, "divida") then DividaSheet
    else OtherSheet
  }

  /** At most the first 1000 data rows. */
  function Limited(rows: seq<seq<Cell>>): (r: seq<seq<Cell>>)
    ensures |r| <= MaxRecordsPerSheet && |r| <= |rows| && r == rows[..|r|]
    ensures |rows| <= MaxRecordsPerSheet ==> r == rows
  {
    if |rows| <= MaxRecordsPerSheet then rows else rows[..MaxRecordsPerSheet]
  }

  const Empty := ExcelData([], [], [])

  function Concat(a: ExcelData, b: ExcelData): ExcelData {
    ExcelData(a.receitas + b.receitas, a.despesas + b.despesas, a.dividas + b.dividas)
  }

  function Total(d: ExcelData): nat {
    |d.receitas| + |d.despesas| + |d.dividas|
  }

  /** What the data rows of a sheet of the given kind contribute. */
  function Contribution(kind: SheetKind, data: seq<seq<Cell>>, env: Environment): (r: ExcelData)
    ensures Total(r) <= |data|
  {
    match kind
    case ReceitaSheet => ExcelData(FilterMap(data, MovementFrom(env)), [], [])
    case DespesaSheet => ExcelData([], FilterMap(data, MovementFrom(env)), [])
    case DividaSheet => ExcelData([], [], FilterMap(data, DebtFrom(env)))
    case OtherSheet => Empty
  }

  /** What one sheet contributes to the result: nothing without a data row, at most 1000 records. */
  function SheetData(sheet: Sheet, env: Environment): (r: ExcelData)
    ensures |sheet.rows| < 2 ==> r == Empty
    ensures Total(r) <= MaxRecordsPerSheet
  {
    if |sheet.rows| < 2 then Empty
    else Contribution(Kind(sheet.name, sheet.rows[0]), Limited(sheet.rows[1..]), env)
  }

  function SheetReader(env: Environment): Sheet -> ExcelData {
    sheet => SheetData(sheet, env)
  }

  /** The contributions of all sheets, in order. */
  function Collected(sheets: seq<Sheet>, read: Sheet -> ExcelData): ExcelData {
    if sheets == [] then Empty
    else Concat(Collected(sheets[..|sheets| - 1], read), read(sheets[|sheets| - 1]))
  }

  /** The result of reading all sheets in order. */
  function Parsed(sheets: seq<Sheet>, env: Environment): ExcelData {
    Collected(sheets, SheetReader(env))
  }

  /** `parseExcelFile`: the size check, the reader, the sheets, and the total-record check. */
  function ParseResult(byteLength: nat, workbook: Option<seq<Sheet>>, env: Environment): (r: Result<ExcelData, ImportError>)
    ensures r == Err(FileTooLarge) <==> byteLength > MaxFileSizeBytes
    ensures r == Err(Unreadable) <==> byteLength <= MaxFileSizeBytes && workbook.None?
    ensures r.Ok? ==> workbook.Some? && r.value == Parsed(workbook.value, env) && Total(r.value) <= 3 * MaxRecordsPerSheet
    ensures byteLength <= MaxFileSizeBytes && workbook.Some? && Total(Parsed(workbook.value, env)) <= 3 * MaxRecordsPerSheet ==> r.Ok?
  {
    if byteLength > MaxFileSizeBytes then Err(FileTooLarge)
    else if workbook.None? then Err(Unreadable)
    else
      var d := Parsed(workbook.value, env);
      if Total(d) > 3 * MaxRecordsPerSheet then Err(TooManyRecords) else Ok(d)
  }

  // ---------------------------------------------------------------------------------------
  // Properties of the reader

  /** Every income or expense kept has a positive value within the bounds and bounded texts. */
  predicate MovementOk(m: Movement) {
    0.0 < m.valor <= MaxValor
    && m.descricao != [] && Utf16Length(m.descricao) <= MaxStringLength
    && m.categoria != [] && Utf16Length(m.categoria) <= MaxStringLength
    && m.mesReferencia != [] && |m.mesReferencia| <= 7
    && (m.observacoes.Some? ==> Utf16Length(m.observacoes.value) <= MaxObservacoesLength)
  }

  /** Every debt kept has a positive total, paid plus remaining equal to the total, and status 'pago' iff fully paid. */
  predicate DebtOk(d: Debt) {
    0.0 < d.valorTotal <= MaxValor
    && 0.0 <= d.valorPago <= d.valorTotal
    && d.valorPago + d.valorRestante == d.valorTotal
    && (d.status == "pago" <==> d.valorPago == d.valorTotal)
    && (d.status == "pago" || d.status == "pendente")
  }

  predicate ExcelOk(data: ExcelData) {
    (forall i :: 0 <= i < |data.receitas| ==> MovementOk(data.receitas[i]))
    && (forall i :: 0 <= i < |data.despesas| ==> MovementOk(data.despesas[i]))
    && (forall i :: 0 <= i < |data.dividas| ==> DebtOk(data.dividas[i]))
  }

  lemma KeptMovementsOk(rows: seq<seq<Cell>>, env: Environment)
    ensures forall i :: 0 <= i < |FilterMap(rows, MovementFrom(env))| ==> MovementOk(FilterMap(rows, MovementFrom(env))[i])
  {
    FilterMapFrom(rows, MovementFrom(env));
  }

  lemma KeptDebtsOk(rows: seq<seq<Cell>>, env: Environment)
    ensures forall i :: 0 <= i < |FilterMap(rows, DebtFrom(env))| ==> DebtOk(FilterMap(rows, DebtFrom(env))[i])
  {
    FilterMapFrom(rows, DebtFrom(env));
  }

  /** Everything one sheet contributes satisfies the record rules. */
  lemma SheetDataOk(sheet: Sheet, env: Environment)
    ensures ExcelOk(SheetData(sheet, env))
  {
    if |sheet.rows| >= 2 {
      assert SheetData(sheet, env) == Contribution(Kind(sheet.name, sheet.rows[0]), Limited(sheet.rows[1..]), env);
      KeptMovementsOk(Limited(sheet.rows[1..]), env);
      KeptDebtsOk(Limited(sheet.rows[1..]), env);
    }
  }

  /** Everything the reader returns satisfies the record rules. */
  lemma {:induction false} ParsedOk(sheets: seq<Sheet>, env: Environment)
    ensures ExcelOk(Parsed(sheets, env))
  {
    if sheets != [] {
      ParsedOk(sheets[..|sheets| - 1], env);
      SheetDataOk(sheets[|sheets| - 1], env);
    }
  }

  /** Rows after the first 1000 data rows make no difference. */
  lemma SheetRowLimit(sheet: Sheet, env: Environment)
    requires |sheet.rows| > MaxRecordsPerSheet + 1
    ensures SheetData(sheet, env) == SheetData(Sheet(sheet.name, sheet.rows[..MaxRecordsPerSheet + 1]), env)
  {
    var cut := sheet.rows[..MaxRecordsPerSheet + 1];
    assert cut[0] == sheet.rows[0];
    assert Limited(cut[1..]) == Limited(sheet.rows[1..]);
  }

  /** A data row contributes to the sheet only if its first cell is truthy. */
  lemma UnusableRowIgnored(rows: seq<seq<Cell>>, row: seq<Cell>, env: Environment)
    requires !Usable(row)
    ensures FilterMap(rows + [row], MovementFrom(env)) == FilterMap(rows, MovementFrom(env))
    ensures FilterMap(rows + [row], DebtFrom(env)) == FilterMap(rows, DebtFrom(env))
  {
    assert (rows + [row])[..|rows|] == rows;
  }

  lemma {:induction false} CollectedAppend(a: seq<Sheet>, b: seq<Sheet>, read: Sheet -> ExcelData)
    ensures Collected(a + b, read) == Concat(Collected(a, read), Collected(b, read))
    decreases |b|
  {
    if b == [] {
      assert a + b == a;
      assert Collected(b, read) == Empty;
    } else {
      var ab := a + b;
      assert ab[..|ab| - 1] == a + b[..|b| - 1];
      CollectedAppend(a, b[..|b| - 1], read);
    }
  }

  /** The records of the workbook are those of its sheets, in sheet order. */
  lemma ParsedAppend(a: seq<Sheet>, b: seq<Sheet>, env: Environment)
    ensures Parsed(a + b, env) == Concat(Parsed(a, env), Parsed(b, env))
  {
    CollectedAppend(a, b, SheetReader(env));
  }

  // ---------------------------------------------------------------------------------------
  // The reader's loops

  /** The body of the `forEach` over the sheets. */
  method ReadSheet(result: ExcelData, sheet: Sheet, env: Environment) returns (next: ExcelData)
    ensures next == Concat(result, SheetData(sheet, env))
  {
    assert result.receitas + [] == result.receitas && result.despesas + [] == result.despesas
        && result.dividas + [] == result.dividas;
    if |sheet.rows| < 2 {
      return result;
    }
    var header := sheet.rows[0];
    var limitedRows := Limited(sheet.rows[1..]);
    var kind := Kind(sheet.name, header);
    assert SheetData(sheet, env) == Contribution(kind, limitedRows, env);
    next := result;
    match kind
    case ReceitaSheet =>
      var receitas := PushKept(result.receitas, limitedRows, Usable, MovementBuilder(env), PositiveValor);
      next := next.(receitas := receitas);
    case DespesaSheet =>
      var despesas := PushKept(result.despesas, limitedRows, Usable, MovementBuilder(env), PositiveValor);
      next := next.(despesas := despesas);
    case DividaSheet =>
      var dividas := PushKept(result.dividas, limitedRows, Usable, DebtBuilder(env), PositiveTotal);
      next := next.(dividas := dividas);
    case OtherSheet =>
  }


  /**
   * `parseExcelFile`, with the file's size and the workbook the XLSX reader produced (None
   * when it could not read the file) as inputs.
   */
  method ParseExcelFile(byteLength: nat, workbook: Option<seq<Sheet>>, env: Environment)
    returns (r: Result<ExcelData, ImportError>)
    ensures r == ParseResult(byteLength, workbook, env)
    ensures r.Ok? ==> ExcelOk(r.value)
  {
    if byteLength > MaxFileSizeBytes {
      return Err(FileTooLarge);
    }
    if workbook.None? {
      return Err(Unreadable);
    }
    var sheets := workbook.value;
    var result := Empty;
    for i := 0 to |sheets|
      invariant result == Parsed(sheets[..i], env)
    {
      assert sheets[..i + 1][..i] == sheets[..i];
      result := ReadSheet(result, sheets[i], env);
    }
    assert sheets[..|sheets|] == sheets;
    var totalRecords := |result.receitas| + |result.despesas| + |result.dividas|;
    if totalRecords > MaxRecordsPerSheet * 3 {
      return Err(TooManyRecords);
    }
    ParsedOk(sheets, env);
    return Ok(result);
  }
}
