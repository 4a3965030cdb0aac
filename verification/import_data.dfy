/**
 * The spreadsheet import of the data page (`processExcelData` in
 * src/components/ImportData.tsx). Each sheet of the workbook arrives as the object rows of
 * `XLSX.utils.sheet_to_json`: a map from column header to cell. A sheet is classified as
 * incomes, expenses or debts by its name or by the columns of its first row, or is read
 * generically. Then every row is turned into a record and inserted into the remote table when
 * its amount is positive, and a counter counts the insert calls.
 *
 * A JavaScript exception inside the loops (a missing user, a description that is not text)
 * ends the import; the inserts already issued stay issued.
 */
module ImportData {
  import opened Wrappers
  import opened JsText
  import opened JsNumber
  import opened Calendar
  import opened Lists
  import opened Spreadsheet

  /** An object row of `sheet_to_json`: header to value; a header that is absent reads as undefined. */
  type Row = map<string, Cell>

  datatype Sheet = Sheet(name: string, rows: seq<Row>)

  /** `row[key]`. */
  function Field(row: Row, key: string): (c: Cell)
    ensures key !in row ==> c == Blank
  {
    if key in row then row[key] else Blank
  }

  /** The cell is the fallback or a truthy cell of one of the columns. */
  predicate FromColumns(row: Row, keys: seq<string>, fallback: Cell, c: Cell) {
    c == fallback || (Filled(c) && exists i :: 0 <= i < |keys| && c == Field(row, keys[i]))
  }

  /** `row[keys[0]] || row[keys[1]] || ... || fallback`. */
  function Pick(row: Row, keys: seq<string>, fallback: Cell): (c: Cell)
    ensures Filled(c) || c == fallback
    ensures !fallback.Blank? ==> !c.Blank?
  {
    if keys == [] then fallback else Or(Field(row, keys[0]), Pick(row, keys[1..], fallback))
  }

  /** The picked cell is the fallback or a truthy cell of one of the columns. */
  lemma {:induction false} PickFrom(row: Row, keys: seq<string>, fallback: Cell)
    ensures FromColumns(row, keys, fallback, Pick(row, keys, fallback))
  {
    if keys != [] && !Filled(Field(row, keys[0])) {
      var rest := Pick(row, keys[1..], fallback);
      PickFrom(row, keys[1..], fallback);
      if rest != fallback {
        var i :| 0 <= i < |keys[1..]| && rest == Field(row, keys[1..][i]);
        assert keys[1..][i] == keys[i + 1];
      }
    }
  }

  /** The value of the first key whose cell is truthy is the one taken. */
  lemma {:induction false} PickFirst(row: Row, keys: seq<string>, fallback: Cell, k: nat)
    requires k < |keys| && Filled(Field(row, keys[k]))
    requires forall m :: 0 <= m < k ==> !Filled(Field(row, keys[m]))
    ensures Pick(row, keys, fallback) == Field(row, keys[k])
  {
    if k > 0 {
      PickFirst(row, keys[1..], fallback, k - 1);
    }
  }

  /** When no key has a truthy cell, the fallback is taken. */
  lemma {:induction false} PickFallback(row: Row, keys: seq<string>, fallback: Cell)
    requires forall m :: 0 <= m < |keys| ==> !Filled(Field(row, keys[m]))
    ensures Pick(row, keys, fallback) == fallback
  {
    if keys != [] {
      PickFallback(row, keys[1..], fallback);
    }
  }

  // Column names the import looks for, in the order it tries them.
  const DescricaoReceitaKeys: seq<string> := ["Descrição", "Descrição", "descricao"]
  const DescricaoKeys: seq<string> := ["Descrição", "descricao"]
  const ValorKeys: seq<string> := ["Valor", "valor"]
  const CategoriaKeys: seq<string> := ["Categoria", "categoria"]
  const DataKeys: seq<string> := ["Data", "data"]
  const MesKeys: seq<string> := ["Mês", "mes"]
  const ObservacoesKeys: seq<string> := ["Observações", "observacoes"]
  const ValorTotalKeys: seq<string> := ["Valor Total", "valor_total", "Valor", "valor"]
  const ValorPagoKeys: seq<string> := ["Valor Pago", "valor_pago"]
  const VencimentoKeys: seq<string> := ["Vencimento", "vencimento"]
  const StatusKeys: seq<string> := ["Status", "status"]

  /** The number 0 as a cell. */
  const Zero: Cell := Numeric(0.0, "0")

  /** `parseFloat(String(row[k0] || row[k1] || ... || 0).replace(',', '.'))`. */
  function Amount(row: Row, keys: seq<string>): (n: Num)
    ensures n == ParseFloat(ReplaceFirst(CellText(Pick(row, keys, Zero)), ',', '.'))
  {
    ParseFloat(ReplaceFirst(CellText(Pick(row, keys, Zero)), ',', '.'))
  }

  /** `valor > 0` in JavaScript: false for NaN. */
  predicate Positive(n: Num) {
    n.Finite? && n.v > 0.0
  }

  /** An income or expense as inserted: the cells are passed on as the sheet holds them. */
  datatype Movement = Movement(
    userId: string, descricao: Cell, valor: Num, categoria: Cell,
    data: Cell, mesReferencia: Cell, observacoes: Cell)

  datatype Debt = Debt(
    userId: string, descricao: Cell, valorTotal: Num, valorPago: Num, valorRestante: Num,
    categoria: Cell, dataVencimento: Cell, status: Cell, observacoes: Cell)

  /** One `insert` call: the table and the record. */
  datatype Insert = IntoReceitas(m: Movement) | IntoDespesas(m: Movement) | IntoDividas(d: Debt)

  datatype Kind = ReceitaSheet | DespesaSheet | DividaSheet | GenericSheet

  /** The sheet name or a (lower-cased) column of the first row contains the word. */
  predicate Mentions(name: string, firstRow: Row, word: string) {
    Contains(ToLower(name), word) || exists col :: col in firstRow && Contains(ToLower(col), word)
  }

  /** The classification: incomes first, then expenses, then debts, else generic. */
  function KindOf(name: string, firstRow: Row): (k: Kind)
    ensures k == ReceitaSheet <==> Mentions(name, firstRow, "receita")
    ensures k == DespesaSheet <==> !Mentions(name, firstRow, "receita") && Mentions(name, firstRow, "despesa")
    ensures k == DividaSheet <==>
      !Mentions(name, firstRow, "receita") && !Mentions(name, firstRow, "despesa") && Mentions(name, firstRow, "divida")
    ensures k == GenericSheet <==>
      !Mentions(name, firstRow, "receita") && !Mentions(name, firstRow, "despesa") && !Mentions(name, firstRow, "divida")
  {
    if Mentions(name, firstRow, "receita") then ReceitaSheet
    else if Mentions(name, firstRow, "despesa") then DespesaSheet
    else if Mentions(name, firstRow, "divida") then DividaSheet
    else GenericSheet
  }

  /** `new Date().toISOString().split('T')[0]`, today's UTC date. */
  function TodayText(now: CalendarDate): (s: string)
    ensures |s| >= 10
  {
    IsoDateText(now)
  }

  /** `new Date().toISOString().slice(0, 7)`: `YYYY-MM`. */
  function MonthText(now: CalendarDate): (s: string)
    ensures |s| == 7
  {
    TodayText(now)[..7]
  }

  /** The record of a row of an income sheet. */
  function ReceitaOf(userId: string, row: Row, now: CalendarDate): (m: Movement)
  {
    Movement(userId, Pick(row, DescricaoReceitaKeys, Text("Receita importada")), Amount(row, ValorKeys),
      Pick(row, CategoriaKeys, Text("Outros")), Pick(row, DataKeys, Text(TodayText(now))),
      Pick(row, MesKeys, Text(MonthText(now))), Pick(row, ObservacoesKeys, Blank))
  }

  /**
   * Each field of the record is a truthy cell of its columns or its default: the user's id,
   * the parsed amount, and today's date and `YYYY-MM` when the row has none.
   */
  lemma ReceitaFields(userId: string, row: Row, now: CalendarDate)
    ensures var m := ReceitaOf(userId, row, now);
      && m.userId == userId && m.valor == Amount(row, ValorKeys)
      && FromColumns(row, DescricaoReceitaKeys, Text("Receita importada"), m.descricao)
      && FromColumns(row, CategoriaKeys, Text("Outros"), m.categoria)
      && FromColumns(row, DataKeys, Text(TodayText(now)), m.data)
      && FromColumns(row, MesKeys, Text(MonthText(now)), m.mesReferencia)
      && FromColumns(row, ObservacoesKeys, Blank, m.observacoes)
      && !m.descricao.Blank? && !m.categoria.Blank? && !m.data.Blank? && !m.mesReferencia.Blank?
  {
    PickFrom(row, DescricaoReceitaKeys, Text("Receita importada"));
    PickFrom(row, CategoriaKeys, Text("Outros"));
    PickFrom(row, DataKeys, Text(TodayText(now)));
    PickFrom(row, MesKeys, Text(MonthText(now)));
    PickFrom(row, ObservacoesKeys, Blank);
  }

  /** The record of a row of an expense sheet. */
  function DespesaOf(userId: string, row: Row, now: CalendarDate): (m: Movement)
  {
    Movement(userId, Pick(row, DescricaoKeys, Text("Despesa importada")), Amount(row, ValorKeys),
      Pick(row, CategoriaKeys, Text("Outros")), Pick(row, DataKeys, Text(TodayText(now))),
      Pick(row, MesKeys, Text(MonthText(now))), Pick(row, ObservacoesKeys, Blank))
  }

  /**
   * Each field of the record is a truthy cell of its columns or its default: the user's id,
   * the parsed amount, and today's date and `YYYY-MM` when the row has none.
   */
  lemma DespesaFields(userId: string, row: Row, now: CalendarDate)
    ensures var m := DespesaOf(userId, row, now);
      && m.userId == userId && m.valor == Amount(row, ValorKeys)
      && FromColumns(row, DescricaoKeys, Text("Despesa importada"), m.descricao)
      && FromColumns(row, CategoriaKeys, Text("Outros"), m.categoria)
      && FromColumns(row, DataKeys, Text(TodayText(now)), m.data)
      && FromColumns(row, MesKeys, Text(MonthText(now)), m.mesReferencia)
      && FromColumns(row, ObservacoesKeys, Blank, m.observacoes)
      && !m.descricao.Blank? && !m.categoria.Blank? && !m.data.Blank? && !m.mesReferencia.Blank?
  {
    PickFrom(row, DescricaoKeys, Text("Despesa importada"));
    PickFrom(row, CategoriaKeys, Text("Outros"));
    PickFrom(row, DataKeys, Text(TodayText(now)));
    PickFrom(row, MesKeys, Text(MonthText(now)));
    PickFrom(row, ObservacoesKeys, Blank);
  }

  /** The record of a row of a debt sheet; the remaining value is assigned after construction. */
  function DebtOf(userId: string, row: Row): (d: Debt)
    ensures d.valorTotal == Amount(row, ValorTotalKeys) && d.valorPago == Amount(row, ValorPagoKeys)
    ensures d.valorRestante.Finite? <==> d.valorTotal.Finite? && d.valorPago.Finite?
    ensures d.valorRestante.Finite? ==> d.valorPago.v + d.valorRestante.v == d.valorTotal.v
  {
    var total := Amount(row, ValorTotalKeys);
    var pago := Amount(row, ValorPagoKeys);
    Debt(userId, Pick(row, DescricaoKeys, Text("Dívida importada")), total, pago, Sub(total, pago),
      Pick(row, CategoriaKeys, Text("Outros")), Pick(row, VencimentoKeys, Blank),
      Pick(row, StatusKeys, Text("pendente")), Pick(row, ObservacoesKeys, Blank))
  }

  /** A generic row's description marks an income. */
  predicate NamesIncome(descricao: string) {
    Contains(ToLower(descricao), "salário") || Contains(ToLower(descricao), "receita")
  }

  /**
   * What every inserted record satisfies: a positive amount, or for a debt a positive total
   * and the remaining value total - paid.
   */
  predicate InsertOk(ins: Insert) {
    match ins
    case IntoReceitas(m) => Positive(m.valor)
    case IntoDespesas(m) => Positive(m.valor)
    case IntoDividas(d) =>
      Positive(d.valorTotal) && d.valorRestante == Sub(d.valorTotal, d.valorPago)
  }

  /** What one row does: nothing, one insert, or an exception. */
  datatype Step = Skip | Push(ins: Insert) | Throw

  /**
   * The body of the row loop. `user` is the signed-in user; without one, `user!.id` throws
   * as soon as a record is built. In a generic sheet a description that is not text has no
   * `toLowerCase` and throws.
   */
  function RowStep(kind: Kind, row: Row, user: Option<string>, now: CalendarDate): (s: Step)
    ensures s.Push? ==> InsertOk(s.ins)
  {
    match kind
    case ReceitaSheet =>
      if user.None? then Throw
      else
        var receita := ReceitaOf(user.value, row, now);
        if Positive(receita.valor) then Push(IntoReceitas(receita)) else Skip
    case DespesaSheet =>
      if user.None? then Throw
      else
        var despesa := DespesaOf(user.value, row, now);
        if Positive(despesa.valor) then Push(IntoDespesas(despesa)) else Skip
    case DividaSheet =>
      if user.None? then Throw
      else
        var divida := DebtOf(user.value, row);
        if Positive(divida.valorTotal) then Push(IntoDividas(divida)) else Skip
    case GenericSheet =>
      var valor := Amount(row, ValorKeys);
      if !Positive(valor) then Skip
      else GenericStep(row, valor, user, now)
  }

  /** A generic row with a positive amount goes to incomes or expenses by its description. */
  function GenericStep(row: Row, valor: Num, user: Option<string>, now: CalendarDate): (s: Step)
    requires Positive(valor)
    ensures s.Push? ==> !s.ins.IntoDividas? && s.ins.m.valor == valor
  {
    var descricao := Pick(row, DescricaoKeys, Text("Item importado"));
    if !descricao.Text? || user.None? then Throw
    else
      var m := Movement(user.value, descricao, valor, Pick(row, CategoriaKeys, Text("Outros")),
        Pick(row, DataKeys, Text(TodayText(now))), Pick(row, MesKeys, Text(MonthText(now))),
        Pick(row, ObservacoesKeys, Blank));
      if NamesIncome(descricao.s) then Push(IntoReceitas(m)) else Push(IntoDespesas(m))
  }

  // ---------------------------------------------------------------------------------------
  // Runs: the inserts issued, and whether an exception ended the import.

  datatype Run = Run(inserts: seq<Insert>, thrown: bool)

  const Nothing := Run([], false)

  function StepRun(s: Step): (r: Run)
    ensures |r.inserts| <= 1
  {
    match s
    case Skip => Nothing
    case Push(ins) => Run([ins], false)
    case Throw => Run([], true)
  }

  /** a, then b. */
  function Then(a: Run, b: Run): (r: Run)
    ensures r.inserts == a.inserts + b.inserts && r.thrown == b.thrown
  {
    Run(a.inserts + b.inserts, b.thrown)
  }

  /** Runs each element in order and stops at the first exception. */
  function Chain<T>(xs: seq<T>, run: T -> Run): (r: Run)
  {
    if xs == [] then Nothing
    else
      var before := Chain(xs[..|xs| - 1], run);
      if before.thrown then before else Then(before, run(xs[|xs| - 1]))
  }

  /** One more element, when the run so far has not thrown. */
  lemma ChainStep<T>(xs: seq<T>, run: T -> Run, i: nat)
    requires i < |xs| && !Chain(xs[..i], run).thrown
    ensures Chain(xs[..i + 1], run) == Then(Chain(xs[..i], run), run(xs[i]))
  {
    assert xs[..i + 1][..i] == xs[..i];
  }

  /** One more row, by what its step does. */
  lemma ChainNext<T>(xs: seq<T>, step: T -> Step, i: nat)
    requires i < |xs| && !Chain(xs[..i], StepRunner(step)).thrown
    ensures var before := Chain(xs[..i], StepRunner(step));
      var after := Chain(xs[..i + 1], StepRunner(step));
      (step(xs[i]).Skip? ==> after == before)
      && (step(xs[i]).Push? ==> after == Run(before.inserts + [step(xs[i]).ins], false))
      && (step(xs[i]).Throw? ==> after == Run(before.inserts, true))
  {
    ChainStep(xs, StepRunner(step), i);
  }

  /** After an exception nothing more happens. */
  lemma {:induction false} ChainStops<T>(xs: seq<T>, run: T -> Run, i: nat)
    requires i <= |xs| && Chain(xs[..i], run).thrown
    ensures Chain(xs, run) == Chain(xs[..i], run)
    decreases |xs| - i
  {
    if i < |xs| {
      assert xs[..i + 1][..i] == xs[..i];
      ChainStops(xs, run, i + 1);
    }
    else {
      assert xs[..i] == xs;
    }
  }

  /** Every insert of a chain is an insert of one of its elements. */
  lemma {:induction false} ChainInserts<T>(xs: seq<T>, run: T -> Run, ok: Insert -> bool)
    requires forall x :: x in xs ==> forall k :: 0 <= k < |run(x).inserts| ==> ok(run(x).inserts[k])
    ensures forall k :: 0 <= k < |Chain(xs, run).inserts| ==> ok(Chain(xs, run).inserts[k])
  {
    if xs != [] {
      var init := xs[..|xs| - 1];
      assert forall x :: x in init ==> x in xs;
      ChainInserts(init, run, ok);
    }
  }

  /** A chain issues at most as many inserts as it has elements that each issue at most one. */
  lemma {:induction false} ChainAtMostOne<T>(xs: seq<T>, run: T -> Run)
    requires forall x :: x in xs ==> |run(x).inserts| <= 1
    ensures |Chain(xs, run).inserts| <= |xs|
  {
    if xs != [] {
      var init := xs[..|xs| - 1];
      assert forall x :: x in init ==> x in xs;
      ChainAtMostOne(init, run);
    }
  }

  function StepRunner<T>(step: T -> Step): T -> Run {
    x => StepRun(step(x))
  }

  function RowStepper(kind: Kind, user: Option<string>, now: CalendarDate): Row -> Step {
    row => RowStep(kind, row, user, now)
  }

  function RowRunner(kind: Kind, user: Option<string>, now: CalendarDate): Row -> Run {
    StepRunner(RowStepper(kind, user, now))
  }

  /** Each sheet's row step, selected by the sheet's first row. */
  function SheetStepper(user: Option<string>, now: CalendarDate): Sheet -> (Row -> Step) {
    (sheet: Sheet) => RowStepper(if sheet.rows == [] then GenericSheet else KindOf(sheet.name, sheet.rows[0]), user, now)
  }

  /** A sheet: skipped when it has no rows, otherwise every row in order. */
  function SheetsRunner(stepOf: Sheet -> (Row -> Step)): Sheet -> Run {
    (sheet: Sheet) => if sheet.rows == [] then Nothing else Chain(sheet.rows, StepRunner(stepOf(sheet)))
  }

  function SheetRun(sheet: Sheet, user: Option<string>, now: CalendarDate): (r: Run)
    ensures sheet.rows == [] ==> r == Nothing
    ensures sheet.rows != [] ==> r == Chain(sheet.rows, RowRunner(KindOf(sheet.name, sheet.rows[0]), user, now))
  {
    SheetsRunner(SheetStepper(user, now))(sheet)
  }

  /** The whole import: an unreadable file throws before anything is inserted. */
  function Process(workbook: Option<seq<Sheet>>, user: Option<string>, now: CalendarDate): (r: Run)
    ensures workbook.None? ==> r == Run([], true)
  {
    if workbook.None? then Run([], true) else Chain(workbook.value, SheetsRunner(SheetStepper(user, now)))
  }

  datatype Outcome = Imported(count: nat) | ImportFailed

  // ---------------------------------------------------------------------------------------
  // Properties

  lemma RowInsertOk(kind: Kind, row: Row, user: Option<string>, now: CalendarDate)
    ensures forall k :: 0 <= k < |RowRunner(kind, user, now)(row).inserts| ==> InsertOk(RowRunner(kind, user, now)(row).inserts[k])
  {
    assert RowRunner(kind, user, now)(row) == StepRun(RowStep(kind, row, user, now));
  }

  /**
   * Incomes and expenses are inserted only with a positive amount; debts only with a positive
   * total, and their remaining value is total - paid.
   */
  lemma ProcessInsertsOk(workbook: Option<seq<Sheet>>, user: Option<string>, now: CalendarDate)
    ensures forall k :: 0 <= k < |Process(workbook, user, now).inserts| ==> InsertOk(Process(workbook, user, now).inserts[k])
  {
    if workbook.Some? {
      forall sheet | sheet in workbook.value
        ensures forall k :: 0 <= k < |SheetsRunner(SheetStepper(user, now))(sheet).inserts| ==> InsertOk(SheetsRunner(SheetStepper(user, now))(sheet).inserts[k])
      {
        if sheet.rows != [] {
          var kind := KindOf(sheet.name, sheet.rows[0]);
          assert SheetsRunner(SheetStepper(user, now))(sheet) == Chain(sheet.rows, RowRunner(kind, user, now));
          forall row | row in sheet.rows
            ensures forall k :: 0 <= k < |RowRunner(kind, user, now)(row).inserts| ==> InsertOk(RowRunner(kind, user, now)(row).inserts[k])
          {
            RowInsertOk(kind, row, user, now);
          }
          ChainInserts(sheet.rows, RowRunner(kind, user, now), InsertOk);
        }
      }
      ChainInserts(workbook.value, SheetsRunner(SheetStepper(user, now)), InsertOk);
    }
  }

  /** Each row of a sheet issues at most one insert. */
  lemma SheetAtMostOnePerRow(sheet: Sheet, user: Option<string>, now: CalendarDate)
    ensures |SheetRun(sheet, user, now).inserts| <= |sheet.rows|
  {
    if sheet.rows != [] {
      ChainAtMostOne(sheet.rows, RowRunner(KindOf(sheet.name, sheet.rows[0]), user, now));
    }
  }

  /** Without a signed-in user a typed sheet throws at its first row. */
  lemma NoUserThrows(kind: Kind, row: Row, now: CalendarDate)
    requires kind != GenericSheet
    ensures RowStep(kind, row, None, now) == Throw
  {
  }

  /** A generic row with a positive amount is handled by its description. */
  lemma GenericRow(row: Row, user: Option<string>, now: CalendarDate)
    requires Positive(Amount(row, ValorKeys))
    ensures RowStep(GenericSheet, row, user, now) == GenericStep(row, Amount(row, ValorKeys), user, now)
  {
    var valor := Amount(row, ValorKeys);
    assert Positive(valor);
  }

  /** A generic row with a positive amount goes to incomes iff its description names an income. */
  lemma GenericRoute(row: Row, userId: string, now: CalendarDate)
    requires Positive(Amount(row, ValorKeys))
    requires Pick(row, DescricaoKeys, Text("Item importado")).Text?
    ensures var s := RowStep(GenericSheet, row, Some(userId), now);
      s.Push? && (s.ins.IntoReceitas? <==> NamesIncome(Pick(row, DescricaoKeys, Text("Item importado")).s))
      && (s.ins.IntoDespesas? <==> !NamesIncome(Pick(row, DescricaoKeys, Text("Item importado")).s))
  {
    GenericRow(row, Some(userId), now);
  }

  /** A generic row with a positive amount and a description that is not text throws. */
  lemma GenericNonTextThrows(row: Row, user: Option<string>, now: CalendarDate)
    requires Positive(Amount(row, ValorKeys))
    requires !Pick(row, DescricaoKeys, Text("Item importado")).Text?
    ensures RowStep(GenericSheet, row, user, now) == Throw
  {
    GenericRow(row, user, now);
  }

  /** A generic row without a positive amount is skipped, with or without a user. */
  lemma GenericSkipsNonPositive(row: Row, user: Option<string>, now: CalendarDate)
    requires !Positive(Amount(row, ValorKeys))
    ensures RowStep(GenericSheet, row, user, now) == Skip
  {
    var valor := Amount(row, ValorKeys);
    assert !Positive(valor);
  }

  /** The month default is today's `YYYY-MM`, not a `MMM/YY` key. */
  lemma MonthDefaultShape(now: CalendarDate)
    requires 0 <= now.year <= 9999
    ensures |MonthText(now)| == 7 && MonthText(now)[4] == '-' && AllDigits(MonthText(now)[..4])
    ensures '/' !in MonthText(now)
  {
    IsoDateRoundTrip(now);
    var s := TodayText(now);
    assert MonthText(now)[..4] == s[0..4];
    assert forall k :: 0 <= k < 7 ==> MonthText(now)[k] == s[k];
  }

  /** Text in the "Valor" column is what is read, once its first comma is a point. */
  lemma AmountText(row: Row, s: string)
    requires Field(row, "Valor") == Text(s) && s != []
    ensures Amount(row, ValorKeys) == ParseFloat(ReplaceFirst(s, ',', '.'))
  {
    PickFirst(row, ValorKeys, Zero, 0);
  }

  /** Digits contain no comma. */
  lemma DigitsNoComma(i: string)
    requires AllDigits(i)
    ensures ',' !in i
  {
    forall k | 0 <= k < |i| ensures i[k] != ',' { assert IsDigit(i[k]); }
  }

  /** "I,F" in the amount column reads as the decimal number I.F. */
  lemma AmountDecimalComma(row: Row, i: string, f: string)
    requires AllDigits(i) && AllDigits(f) && i != []
    requires Field(row, "Valor") == Text(i + "," + f)
    ensures Amount(row, ValorKeys) == Finite(Mantissa(DigitsValue(i), DigitsValue(f), |f|))
  {
    AmountText(row, i + "," + f);
    DigitsNoComma(i);
    ReplaceFirstAt(i, ',', '.', f);
    ParseFloatFraction(i, f);
  }

  /** Replacing the first comma of "I,J,F" gives "I.J,F". */
  lemma FirstCommaText(i: string, j: string, f: string)
    requires AllDigits(i)
    ensures ReplaceFirst(i + "," + j + "," + f, ',', '.') == i + "." + j + [','] + f
  {
    DigitsNoComma(i);
    assert i + "," + j + "," + f == i + [','] + (j + "," + f);
    ReplaceFirstAt(i, ',', '.', j + "," + f);
  }

  /** Only the first comma becomes a point: "I,J,F" reads as I.J. */
  lemma AmountFirstCommaOnly(row: Row, i: string, j: string, f: string)
    requires AllDigits(i) && AllDigits(j) && i != []
    requires Field(row, "Valor") == Text(i + "," + j + "," + f)
    ensures Amount(row, ValorKeys) == Finite(Mantissa(DigitsValue(i), DigitsValue(j), |j|))
  {
    AmountText(row, i + "," + j + "," + f);
    FirstCommaText(i, j, f);
    ParseFloatStops(i, j, ',', f);
  }

  /** A whole number n > 0 in the first column tried reads as n. */
  lemma AmountNumber(row: Row, keys: seq<string>, n: nat)
    requires keys != [] && 0 < n && Field(row, keys[0]) == Numeric(n as real, NatToString(n))
    ensures Amount(row, keys) == Finite(n as real)
  {
    var s := NatToString(n);
    PickFirst(row, keys, Zero, 0);
    assert ',' !in s by {
      forall k | 0 <= k < |s| ensures s[k] != ',' { assert IsDigit(s[k]); }
    }
    ParseFloatDigits(s);
    NatToStringValue(n);
  }

  /** A debt row with a positive total is inserted as built. */
  lemma DebtRowInserted(row: Row, userId: string, now: CalendarDate)
    requires Positive(Amount(row, ValorTotalKeys))
    ensures RowStep(DividaSheet, row, Some(userId), now) == Push(IntoDividas(DebtOf(userId, row)))
  {
    var d := DebtOf(userId, row);
    assert Positive(d.valorTotal);
  }

  /** The amounts of a debt row whose total and paid cells are whole numbers. */
  lemma DebtAmounts(row: Row, userId: string, total: nat, paid: nat)
    requires 0 < total && 0 < paid
    requires Field(row, "Valor Total") == Numeric(total as real, NatToString(total))
    requires Field(row, "Valor Pago") == Numeric(paid as real, NatToString(paid))
    ensures DebtOf(userId, row).valorTotal == Finite(total as real)
    ensures DebtOf(userId, row).valorPago == Finite(paid as real)
  {
    AmountNumber(row, ValorTotalKeys, total);
    AmountNumber(row, ValorPagoKeys, paid);
  }

  /** A debt whose paid value exceeds its total is inserted with a negative remaining value. */
  lemma DebtOverpaid(row: Row, userId: string, now: CalendarDate, total: nat, paid: nat)
    requires 0 < total < paid
    requires Field(row, "Valor Total") == Numeric(total as real, NatToString(total))
    requires Field(row, "Valor Pago") == Numeric(paid as real, NatToString(paid))
    ensures RowStep(DividaSheet, row, Some(userId), now) == Push(IntoDividas(DebtOf(userId, row)))
    ensures DebtOf(userId, row).valorRestante == Finite((total - paid) as real)
    ensures DebtOf(userId, row).valorRestante.v < 0.0
  {
    DebtAmounts(row, userId, total, paid);
    DebtRowInserted(row, userId, now);
  }

  /**
   * The reported count is the number of insert calls, not of accepted rows: when the
   * database rejects one of them, fewer rows are stored than the message announces.
   */
  lemma CountIncludesRejected(workbook: Option<seq<Sheet>>, user: Option<string>, now: CalendarDate,
                              accepted: Insert -> bool, k: nat)
    requires k < |Process(workbook, user, now).inserts| && !accepted(Process(workbook, user, now).inserts[k])
    ensures |Filter(Process(workbook, user, now).inserts, accepted)| < |Process(workbook, user, now).inserts|
  {
    FilterDrops(Process(workbook, user, now).inserts, accepted, k);
  }

  /**
   * The import page's state: `isLoading`, and the insert calls made so far, in order. The
   * result of an insert is never looked at, so the remote side does not enter the model.
   */
  class Importer {
    var isLoading: bool
    var issued: seq<Insert>

    constructor ()
      ensures !isLoading && issued == []
    {
      isLoading := false;
      issued := [];
    }

    /**
     * The row loop of one sheet, with `step` building each row's record: an insert is issued
     * and counted whatever its error.
     */
    method ImportRows<T>(rows: seq<T>, step: T -> Step) returns (count: nat, thrown: bool)
      modifies this
      ensures issued == old(issued) + Chain(rows, StepRunner(step)).inserts
      ensures count == |Chain(rows, StepRunner(step)).inserts|
      ensures thrown == Chain(rows, StepRunner(step)).thrown
      ensures isLoading == old(isLoading)
    {
      var runner := StepRunner(step);
      count := 0;
      thrown := false;
      var j := 0;
      while j < |rows| && !thrown
        invariant 0 <= j <= |rows|
        invariant issued == old(issued) + Chain(rows[..j], runner).inserts
        invariant count == |Chain(rows[..j], runner).inserts| && thrown == Chain(rows[..j], runner).thrown
        invariant isLoading == old(isLoading)
      {
        ChainNext(rows, step, j);
        match step(rows[j]) {
          case Skip =>
          case Push(ins) =>
            issued := issued + [ins];
            count := count + 1;
          case Throw =>
            thrown := true;
        }
        j := j + 1;
      }
      if thrown {
        ChainStops(rows, runner, j);
      } else {
        assert rows[..j] == rows;
      }
    }

    /** The sheet loop: a sheet without rows is skipped, the others go through the row loop. */
    method ImportSheets(sheets: seq<Sheet>, stepOf: Sheet -> (Row -> Step)) returns (total: nat, thrown: bool)
      modifies this
      ensures issued == old(issued) + Chain(sheets, SheetsRunner(stepOf)).inserts
      ensures total == |Chain(sheets, SheetsRunner(stepOf)).inserts|
      ensures thrown == Chain(sheets, SheetsRunner(stepOf)).thrown
      ensures isLoading == old(isLoading)
    {
      var runner := SheetsRunner(stepOf);
      total := 0;
      thrown := false;
      var i := 0;
      while i < |sheets| && !thrown
        invariant 0 <= i <= |sheets|
        invariant issued == old(issued) + Chain(sheets[..i], runner).inserts
        invariant total == |Chain(sheets[..i], runner).inserts| && thrown == Chain(sheets[..i], runner).thrown
        invariant isLoading == old(isLoading)
      {
        ChainStep(sheets, runner, i);
        var sheet := sheets[i];
        if |sheet.rows| != 0 {
          var count;
          count, thrown := ImportRows(sheet.rows, stepOf(sheet));
          total := total + count;
        }
        i := i + 1;
      }
      if thrown {
        ChainStops(sheets, runner, i);
      } else {
        assert sheets[..i] == sheets;
      }
    }

    /**
     * `processExcelData`: every sheet with rows is classified by its first row and its rows are
     * imported; the outcome is the success message with the count, or the error message.
     */
    method ProcessExcelData(workbook: Option<seq<Sheet>>, user: Option<string>, now: CalendarDate)
      returns (outcome: Outcome)
      modifies this
      ensures issued == old(issued) + Process(workbook, user, now).inserts
      ensures outcome == if Process(workbook, user, now).thrown then ImportFailed
                         else Imported(|Process(workbook, user, now).inserts|)
      ensures !isLoading
    {
      isLoading := true;
      if workbook.None? {
        outcome := ImportFailed;
      } else {
        var totalInserted, thrown := ImportSheets(workbook.value, SheetStepper(user, now));
        outcome := if thrown then ImportFailed else Imported(totalInserted);
      }
      isLoading := false;
    }
  }
}
