/**
 * The reports page: the three queries behind a report (incomes and expenses of the chosen
 * month, every debt), the spreadsheet built sheet by sheet, the summary sheet's
 * arithmetic, and the summary of the printable report.
 */
module Relatorios {
  import opened Wrappers
  import opened Lists

  /** The rows of the three tables, as the report reads them. */
  datatype IncomeRecord = IncomeRecord(
    userId: string,
    descricao: string,
    categoria: string,
    valor: real,
    dataRecebimento: string,
    mesReferencia: string,
    observacoes: Option<string>)

  datatype ExpenseRecord = ExpenseRecord(
    userId: string,
    descricao: string,
    categoria: string,
    valor: real,
    dataPagamento: string,
    mesReferencia: string,
    observacoes: Option<string>)

  datatype DebtRecord = DebtRecord(
    userId: string,
    descricao: string,
    categoria: Option<string>,
    valorTotal: real,
    valorPago: real,
    valorRestante: real,
    dataVencimento: Option<string>,
    status: string,
    mesReferencia: string,
    observacoes: Option<string>)

  /** What `fetchDataForReport` returns. */
  datatype ReportData = ReportData(receitas: seq<IncomeRecord>, despesas: seq<ExpenseRecord>, dividas: seq<DebtRecord>)

  datatype ReportToast = NotAuthenticated | FetchFailed | Exported

  /** The data of a report, or nothing with the toast shown instead. */
  datatype Fetch = Fetch(data: Option<ReportData>, toast: Option<ReportToast>)

  predicate IncomeInPeriod(r: IncomeRecord, userId: string, periodo: string) {
    r.userId == userId && r.mesReferencia == periodo
  }

  predicate ExpenseInPeriod(d: ExpenseRecord, userId: string, periodo: string) {
    d.userId == userId && d.mesReferencia == periodo
  }

  predicate DebtOf(d: DebtRecord, userId: string) {
    d.userId == userId
  }

  function IncomeQuery(userId: string, periodo: string): IncomeRecord -> bool {
    r => IncomeInPeriod(r, userId, periodo)
  }

  function ExpenseQuery(userId: string, periodo: string): ExpenseRecord -> bool {
    d => ExpenseInPeriod(d, userId, periodo)
  }

  function DebtQuery(userId: string): DebtRecord -> bool {
    d => DebtOf(d, userId)
  }

  /**
   * `fetchDataForReport` over the three tables; `failed` says whether one of the three
   * queries answered with an error.
   */
  function FetchDataForReport(user: Option<string>, periodo: string, receitas: seq<IncomeRecord>,
                              despesas: seq<ExpenseRecord>, dividas: seq<DebtRecord>, failed: bool): (f: Fetch)
    ensures user.None? ==> f == Fetch(None, Some(NotAuthenticated))
    ensures user.Some? && failed ==> f == Fetch(None, Some(FetchFailed))
    ensures f.data.Some? <==> user.Some? && !failed
    ensures f.data.Some? ==> f.toast.None?
    ensures f.data.Some? ==>
      (forall i :: 0 <= i < |f.data.value.receitas| ==> IncomeInPeriod(f.data.value.receitas[i], user.value, periodo)) &&
      (forall i :: 0 <= i < |f.data.value.despesas| ==> ExpenseInPeriod(f.data.value.despesas[i], user.value, periodo)) &&
      (forall i :: 0 <= i < |f.data.value.dividas| ==> DebtOf(f.data.value.dividas[i], user.value))
  {
    match user
    case None => Fetch(None, Some(NotAuthenticated))
    case Some(u) =>
      if failed then Fetch(None, Some(FetchFailed))
      else Fetch(Some(ReportData(Filter(receitas, IncomeQuery(u, periodo)), Filter(despesas, ExpenseQuery(u, periodo)),
        Filter(dividas, DebtQuery(u)))), None)
  }

  /**
   * Incomes and expenses are scoped to the period: each of the user's records of that
   * month is in the report as often as in its table, and no other record is.
   */
  lemma PeriodScoped(user: string, periodo: string, receitas: seq<IncomeRecord>, despesas: seq<ExpenseRecord>,
                     dividas: seq<DebtRecord>, r: IncomeRecord, e: ExpenseRecord)
    ensures var d := FetchDataForReport(Some(user), periodo, receitas, despesas, dividas, false).data.value;
      multiset(d.receitas)[r] == (if IncomeInPeriod(r, user, periodo) then multiset(receitas)[r] else 0)
      && multiset(d.despesas)[e] == (if ExpenseInPeriod(e, user, periodo) then multiset(despesas)[e] else 0)
  {
    FilterOccurrences(receitas, IncomeQuery(user, periodo), r);
    FilterOccurrences(despesas, ExpenseQuery(user, periodo), e);
  }

  /** Debts are not scoped to the period: every debt of the user is in the report, whatever its month. */
  lemma DebtsUnscoped(user: string, periodo: string, receitas: seq<IncomeRecord>, despesas: seq<ExpenseRecord>,
                      dividas: seq<DebtRecord>, d: DebtRecord)
    requires d in dividas && d.userId == user
    ensures d in FetchDataForReport(Some(user), periodo, receitas, despesas, dividas, false).data.value.dividas
  {
    FilterOccurrences(dividas, DebtQuery(user), d);
  }

  /** A spreadsheet cell, and a row as its header/cell pairs in column order. */
  datatype Cell = Text(text: string) | Number(value: real)

  type Row = seq<(string, Cell)>

  datatype Sheet = Sheet(name: string, rows: seq<Row>)

  /** `observacoes || ''`. */
  function NoteText(o: Option<string>): (t: string)
    ensures o.None? ==> t == ""
    ensures o.Some? ==> t == o.value
  {
    if o.Some? then o.value else ""
  }

  /** The Receitas sheet row of an income; `localeDate` renders a date as `toLocaleDateString('pt-BR')` does. */
  function IncomeRow(r: IncomeRecord, localeDate: string -> string): (row: Row)
    ensures |row| == 6 && row[2] == ("Valor", Number(r.valor))
    ensures row[5] == ("Observações", Text(NoteText(r.observacoes)))
  {
    [("Descrição", Text(r.descricao)), ("Categoria", Text(r.categoria)), ("Valor", Number(r.valor)),
     ("Data Recebimento", Text(localeDate(r.dataRecebimento))), ("Mês Referência", Text(r.mesReferencia)),
     ("Observações", Text(NoteText(r.observacoes)))]
  }

  function ExpenseRow(d: ExpenseRecord, localeDate: string -> string): (row: Row)
    ensures |row| == 6 && row[2] == ("Valor", Number(d.valor))
    ensures row[5] == ("Observações", Text(NoteText(d.observacoes)))
  {
    [("Descrição", Text(d.descricao)), ("Categoria", Text(d.categoria)), ("Valor", Number(d.valor)),
     ("Data Pagamento", Text(localeDate(d.dataPagamento))), ("Mês Referência", Text(d.mesReferencia)),
     ("Observações", Text(NoteText(d.observacoes)))]
  }

  /** The Dívidas sheet row of a debt: a missing category, due date or note is the empty text. */
  function DebtRow(d: DebtRecord, localeDate: string -> string): (row: Row)
    ensures |row| == 8
    ensures row[1] == ("Categoria", Text(NoteText(d.categoria)))
    ensures row[4] == ("Valor Restante", Number(d.valorRestante))
    ensures row[5].1 == Text("") <==> d.dataVencimento.None? || d.dataVencimento.value == "" || localeDate(d.dataVencimento.value) == ""
  {
    var due := if d.dataVencimento.Some? && d.dataVencimento.value != "" then localeDate(d.dataVencimento.value) else "";
    [("Descrição", Text(d.descricao)), ("Categoria", Text(NoteText(d.categoria))),
     ("Valor Total", Number(d.valorTotal)), ("Valor Pago", Number(d.valorPago)),
     ("Valor Restante", Number(d.valorRestante)), ("Data Vencimento", Text(due)),
     ("Status", Text(d.status)), ("Observações", Text(NoteText(d.observacoes)))]
  }

  /** The record-to-row maps of the three sheets: one row per record, in order. */
  function IncomeSheet(rs: seq<IncomeRecord>, localeDate: string -> string): (s: Sheet)
    ensures s.name == "Receitas" && |s.rows| == |rs|
    ensures forall i :: 0 <= i < |rs| ==> s.rows[i] == IncomeRow(rs[i], localeDate)
  {
    Sheet("Receitas", seq(|rs|, i requires 0 <= i < |rs| => IncomeRow(rs[i], localeDate)))
  }

  function ExpenseSheet(ds: seq<ExpenseRecord>, localeDate: string -> string): (s: Sheet)
    ensures s.name == "Despesas" && |s.rows| == |ds|
    ensures forall i :: 0 <= i < |ds| ==> s.rows[i] == ExpenseRow(ds[i], localeDate)
  {
    Sheet("Despesas", seq(|ds|, i requires 0 <= i < |ds| => ExpenseRow(ds[i], localeDate)))
  }

  function DebtSheet(ds: seq<DebtRecord>, localeDate: string -> string): (s: Sheet)
    ensures s.name == "Dívidas" && |s.rows| == |ds|
    ensures forall i :: 0 <= i < |ds| ==> s.rows[i] == DebtRow(ds[i], localeDate)
  {
    Sheet("Dívidas", seq(|ds|, i requires 0 <= i < |ds| => DebtRow(ds[i], localeDate)))
  }

  function IncomeValor(r: IncomeRecord): real {
    r.valor
  }

  function ExpenseValor(d: ExpenseRecord): real {
    d.valor
  }

  function DebtRestante(d: DebtRecord): real {
    d.valorRestante
  }

  /** The summary sheet: incomes, expenses, their difference and the debts still owed. */
  function ResumoSheet(d: ReportData): (s: Sheet)
    ensures s.name == "Resumo" && |s.rows| == 4
    ensures s.rows[2] == [("Tipo", Text("Saldo (Receitas - Despesas)")),
      ("Valor", Number(Sum(d.receitas, IncomeValor) - Sum(d.despesas, ExpenseValor)))]
    ensures s.rows[3] == [("Tipo", Text("Total de Dívidas Pendentes")), ("Valor", Number(Sum(d.dividas, DebtRestante)))]
  {
    var receitas := Sum(d.receitas, IncomeValor);
    var despesas := Sum(d.despesas, ExpenseValor);
    Sheet("Resumo", [
      [("Tipo", Text("Total de Receitas")), ("Valor", Number(receitas))],
      [("Tipo", Text("Total de Despesas")), ("Valor", Number(despesas))],
      [("Tipo", Text("Saldo (Receitas - Despesas)")), ("Valor", Number(receitas - despesas))],
      [("Tipo", Text("Total de Dívidas Pendentes")), ("Valor", Number(Sum(d.dividas, DebtRestante)))]])
  }

  /** The summary's debt row counts what is still owed, so paying part of a debt lowers it by that part. */
  lemma ResumoDebtAfterPayment(d: ReportData, i: nat, paid: real)
    requires i < |d.dividas|
    ensures var before := d.dividas[i];
      var after := before.(valorPago := before.valorPago + paid, valorRestante := before.valorRestante - paid);
      ResumoSheet(d.(dividas := d.dividas[i := after])).rows[3][1].1.value == ResumoSheet(d).rows[3][1].1.value - paid
  {
    var before := d.dividas[i];
    SumUpdate(d.dividas, i, before.(valorPago := before.valorPago + paid, valorRestante := before.valorRestante - paid), DebtRestante);
  }

  function Names(sheets: seq<Sheet>): (ns: seq<string>)
    ensures |ns| == |sheets|
    ensures forall i :: 0 <= i < |sheets| ==> ns[i] == sheets[i].name
  {
    seq(|sheets|, i requires 0 <= i < |sheets| => sheets[i].name)
  }

  /** The sheets a report type asks for, in the order `exportToExcel` appends them. */
  function SheetNames(tipo: string): (ns: seq<string>)
    ensures tipo == "completo" ==> ns == ["Receitas", "Despesas", "Dívidas", "Resumo"]
    ensures tipo == "receitas" ==> ns == ["Receitas"]
    ensures tipo == "despesas" ==> ns == ["Despesas"]
    ensures tipo == "dividas" ==> ns == ["Dívidas"]
    ensures tipo !in {"completo", "receitas", "despesas", "dividas"} ==> ns == []
  {
    (if tipo == "completo" || tipo == "receitas" then ["Receitas"] else [])
    + (if tipo == "completo" || tipo == "despesas" then ["Despesas"] else [])
    + (if tipo == "completo" || tipo == "dividas" then ["Dívidas"] else [])
    + (if tipo == "completo" then ["Resumo"] else [])
  }

  /** `XLSX.utils.book_new` and `book_append_sheet`: a workbook whose sheets have distinct names. */
  class Workbook {
    var sheets: seq<Sheet>

    constructor ()
      ensures sheets == []
    {
      sheets := [];
    }

    /** Appending refuses a name already in the book. */
    method AppendSheet(s: Sheet)
      requires forall i :: 0 <= i < |sheets| ==> sheets[i].name != s.name
      modifies this
      ensures sheets == old(sheets) + [s]
    {
      sheets := sheets + [s];
    }
  }

  /** The sheets a report of type `tipo` takes, in the order `exportToExcel` appends them. */
  function Selected(tipo: string, income: Sheet, expense: Sheet, debt: Sheet, resumo: Sheet): (book: seq<Sheet>)
    ensures |book| <= 4
  {
    (if tipo == "completo" || tipo == "receitas" then [income] else [])
    + (if tipo == "completo" || tipo == "despesas" then [expense] else [])
    + (if tipo == "completo" || tipo == "dividas" then [debt] else [])
    + (if tipo == "completo" then [resumo] else [])
  }

  /** The sheets of a report of type `tipo` over the fetched data. */
  function ReportSheets(d: ReportData, tipo: string, localeDate: string -> string): seq<Sheet> {
    Selected(tipo, IncomeSheet(d.receitas, localeDate), ExpenseSheet(d.despesas, localeDate), DebtSheet(d.dividas, localeDate), ResumoSheet(d))
  }

  /** Selecting four sheets named after the four tables gives the names the report type asks for. */
  lemma SelectedNames(tipo: string, income: Sheet, expense: Sheet, debt: Sheet, resumo: Sheet)
    requires income.name == "Receitas" && expense.name == "Despesas" && debt.name == "Dívidas" && resumo.name == "Resumo"
    ensures Names(Selected(tipo, income, expense, debt, resumo)) == SheetNames(tipo)
  {
    var book := Selected(tipo, income, expense, debt, resumo);
    if tipo == "completo" {
      assert book == [income, expense, debt, resumo];
    } else if tipo in {"receitas", "despesas", "dividas"} {
      assert |book| == 1;
    } else {
      assert book == [];
    }
  }

  /** Every report type gets exactly the sheets it names, in order. */
  lemma ReportSheetsNamed(d: ReportData, tipo: string, localeDate: string -> string)
    ensures Names(ReportSheets(d, tipo, localeDate)) == SheetNames(tipo)
  {
    SelectedNames(tipo, IncomeSheet(d.receitas, localeDate), ExpenseSheet(d.despesas, localeDate), DebtSheet(d.dividas, localeDate), ResumoSheet(d));
  }

  /** A complete report is the four sheets: incomes, expenses, debts and the summary. */
  lemma CompleteReport(d: ReportData, localeDate: string -> string)
    ensures ReportSheets(d, "completo", localeDate) ==
      [IncomeSheet(d.receitas, localeDate), ExpenseSheet(d.despesas, localeDate), DebtSheet(d.dividas, localeDate), ResumoSheet(d)]
  {
  }

  /** The successive `book_append_sheet` calls of `exportToExcel`. */
  method AppendSelected(tipo: string, income: Sheet, expense: Sheet, debt: Sheet, resumo: Sheet) returns (book: seq<Sheet>)
    requires income.name != expense.name && income.name != debt.name && income.name != resumo.name
    requires expense.name != debt.name && expense.name != resumo.name && debt.name != resumo.name
    ensures book == Selected(tipo, income, expense, debt, resumo)
  {
    var wb := new Workbook();
    if tipo == "completo" || tipo == "receitas" {
      wb.AppendSheet(income);
    }
    if tipo == "completo" || tipo == "despesas" {
      wb.AppendSheet(expense);
    }
    if tipo == "completo" || tipo == "dividas" {
      wb.AppendSheet(debt);
    }
    if tipo == "completo" {
      wb.AppendSheet(resumo);
    }
    book := wb.sheets;
  }

  /**
   * `exportToExcel` after the fetch: no workbook when the fetch gave nothing, otherwise
   * the sheets the report type asks for.
   */
  method ExportToExcel(fetched: Fetch, tipo: string, localeDate: string -> string)
    returns (book: Option<seq<Sheet>>, toast: Option<ReportToast>)
    ensures fetched.data.None? ==> book.None? && toast == fetched.toast
    ensures fetched.data.Some? ==> book == Some(ReportSheets(fetched.data.value, tipo, localeDate)) && toast == Some(Exported)
  {
    if fetched.data.None? {
      return None, fetched.toast;
    }
    var data := fetched.data.value;
    var sheets := AppendSelected(tipo, IncomeSheet(data.receitas, localeDate), ExpenseSheet(data.despesas, localeDate),
      DebtSheet(data.dividas, localeDate), ResumoSheet(data));
    return Some(sheets), Some(Exported);
  }

  /** The summary of the printable report. */
  datatype PdfSummary = PdfSummary(totalReceitas: real, totalDespesas: real, saldo: real, saldoClass: string, sections: seq<string>)

  function PdfReport(d: ReportData): (p: PdfSummary)
    ensures p.saldo == p.totalReceitas - p.totalDespesas
    ensures p.totalReceitas == Sum(d.receitas, IncomeValor) && p.totalDespesas == Sum(d.despesas, ExpenseValor)
    ensures p.saldoClass == "positive" <==> p.saldo >= 0.0
    ensures p.saldoClass == "negative" <==> p.saldo < 0.0
    ensures "Receitas" in p.sections <==> |d.receitas| > 0
    ensures "Despesas" in p.sections <==> |d.despesas| > 0
    ensures |p.sections| <= 2
  {
    var receitas := Sum(d.receitas, IncomeValor);
    var despesas := Sum(d.despesas, ExpenseValor);
    var saldo := receitas - despesas;
    PdfSummary(receitas, despesas, saldo, if saldo >= 0.0 then "positive" else "negative",
      (if |d.receitas| > 0 then ["Receitas"] else []) + (if |d.despesas| > 0 then ["Despesas"] else []))
  }

  /** The printed balance and the spreadsheet's Resumo balance are the same number. */
  lemma PdfAgreesWithResumo(d: ReportData)
    ensures PdfReport(d).saldo == ResumoSheet(d).rows[2][1].1.value
  {
  }
}
