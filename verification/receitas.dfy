/**
 * The incomes page: the record a submission writes, the month key that follows the
 * receipt date, the edit dialog's round trip, the form reset and the total.
 */
module Receitas {
  import opened Wrappers
  import opened JsNumber
  import opened Calendar
  import opened Lists
  import opened DateUtils
  import opened MoneyText

  /** A row of `receitas` as the page reads it. */
  datatype Receita = Receita(
    id: string,
    descricao: string,
    categoria: string,
    valor: real,
    dataRecebimento: string,
    mesReferencia: string,
    observacoes: Option<string>)

  /** The income form's inputs. */
  datatype IncomeForm = IncomeForm(
    descricao: string,
    categoria: string,
    valor: string,
    dataRecebimento: string,
    mesReferencia: string,
    observacoes: string)

  const EmptyIncomeForm := IncomeForm("", "", "", "", "", "")

  /** Does the form's month key agree with its receipt date? */
  predicate MonthTracksDate(f: IncomeForm) {
    f.mesReferencia == FormatDateToMonthRef(f.dataRecebimento)
  }

  /** The receipt-date input's change handler: the date and its month key are set together. */
  function SetDataRecebimento(f: IncomeForm, newDate: string): (g: IncomeForm)
    ensures g.dataRecebimento == newDate && MonthTracksDate(g)
    ensures g.(dataRecebimento := f.dataRecebimento, mesReferencia := f.mesReferencia) == f
  {
    f.(dataRecebimento := newDate, mesReferencia := FormatDateToMonthRef(newDate))
  }

  /** Picking an ISO date sets the month key to that date's month and year. */
  lemma SetDataRecebimentoIso(f: IncomeForm, date: Date)
    requires ValidDate(date) && 100 <= date.year <= 9999
    ensures SetDataRecebimento(f, IsoDateText(date)).mesReferencia == MonthRef(date.year, date.month)
  {
    FormatIsoDate(date);
  }

  /** The record `handleSubmit` writes. */
  datatype IncomeData = IncomeData(
    userId: string,
    descricao: string,
    categoria: string,
    valor: Num,
    dataRecebimento: string,
    mesReferencia: string,
    observacoes: string)

  /** The record built from the form: the amount is `parseFloat` of its text, everything else is copied. */
  function IncomeDataOf(f: IncomeForm, userId: string): (d: IncomeData)
    ensures d.valor == ParseFloat(f.valor) && d.userId == userId
    ensures d.descricao == f.descricao && d.categoria == f.categoria && d.dataRecebimento == f.dataRecebimento
    ensures d.mesReferencia == f.mesReferencia && d.observacoes == f.observacoes
  {
    IncomeData(userId, f.descricao, f.categoria, ParseFloat(f.valor), f.dataRecebimento, f.mesReferencia, f.observacoes)
  }

  /**
   * `handleEdit`: the form filled from the income; `valorText` is `valor.toString()`.
   * Missing notes become the empty text.
   */
  function EditForm(r: Receita, valorText: string): (f: IncomeForm)
    ensures f.valor == valorText
    ensures f.observacoes == "" <==> r.observacoes.None? || r.observacoes.value == ""
  {
    IncomeForm(r.descricao, r.categoria, valorText, r.dataRecebimento, r.mesReferencia,
      if r.observacoes.Some? then r.observacoes.value else "")
  }

  /**
   * Editing an income of c hundredths and saving it unchanged writes back the same
   * fields; only null notes come back as the empty text.
   */
  lemma EditRoundTrip(r: Receita, c: nat, userId: string)
    requires r.valor == c as real / 100.0
    ensures var d := IncomeDataOf(EditForm(r, DecimalText(c, '.')), userId);
      d.valor == Finite(r.valor)
      && d.descricao == r.descricao && d.categoria == r.categoria
      && d.dataRecebimento == r.dataRecebimento && d.mesReferencia == r.mesReferencia
      && (r.observacoes.Some? ==> d.observacoes == r.observacoes.value)
      && (r.observacoes.None? ==> d.observacoes == "")
  {
    ParseFloatDecimalText(c);
  }

  datatype IncomeWrite = InsertIncome(data: IncomeData) | UpdateIncome(id: string, data: IncomeData)

  datatype IncomeToast = IncomeUpdated | IncomeCreated | SaveFailed

  /** `handleSubmit`'s outcome: the write issued (none without a user), the toast, and the form after. */
  datatype Submit = Submit(write: Option<IncomeWrite>, toast: Option<IncomeToast>, form: IncomeForm, editing: Option<Receita>, dialogOpen: bool)

  function HandleSubmit(f: IncomeForm, editing: Option<Receita>, dialogOpen: bool, user: Option<string>, saved: bool): (s: Submit)
    ensures user.None? ==> s == Submit(None, None, f, editing, dialogOpen)
    ensures user.Some? && editing.Some? ==> s.write == Some(UpdateIncome(editing.value.id, IncomeDataOf(f, user.value)))
    ensures user.Some? && editing.None? ==> s.write == Some(InsertIncome(IncomeDataOf(f, user.value)))
    ensures user.Some? && saved ==>
      s.form == EmptyIncomeForm && s.editing.None? && !s.dialogOpen &&
      s.toast == Some(if editing.Some? then IncomeUpdated else IncomeCreated)
    ensures user.Some? && !saved ==>
      s.form == f && s.editing == editing && s.dialogOpen == dialogOpen && s.toast == Some(SaveFailed)
  {
    match user
    case None => Submit(None, None, f, editing, dialogOpen)
    case Some(u) =>
      var data := IncomeDataOf(f, u);
      var write := if editing.Some? then UpdateIncome(editing.value.id, data) else InsertIncome(data);
      if saved then Submit(Some(write), Some(if editing.Some? then IncomeUpdated else IncomeCreated), EmptyIncomeForm, None, false)
      else Submit(Some(write), Some(SaveFailed), f, editing, dialogOpen)
  }

  /** After a successful save a new entry starts from the empty form and is inserted, not updated. */
  lemma SaveThenNew(f: IncomeForm, editing: Option<Receita>, open: bool, user: string, g: IncomeForm)
    ensures var s := HandleSubmit(f, editing, open, Some(user), true);
      HandleSubmit(g, s.editing, true, Some(user), true).write == Some(InsertIncome(IncomeDataOf(g, user)))
  {
  }

  function Valor(r: Receita): real {
    r.valor
  }

  /** `totalReceitas`: the sum of the values. */
  function Total(rs: seq<Receita>): (t: real)
    ensures rs == [] ==> t == 0.0
  {
    Sum(rs, Valor)
  }

  /** Non-negative incomes have a non-negative total. */
  lemma TotalNonNegative(rs: seq<Receita>)
    requires forall i :: 0 <= i < |rs| ==> rs[i].valor >= 0.0
    ensures Total(rs) >= 0.0
  {
    SumNonNegative(rs, Valor);
  }

  /** The total of two lists together is the sum of their totals. */
  lemma TotalAppend(xs: seq<Receita>, ys: seq<Receita>)
    ensures Total(xs + ys) == Total(xs) + Total(ys)
  {
    SumAppend(xs, ys, Valor);
  }
}
