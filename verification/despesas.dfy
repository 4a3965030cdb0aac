/**
 * The expenses page: the due-today alerts, the paid/unpaid toggle, the record a submission
 * writes (with its recurrence fields), the month key that follows the payment date, and
 * the total.
 */
module Despesas {
  import opened Wrappers
  import opened JsNumber
  import opened Calendar
  import opened Lists
  import opened DateUtils

  /** A row of `despesas` as the page reads it; optional columns are `Option`s. */
  datatype Despesa = Despesa(
    id: string,
    descricao: string,
    categoria: string,
    valor: real,
    dataPagamento: string,
    dataVencimento: Option<string>,
    mesReferencia: string,
    status: string,
    recorrente: bool,
    frequenciaRecorrencia: Option<string>,
    proximaCobranca: Option<string>,
    alertaAtivo: bool,
    observacoes: Option<string>)

  /** Is the expense an alert for `hoje` (the `YYYY-MM-DD` text of today's UTC date)? */
  predicate IsAlert(d: Despesa, hoje: string) {
    d.dataVencimento == Some(hoje) && d.status == "a_pagar" && d.alertaAtivo
  }

  function AlertOn(hoje: string): Despesa -> bool {
    d => IsAlert(d, hoje)
  }

  /** `getAlertasPagamentos`: the expenses due today, still to pay, with the alert switched on. */
  function Alertas(ds: seq<Despesa>, hoje: string): (r: seq<Despesa>)
    ensures |r| <= |ds|
    ensures forall i :: 0 <= i < |r| ==> IsAlert(r[i], hoje)
  {
    Filter(ds, AlertOn(hoje))
  }

  /** Every alerting expense appears among the alerts as often as in the list, and no other does. */
  lemma AlertasExact(ds: seq<Despesa>, hoje: string, d: Despesa)
    ensures multiset(Alertas(ds, hoje))[d] == if IsAlert(d, hoje) then multiset(ds)[d] else 0
  {
    FilterOccurrences(ds, AlertOn(hoje), d);
  }

  /** An expense without a due date, or with its alert off, never alerts. */
  lemma NoDateNoAlert(ds: seq<Despesa>, hoje: string, d: Despesa)
    requires d.dataVencimento.None? || !d.alertaAtivo
    ensures d !in Alertas(ds, hoje)
  {
    AlertasExact(ds, hoje, d);
  }

  /** The status `handleStatusToggle` writes: 'paga' becomes 'a_pagar', anything else 'paga'. */
  function ToggledStatus(status: string): (r: string)
    ensures r == "paga" <==> status != "paga"
    ensures r == "paga" || r == "a_pagar"
  {
    if status == "paga" then "a_pagar" else "paga"
  }

  /** On the two statuses the page offers, toggling twice gives the status back. */
  lemma ToggleTwice(status: string)
    requires status == "paga" || status == "a_pagar"
    ensures ToggledStatus(ToggledStatus(status)) == status
  {
  }

  /** Any other status (say 'vencida') is paid by the first toggle, so two toggles leave it 'a_pagar'. */
  lemma ToggleTwiceOther(status: string)
    requires status != "paga" && status != "a_pagar"
    ensures ToggledStatus(status) == "paga"
    ensures ToggledStatus(ToggledStatus(status)) == "a_pagar" != status
  {
  }

  /** The toasts of the page. */
  datatype ExpenseToast = StatusChanged(paid: bool) | StatusFailed | ExpenseUpdated | ExpenseCreated | SaveFailed

  /** The label a status-change toast shows. */
  function StatusLabel(paid: bool): string {
    if paid then "Paga" else "A Pagar"
  }

  /** `handleStatusToggle` on an expense: the status written for its id, and the toast after the reply. */
  datatype Toggle = Toggle(id: string, status: string, toast: ExpenseToast)

  function HandleStatusToggle(d: Despesa, ok: bool): (t: Toggle)
    ensures t.id == d.id
    ensures t.status == "paga" <==> d.status != "paga"
    ensures ok ==> t.toast == StatusChanged(t.status == "paga")
    ensures !ok ==> t.toast == StatusFailed
  {
    var s := ToggledStatus(d.status);
    Toggle(d.id, s, if ok then StatusChanged(s == "paga") else StatusFailed)
  }

  /** The expense form's inputs. */
  datatype ExpenseForm = ExpenseForm(
    descricao: string,
    categoria: string,
    valor: string,
    dataPagamento: string,
    dataVencimento: string,
    mesReferencia: string,
    status: string,
    recorrente: bool,
    frequenciaRecorrencia: string,
    alertaAtivo: bool,
    observacoes: string)

  const EmptyExpenseForm := ExpenseForm("", "", "", "", "", "", "a_pagar", false, "mensal", false, "")

  /** Does the form's month key agree with its payment date? */
  predicate MonthTracksDate(f: ExpenseForm) {
    f.mesReferencia == FormatDateToMonthRef(f.dataPagamento)
  }

  /** The payment-date input's change handler: the date and its month key are set together. */
  function SetDataPagamento(f: ExpenseForm, newDate: string): (g: ExpenseForm)
    ensures g.dataPagamento == newDate && MonthTracksDate(g)
    ensures g.(dataPagamento := f.dataPagamento, mesReferencia := f.mesReferencia) == f
  {
    f.(dataPagamento := newDate, mesReferencia := FormatDateToMonthRef(newDate))
  }

  /** Picking an ISO date sets the month key to that date's month and year. */
  lemma SetDataPagamentoIso(f: ExpenseForm, date: Date)
    requires ValidDate(date) && 100 <= date.year <= 9999
    ensures SetDataPagamento(f, IsoDateText(date)).mesReferencia == MonthRef(date.year, date.month)
  {
    FormatIsoDate(date);
  }

  /** The empty form's month key agrees with its empty date. */
  lemma EmptyFormTracks()
    ensures MonthTracksDate(EmptyExpenseForm)
  {
  }

  /** The record `handleSubmit` writes. */
  datatype ExpenseData = ExpenseData(
    userId: string,
    descricao: string,
    categoria: string,
    valor: Num,
    dataPagamento: string,
    dataVencimento: Option<string>,
    mesReferencia: string,
    status: string,
    recorrente: bool,
    frequenciaRecorrencia: Option<string>,
    proximaCobranca: Option<string>,
    alertaAtivo: bool,
    observacoes: string)

  /** A record's recurrence fields agree: both are set exactly for recurrent expenses, the next charge being the due date. */
  predicate RecurrenceRule(d: ExpenseData) {
    (d.frequenciaRecorrencia.Some? <==> d.recorrente)
    && d.proximaCobranca == (if d.recorrente then d.dataVencimento else None)
  }

  /** The record built from the form. */
  function ExpenseDataOf(f: ExpenseForm, userId: string): (d: ExpenseData)
    ensures d.valor == ParseFloat(f.valor)
    ensures d.dataVencimento.None? <==> f.dataVencimento == ""
    ensures d.dataVencimento.Some? ==> d.dataVencimento.value == f.dataVencimento
    ensures d.frequenciaRecorrencia == (if f.recorrente then Some(f.frequenciaRecorrencia) else None)
    ensures d.proximaCobranca.Some? <==> f.recorrente && f.dataVencimento != ""
    ensures RecurrenceRule(d)
    ensures d.userId == userId && d.descricao == f.descricao && d.categoria == f.categoria
    ensures d.dataPagamento == f.dataPagamento && d.mesReferencia == f.mesReferencia && d.status == f.status
    ensures d.recorrente == f.recorrente && d.alertaAtivo == f.alertaAtivo && d.observacoes == f.observacoes
  {
    var vencimento := if f.dataVencimento == "" then None else Some(f.dataVencimento);
    ExpenseData(userId, f.descricao, f.categoria, ParseFloat(f.valor), f.dataPagamento, vencimento,
      f.mesReferencia, f.status, f.recorrente,
      if f.recorrente then Some(f.frequenciaRecorrencia) else None,
      if f.recorrente && f.dataVencimento != "" then Some(f.dataVencimento) else None,
      f.alertaAtivo, f.observacoes)
  }

  datatype ExpenseWrite = InsertExpense(data: ExpenseData) | UpdateExpense(id: string, data: ExpenseData)

  /** `handleSubmit`'s outcome: the write issued (none without a user), the toast, and the form after. */
  datatype Submit = Submit(write: Option<ExpenseWrite>, toast: Option<ExpenseToast>, form: ExpenseForm, editing: Option<Despesa>, dialogOpen: bool)

  function HandleSubmit(f: ExpenseForm, editing: Option<Despesa>, dialogOpen: bool, user: Option<string>, saved: bool): (s: Submit)
    ensures user.None? <==> s.write.None?
    ensures user.None? ==> s == Submit(None, None, f, editing, dialogOpen)
    ensures user.Some? && editing.Some? ==> s.write == Some(UpdateExpense(editing.value.id, ExpenseDataOf(f, user.value)))
    ensures user.Some? && editing.None? ==> s.write == Some(InsertExpense(ExpenseDataOf(f, user.value)))
    ensures user.Some? && saved ==>
      s.form == EmptyExpenseForm && s.editing.None? && !s.dialogOpen &&
      s.toast == Some(if editing.Some? then ExpenseUpdated else ExpenseCreated)
    ensures user.Some? && !saved ==>
      s.form == f && s.editing == editing && s.dialogOpen == dialogOpen && s.toast == Some(SaveFailed)
  {
    match user
    case None => Submit(None, None, f, editing, dialogOpen)
    case Some(u) =>
      var data := ExpenseDataOf(f, u);
      var write := if editing.Some? then UpdateExpense(editing.value.id, data) else InsertExpense(data);
      if saved then Submit(Some(write), Some(if editing.Some? then ExpenseUpdated else ExpenseCreated), EmptyExpenseForm, None, false)
      else Submit(Some(write), Some(SaveFailed), f, editing, dialogOpen)
  }

  function Valor(d: Despesa): real {
    d.valor
  }

  predicate Paid(d: Despesa) {
    d.status == "paga"
  }

  predicate Unpaid(d: Despesa) {
    d.status != "paga"
  }

  /** `totalDespesas`: the sum of the values. */
  function Total(ds: seq<Despesa>): (t: real)
    ensures ds == [] ==> t == 0.0
  {
    Sum(ds, Valor)
  }

  /** The total is what is paid plus what is still to pay. */
  lemma TotalSplits(ds: seq<Despesa>)
    ensures Total(ds) == Sum(Filter(ds, Paid), Valor) + Sum(Filter(ds, Unpaid), Valor)
  {
    SumPartition(ds, Valor, Paid, Unpaid);
  }

  /** The total of two lists together is the sum of their totals. */
  lemma TotalAppend(xs: seq<Despesa>, ys: seq<Despesa>)
    ensures Total(xs + ys) == Total(xs) + Total(ys)
  {
    SumAppend(xs, ys, Valor);
  }
}
