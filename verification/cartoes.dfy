/**
 * The credit-card page. Cards are rows of the debts table with the category 'Cartão':
 * the page lists only those, writes every card with that category, parses its three
 * amounts with the money parse, and shows a status label.
 */
module Cartoes {
  import opened Wrappers
  import opened JsText
  import opened JsNumber
  import opened Lists
  import opened MoneyText

  const CardCategory := "Cartão"

  /** A card as the page reads it from the debts table. */
  datatype Cartao = Cartao(
    id: string,
    descricao: string,
    valorTotal: real,
    valorRestante: real,
    valorPago: real,
    dataVencimento: Option<string>,
    status: string,
    observacoes: Option<string>)

  /** The card form's inputs, as typed. */
  datatype CardForm = CardForm(
    descricao: string,
    valorTotal: string,
    valorRestante: string,
    valorPago: string,
    dataVencimento: string,
    status: string,
    observacoes: string)

  const EmptyCardForm := CardForm("", "", "", "", "", "pendente", "")

  /** The record `handleSubmit` writes to the debts table. */
  datatype CardData = CardData(
    descricao: string,
    valorTotal: Num,
    valorRestante: Num,
    valorPago: Num,
    dataVencimento: Option<string>,
    status: string,
    observacoes: string,
    categoria: string,
    userId: string)

  /** The record built from the form: each amount parsed on its own, the category forced, an empty date null. */
  function CardDataOf(f: CardForm, userId: string): (d: CardData)
    ensures d.valorTotal == ParseMoney(f.valorTotal)
    ensures d.valorRestante == ParseMoney(f.valorRestante)
    ensures d.valorPago == ParseMoney(f.valorPago)
    ensures d.categoria == CardCategory
    ensures d.dataVencimento.None? <==> f.dataVencimento == ""
    ensures d.dataVencimento.Some? ==> d.dataVencimento.value == f.dataVencimento
    ensures d.descricao == f.descricao && d.status == f.status && d.observacoes == f.observacoes && d.userId == userId
  {
    CardData(f.descricao, ParseMoney(f.valorTotal), ParseMoney(f.valorRestante), ParseMoney(f.valorPago),
      if f.dataVencimento == "" then None else Some(f.dataVencimento),
      f.status, f.observacoes, CardCategory, userId)
  }

  /** The rows `fetchCartoes` asks for: the user's debts in the card category. */
  predicate Listed(d: CardData, userId: string) {
    d.userId == userId && d.categoria == CardCategory
  }

  function ListedFor(userId: string): CardData -> bool {
    d => Listed(d, userId)
  }

  /** The card list read back from a table. */
  function CardList(rows: seq<CardData>, userId: string): (r: seq<CardData>)
    ensures forall i :: 0 <= i < |r| ==> r[i].categoria == CardCategory && r[i].userId == userId
  {
    Filter(rows, ListedFor(userId))
  }

  /** Whatever was typed, a saved card is read back by the card list of its user. */
  lemma SavedCardListed(rows: seq<CardData>, f: CardForm, userId: string)
    ensures CardDataOf(f, userId) in CardList(rows + [CardDataOf(f, userId)], userId)
  {
    var d := CardDataOf(f, userId);
    FilterOccurrences(rows + [d], ListedFor(userId), d);
    assert d in rows + [d];
  }

  /** The three amounts are parsed independently: total = paid + remaining is not enforced. */
  lemma AmountsIndependent(t: string, r: string, p: string, userId: string)
    requires t != [] && r != [] && p != [] && AllDigits(t) && AllDigits(r) && AllDigits(p)
    ensures var d := CardDataOf(CardForm("", t, r, p, "", "pendente", ""), userId);
      d.valorTotal == Finite(DigitsValue(t) as real)
      && d.valorRestante == Finite(DigitsValue(r) as real)
      && d.valorPago == Finite(DigitsValue(p) as real)
  {
    ParseMoneyDigits(t);
    ParseMoneyDigits(r);
    ParseMoneyDigits(p);
  }

  /** `totalGasto`: the sum of the remaining values. */
  function Restante(c: Cartao): real {
    c.valorRestante
  }

  function Total(cs: seq<Cartao>): (t: real)
    ensures cs == [] ==> t == 0.0
  {
    Sum(cs, Restante)
  }

  lemma TotalAppend(xs: seq<Cartao>, ys: seq<Cartao>)
    ensures Total(xs + ys) == Total(xs) + Total(ys)
  {
    SumAppend(xs, ys, Restante);
  }

  /** The badge text of a status. */
  function StatusLabel(status: string): (text: string)
    ensures text == "Pago" <==> status == "pago"
    ensures text == "Em Atraso" <==> status == "em_atraso"
    ensures text == "Pendente" <==> status != "pago" && status != "em_atraso"
  {
    if status == "pago" then "Pago" else if status == "em_atraso" then "Em Atraso" else "Pendente"
  }

  /** The badge colour of a status. */
  function StatusColour(status: string): string {
    if status == "pago" then "bg-green-100 text-green-800"
    else if status == "em_atraso" then "bg-red-100 text-red-800"
    else "bg-yellow-100 text-yellow-800"
  }

  /** Label and colour are chosen by the same test: two statuses share a label exactly when they share a colour. */
  lemma LabelMatchesColour(a: string, b: string)
    ensures StatusLabel(a) == StatusLabel(b) <==> StatusColour(a) == StatusColour(b)
  {
  }

  /**
   * `handleEdit` as written: the form is filled with `toString` of the stored amounts.
   * The three texts are those `toString` results.
   */
  function EditForm(c: Cartao, totalText: string, restanteText: string, pagoText: string): (f: CardForm)
    ensures f.valorTotal == totalText && f.valorRestante == restanteText && f.valorPago == pagoText
    ensures f.dataVencimento == "" <==> c.dataVencimento.None? || c.dataVencimento.value == ""
  {
    CardForm(c.descricao, totalText, restanteText, pagoText,
      if c.dataVencimento.Some? then c.dataVencimento.value else "",
      c.status, if c.observacoes.Some? then c.observacoes.value else "")
  }

  /**
   * Editing a card and saving it unchanged, as written: `toString` writes a point, the
   * money parse drops it, and an amount whose second decimal is not zero is stored a
   * hundred times larger (12.35 comes back as 1235).
   */
  lemma EditThenSaveInflates(c: Cartao, total: nat, restante: nat, pago: nat, userId: string)
    requires total % 10 != 0 && c.valorTotal == total as real / 100.0
    ensures var f := EditForm(c, DecimalText(total, '.'), DecimalText(restante, '.'), DecimalText(pago, '.'));
      CardDataOf(f, userId).valorTotal == Finite(c.valorTotal * 100.0)
  {
    ParseMoneyPointText(total);
  }

  /**
   * `handleEdit` corrected: the amounts are shown with a decimal comma
   * (`toString().replace('.', ',')`), the separator the money parse reads.
   */
  function EditFormFixed(c: Cartao, totalText: string, restanteText: string, pagoText: string): CardForm {
    EditForm(c, ReplaceFirst(totalText, '.', ','), ReplaceFirst(restanteText, '.', ','), ReplaceFirst(pagoText, '.', ','))
  }

  /** The amount texts of the corrected form. */
  lemma EditFormFixedAmounts(c: Cartao, t: string, r: string, p: string)
    ensures var f := EditFormFixed(c, t, r, p);
      f.valorTotal == ReplaceFirst(t, '.', ',') && f.valorRestante == ReplaceFirst(r, '.', ',')
      && f.valorPago == ReplaceFirst(p, '.', ',')
      && f.descricao == c.descricao && f.status == c.status
  {
  }

  /**
   * With the corrected form, editing and saving unchanged stores the three amounts as
   * they were; `t`, `r` and `p` are the `toString` texts of amounts of `total`,
   * `restante` and `pago` hundredths.
   */
  lemma EditThenSaveFixed(c: Cartao, total: nat, restante: nat, pago: nat, t: string, r: string, p: string, userId: string)
    requires c.valorTotal == total as real / 100.0 && t == DecimalText(total, '.')
    requires c.valorRestante == restante as real / 100.0 && r == DecimalText(restante, '.')
    requires c.valorPago == pago as real / 100.0 && p == DecimalText(pago, '.')
    ensures var d := CardDataOf(EditFormFixed(c, t, r, p), userId);
      d.valorTotal == Finite(c.valorTotal) && d.valorRestante == Finite(c.valorRestante) && d.valorPago == Finite(c.valorPago)
      && d.descricao == c.descricao && d.status == c.status && d.categoria == CardCategory
  {
    EditFormFixedAmounts(c, t, r, p);
    FixedAmount(c.valorTotal, total, t);
    FixedAmount(c.valorRestante, restante, r);
    FixedAmount(c.valorPago, pago, p);
  }

  lemma FixedAmount(v: real, c: nat, t: string)
    requires v == c as real / 100.0 && t == DecimalText(c, '.')
    ensures ParseMoney(ReplaceFirst(t, '.', ',')) == Finite(v)
  {
    CommaRoundTrip(c);
  }

  datatype CardWrite = InsertCard(data: CardData) | UpdateCard(id: string, data: CardData)

  datatype CardToast = CardUpdated | CardCreated | SaveFailed

  /** `handleSubmit`'s outcome: the write issued (none without a user), the toast, and the form after. */
  datatype Submit = Submit(write: Option<CardWrite>, toast: Option<CardToast>, form: CardForm, editing: Option<Cartao>, dialogOpen: bool)

  function HandleSubmit(f: CardForm, editing: Option<Cartao>, dialogOpen: bool, user: Option<string>, saved: bool): (s: Submit)
    ensures user.None? ==> s == Submit(None, None, f, editing, dialogOpen)
    ensures user.Some? && editing.Some? ==> s.write == Some(UpdateCard(editing.value.id, CardDataOf(f, user.value)))
    ensures user.Some? && editing.None? ==> s.write == Some(InsertCard(CardDataOf(f, user.value)))
    ensures user.Some? && saved ==>
      s.form == EmptyCardForm && s.editing.None? && !s.dialogOpen &&
      s.toast == Some(if editing.Some? then CardUpdated else CardCreated)
    ensures user.Some? && !saved ==>
      s.form == f && s.editing == editing && s.dialogOpen == dialogOpen && s.toast == Some(SaveFailed)
  {
    match user
    case None => Submit(None, None, f, editing, dialogOpen)
    case Some(u) =>
      var data := CardDataOf(f, u);
      var write := if editing.Some? then UpdateCard(editing.value.id, data) else InsertCard(data);
      if saved then Submit(Some(write), Some(if editing.Some? then CardUpdated else CardCreated), EmptyCardForm, None, false)
      else Submit(Some(write), Some(SaveFailed), f, editing, dialogOpen)
  }
}
