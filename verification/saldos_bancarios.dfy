/**
 * The bank-balances page: the fetched accounts sorted in place by bank name, the record
 * a submission writes (money parse, empty optional texts stored as null), the total and
 * the account-type label.
 */
module SaldosBancarios {
  import opened Wrappers
  import opened JsText
  import opened JsNumber
  import opened Lists
  import opened MoneyText
  import opened DateUtils

  /** An account balance as the page reads it; optional columns are `Option`s. */
  datatype SaldoBancario = SaldoBancario(
    id: string,
    banco: string,
    tipoConta: string,
    saldo: real,
    numeroConta: Option<string>,
    agencia: Option<string>,
    observacoes: Option<string>)

  /**
   * `localeCompare` is modelled by a collation key: `collate(a) < collate(b)` when `a`
   * sorts before `b`, equal keys when the two compare as equal.
   */
  function Key(collate: string -> real, s: SaldoBancario): real {
    collate(s.banco)
  }

  /** Is the list in bank order? */
  predicate SortedBy(s: seq<SaldoBancario>, collate: string -> real) {
    forall i, j :: 0 <= i < j < |s| ==> Key(collate, s[i]) <= Key(collate, s[j])
  }

  /** The `.sort` of `fetchSaldos`: the array is put in bank order in place, its contents kept. */
  method SortByBank(a: array<SaldoBancario>, collate: string -> real)
    modifies a
    ensures SortedBy(a[..], collate)
    ensures multiset(a[..]) == multiset(old(a[..]))
  {
    var i := 0;
    while i < a.Length
      invariant 0 <= i <= a.Length
      invariant SortedBy(a[..i], collate)
      invariant multiset(a[..]) == multiset(old(a[..]))
    {
      InsertAt(a, i, collate);
      i := i + 1;
    }
    assert a[..a.Length] == a[..];
  }

  /** One step of the insertion sort: `a[i]` sinks into the sorted prefix before it. */
  method InsertAt(a: array<SaldoBancario>, i: nat, collate: string -> real)
    requires i < a.Length && SortedBy(a[..i], collate)
    modifies a
    ensures SortedBy(a[..i + 1], collate)
    ensures multiset(a[..]) == multiset(old(a[..]))
  {
    var j := i;
    while j > 0 && Key(collate, a[j - 1]) > Key(collate, a[j])
      invariant 0 <= j <= i
      invariant forall p, q :: 0 <= p < q <= i && p != j && q != j ==> Key(collate, a[p]) <= Key(collate, a[q])
      invariant forall q :: j < q <= i ==> Key(collate, a[j]) <= Key(collate, a[q])
      invariant multiset(a[..]) == multiset(old(a[..]))
      decreases j
    {
      ghost var before := a[..];
      a[j - 1], a[j] := a[j], a[j - 1];
      assert a[..] == before[j - 1 := before[j]][j := before[j - 1]];
      j := j - 1;
    }
  }

  function Saldo(s: SaldoBancario): real {
    s.saldo
  }

  /** `totalSaldo`: the sum of the balances. */
  function Total(ss: seq<SaldoBancario>): (t: real)
    ensures ss == [] ==> t == 0.0
  {
    Sum(ss, Saldo)
  }

  /** Sorting does not change the total. */
  lemma TotalUnderReorder(xs: seq<SaldoBancario>, ys: seq<SaldoBancario>)
    requires multiset(xs) == multiset(ys)
    ensures Total(xs) == Total(ys)
  {
    SumPermutation(xs, ys, Saldo);
  }

  /** The total of two lists together is the sum of their totals. */
  lemma TotalAppend(xs: seq<SaldoBancario>, ys: seq<SaldoBancario>)
    ensures Total(xs + ys) == Total(xs) + Total(ys)
  {
    SumAppend(xs, ys, Saldo);
  }

  /** The toasts of the page; the success toasts say whether the change was made offline. */
  datatype SaldoToast = SaldoUpdated(offline: bool) | SaldoAdded(offline: bool) | SaveFailed | LoadFailed

  /** The list state of the page. */
  class SaldosPage {
    var saldos: seq<SaldoBancario>
    var toast: Option<SaldoToast>

    constructor ()
      ensures saldos == [] && toast.None?
    {
      saldos := [];
      toast := None;
    }

    /**
     * `fetchSaldos` given what the local store answered (`None` when the read threw):
     * the rows sorted by bank become the list, or the list is kept and an error toast shown.
     */
    method FetchSaldos(answer: Option<seq<SaldoBancario>>, collate: string -> real)
      modifies this
      ensures answer.Some? ==> SortedBy(saldos, collate) && multiset(saldos) == multiset(answer.value)
      ensures answer.Some? ==> Total(saldos) == Total(answer.value) && toast == old(toast)
      ensures answer.None? ==> saldos == old(saldos) && toast == Some(LoadFailed)
    {
      match answer
      case None =>
        toast := Some(LoadFailed);
      case Some(rows) =>
        var a := new SaldoBancario[|rows|](i requires 0 <= i < |rows| => rows[i]);
        assert a[..] == rows;
        SortByBank(a, collate);
        saldos := a[..];
        TotalUnderReorder(saldos, rows);
    }
  }

  /** The balance form's inputs. */
  datatype SaldoForm = SaldoForm(
    banco: string,
    tipoConta: string,
    saldo: string,
    numeroConta: string,
    agencia: string,
    observacoes: string)

  const EmptySaldoForm := SaldoForm("", "corrente", "", "", "", "")

  /** The record `handleSubmit` writes; it carries no user id. */
  datatype SaldoData = SaldoData(
    banco: string,
    tipoConta: string,
    saldo: Num,
    numeroConta: Option<string>,
    agencia: Option<string>,
    observacoes: Option<string>)

  /** `text || null`: the empty text becomes null. */
  function OrNull(text: string): (r: Option<string>)
    ensures r.None? <==> text == ""
    ensures r.Some? ==> r.value == text
  {
    if text == "" then None else Some(text)
  }

  /** The record built from the form: the balance by the money parse, empty optional texts as null. */
  function SaldoDataOf(f: SaldoForm): (d: SaldoData)
    ensures d.saldo == ParseMoney(f.saldo)
    ensures d.numeroConta == OrNull(f.numeroConta) && d.agencia == OrNull(f.agencia) && d.observacoes == OrNull(f.observacoes)
    ensures d.banco == f.banco && d.tipoConta == f.tipoConta
  {
    SaldoData(f.banco, f.tipoConta, ParseMoney(f.saldo), OrNull(f.numeroConta), OrNull(f.agencia), OrNull(f.observacoes))
  }

  /**
   * A balance typed the Brazilian way after a prefix without digits, commas or minus
   * signs ("R$ 1.234,56") is read exactly.
   */
  lemma SaldoBrazilianText(f: SaldoForm, p: string, i: string, j: string, cents: string)
    requires forall k :: 0 <= k < |p| ==> !IsMoneyChar(p[k])
    requires AllDigits(i) && AllDigits(j) && AllDigits(cents) && i != []
    requires f.saldo == p + i + "." + j + "," + cents
    ensures SaldoDataOf(f).saldo == Finite(Mantissa(DigitsValue(i + j), DigitsValue(cents), |cents|))
  {
    ParseMoneyBrazilian(p, i, j, cents);
  }

  datatype SaldoWrite = InsertSaldo(data: SaldoData) | UpdateSaldo(id: string, data: SaldoData)

  /** `handleSubmit`'s outcome: the write issued, the toast, and the form after. */
  datatype Submit = Submit(write: SaldoWrite, toast: SaldoToast, form: SaldoForm, editing: Option<SaldoBancario>, dialogOpen: bool)

  /**
   * `handleSubmit`: the write goes to the local-first store, which answers `success`;
   * `online` is the connection state shown in the toast.
   */
  function HandleSubmit(f: SaldoForm, editing: Option<SaldoBancario>, dialogOpen: bool, online: bool, success: bool): (s: Submit)
    ensures editing.Some? ==> s.write == UpdateSaldo(editing.value.id, SaldoDataOf(f))
    ensures editing.None? ==> s.write == InsertSaldo(SaldoDataOf(f))
    ensures success ==>
      s.form == EmptySaldoForm && s.editing.None? && !s.dialogOpen &&
      s.toast == (if editing.Some? then SaldoUpdated(!online) else SaldoAdded(!online))
    ensures !success ==>
      s.form == f && s.editing == editing && s.dialogOpen == dialogOpen && s.toast == SaveFailed
  {
    var data := SaldoDataOf(f);
    var write := if editing.Some? then UpdateSaldo(editing.value.id, data) else InsertSaldo(data);
    if success then Submit(write, if editing.Some? then SaldoUpdated(!online) else SaldoAdded(!online), EmptySaldoForm, None, false)
    else Submit(write, SaveFailed, f, editing, dialogOpen)
  }

  /** After a successful save the next submission adds a new account. */
  lemma SaveThenNew(f: SaldoForm, editing: Option<SaldoBancario>, open: bool, online: bool, g: SaldoForm)
    ensures var s := HandleSubmit(f, editing, open, online, true);
      HandleSubmit(g, s.editing, true, online, true).write == InsertSaldo(SaldoDataOf(g))
  {
  }

  /**
   * `handleEdit` as written: the form is filled from the account; `saldoText` is
   * `saldo.toString()`, missing optional texts become empty.
   */
  function EditForm(s: SaldoBancario, saldoText: string): (f: SaldoForm)
    ensures f.saldo == saldoText && f.banco == s.banco && f.tipoConta == s.tipoConta
    ensures f.agencia == "" <==> s.agencia.None? || s.agencia.value == ""
  {
    SaldoForm(s.banco, s.tipoConta, saldoText,
      if s.numeroConta.Some? then s.numeroConta.value else "",
      if s.agencia.Some? then s.agencia.value else "",
      if s.observacoes.Some? then s.observacoes.value else "")
  }

  /**
   * Editing a balance and saving it unchanged, as written: `toString` writes a point
   * the money parse drops, so a balance whose second decimal is not zero comes back a
   * hundred times larger.
   */
  lemma EditThenSaveInflates(s: SaldoBancario, c: nat)
    requires c % 10 != 0 && s.saldo == c as real / 100.0
    ensures SaldoDataOf(EditForm(s, DecimalText(c, '.'))).saldo == Finite(s.saldo * 100.0)
  {
    ParseMoneyPointText(c);
  }

  /** `handleEdit` corrected: the balance is shown with a decimal comma. */
  function EditFormFixed(s: SaldoBancario, saldoText: string): (f: SaldoForm)
    ensures f.saldo == ReplaceFirst(saldoText, '.', ',')
  {
    EditForm(s, ReplaceFirst(saldoText, '.', ','))
  }

  /** With the corrected form, editing and saving unchanged stores the balance and the texts as they were. */
  lemma EditThenSaveFixed(s: SaldoBancario, c: nat, t: string)
    requires s.saldo == c as real / 100.0 && t == DecimalText(c, '.')
    requires s.numeroConta != Some("") && s.agencia != Some("") && s.observacoes != Some("")
    ensures var d := SaldoDataOf(EditFormFixed(s, t));
      d.saldo == Finite(s.saldo) && d.banco == s.banco && d.tipoConta == s.tipoConta
      && d.numeroConta == s.numeroConta && d.agencia == s.agencia && d.observacoes == s.observacoes
  {
    CommaRoundTrip(c);
  }

  /** The account-type label: the first character upper-cased, the rest kept. */
  function Capitalize(tipo: string): (r: string)
    ensures |r| == |tipo|
    ensures tipo != [] ==> r[0] == UpperChar(tipo[0]) && r[1..] == tipo[1..]
  {
    if tipo == [] then [] else [UpperChar(tipo[0])] + tipo[1..]
  }

  /** Capitalizing a label again changes nothing. */
  lemma CapitalizeIdempotent(tipo: string)
    ensures Capitalize(Capitalize(tipo)) == Capitalize(tipo)
  {
    if tipo != [] {
      UpperCharIdempotent(tipo[0]);
    }
  }
}
