/**
 * The debts page: the record a submission writes, the total still owed, the per-category
 * breakdown for the chart, the overdue count and the status colours.
 */
module Dividas {
  import opened Wrappers
  import opened JsNumber
  import opened Calendar

  /** A row of `dividas` as the page reads it. */
  datatype Divida = Divida(
    id: string,
    descricao: string,
    valorTotal: real,
    valorPago: real,
    valorRestante: real,
    dataVencimento: Option<string>,
    status: string,
    categoria: Option<string>,
    observacoes: Option<string>)

  /** The debt form's inputs, as text. */
  datatype DebtForm = DebtForm(
    descricao: string,
    valorTotal: string,
    valorPago: string,
    dataVencimento: string,
    status: string,
    categoria: string,
    observacoes: string)

  const EmptyDebtForm := DebtForm("", "", "", "", "pendente", "", "")

  /** The record `handleSubmit` writes. */
  datatype DebtData = DebtData(
    userId: string,
    descricao: string,
    valorTotal: Num,
    valorPago: Num,
    valorRestante: Num,
    dataVencimento: Option<string>,
    status: string,
    categoria: string,
    observacoes: string)

  /** The record built from the form: the remaining value is total minus paid, an empty date is null. */
  function DebtDataOf(f: DebtForm, userId: string): (d: DebtData)
    ensures d.valorTotal == ParseFloat(f.valorTotal) && d.valorPago == ParseFloat(f.valorPago)
    ensures d.valorRestante.Finite? <==> d.valorTotal.Finite? && d.valorPago.Finite?
    ensures d.valorRestante.Finite? ==> d.valorRestante.v + d.valorPago.v == d.valorTotal.v
    ensures d.dataVencimento.None? <==> f.dataVencimento == ""
    ensures d.dataVencimento.Some? ==> d.dataVencimento.value == f.dataVencimento
    ensures d.status == f.status && d.categoria == f.categoria && d.userId == userId
  {
    var total := ParseFloat(f.valorTotal);
    var pago := ParseFloat(f.valorPago);
    DebtData(userId, f.descricao, total, pago, Sub(total, pago),
      if f.dataVencimento == "" then None else Some(f.dataVencimento),
      f.status, f.categoria, f.observacoes)
  }

  /** The total still owed: the sum of the remaining values. */
  function Total(ds: seq<Divida>): real {
    if ds == [] then 0.0 else Total(ds[..|ds| - 1]) + ds[|ds| - 1].valorRestante
  }

  /** The chart bucket of a debt: its category, or 'Sem categoria' when it has none. */
  function Key(d: Divida): (k: string)
    ensures k != ""
  {
    if d.categoria.Some? && d.categoria.value != "" then d.categoria.value else "Sem categoria"
  }

  /** An entry of the accumulator object: a category and the sum so far. */
  datatype Bucket = Bucket(categoria: string, valor: real)

  /** Where category k sits in the accumulator, or -1 when it has no entry yet. */
  function IndexOfKey(bs: seq<Bucket>, k: string): (i: int)
    ensures -1 <= i < |bs|
    ensures i >= 0 ==> bs[i].categoria == k
    ensures i < 0 ==> forall j :: 0 <= j < |bs| ==> bs[j].categoria != k
  {
    if bs == [] then -1
    else if bs[|bs| - 1].categoria == k then |bs| - 1
    else IndexOfKey(bs[..|bs| - 1], k)
  }

  /** `acc[k] || 0`: the sum so far for category k, 0 when it has no entry. */
  function Get(bs: seq<Bucket>, k: string): real {
    var i := IndexOfKey(bs, k);
    if i >= 0 then bs[i].valor else 0.0
  }

  /** `acc[k] = (acc[k] || 0) + v`: an existing entry grows in place, a new one goes last. */
  function AddTo(bs: seq<Bucket>, k: string, v: real): seq<Bucket> {
    var i := IndexOfKey(bs, k);
    if i >= 0 then bs[i := Bucket(k, bs[i].valor + v)] else bs + [Bucket(k, v)]
  }

  /** The accumulator after the `reduce` over ds, in insertion order. */
  function Buckets(ds: seq<Divida>): seq<Bucket> {
    if ds == [] then [] else AddTo(Buckets(ds[..|ds| - 1]), Key(ds[|ds| - 1]), ds[|ds| - 1].valorRestante)
  }

  /** One more debt of the list adds its remaining value to its bucket. */
  lemma BucketsStep(ds: seq<Divida>, i: nat)
    requires i < |ds|
    ensures Buckets(ds[..i + 1]) == AddTo(Buckets(ds[..i]), Key(ds[i]), ds[i].valorRestante)
  {
    assert ds[..i + 1][..i] == ds[..i];
  }

  /** Does some debt of ds fall in bucket k? */
  predicate Mentions(ds: seq<Divida>, k: string) {
    ds != [] && (Mentions(ds[..|ds| - 1], k) || Key(ds[|ds| - 1]) == k)
  }

  /** The remaining values of the debts in bucket k. */
  function BucketSum(ds: seq<Divida>, k: string): real {
    if ds == [] then 0.0
    else BucketSum(ds[..|ds| - 1], k) + (if Key(ds[|ds| - 1]) == k then ds[|ds| - 1].valorRestante else 0.0)
  }

  function ValuesSum(bs: seq<Bucket>): real {
    if bs == [] then 0.0 else ValuesSum(bs[..|bs| - 1]) + bs[|bs| - 1].valor
  }

  predicate DistinctKeys(bs: seq<Bucket>) {
    forall i, j :: 0 <= i < j < |bs| ==> bs[i].categoria != bs[j].categoria
  }

  lemma {:induction false} ValuesSumUpdate(bs: seq<Bucket>, i: nat, b: Bucket)
    requires i < |bs|
    ensures ValuesSum(bs[i := b]) == ValuesSum(bs) - bs[i].valor + b.valor
    decreases |bs|
  {
    var cs := bs[i := b];
    if i < |bs| - 1 {
      assert cs[..|cs| - 1] == bs[..|bs| - 1][i := b];
      ValuesSumUpdate(bs[..|bs| - 1], i, b);
    } else {
      assert cs[..|cs| - 1] == bs[..|bs| - 1];
    }
  }

  lemma AddToSum(bs: seq<Bucket>, k: string, v: real)
    ensures ValuesSum(AddTo(bs, k, v)) == ValuesSum(bs) + v
  {
    var i := IndexOfKey(bs, k);
    if i >= 0 {
      ValuesSumUpdate(bs, i, Bucket(k, bs[i].valor + v));
    } else {
      assert (bs + [Bucket(k, v)])[..|bs|] == bs;
    }
  }

  /** The bucket sums add up to the total. */
  lemma {:induction false} BucketsTotal(ds: seq<Divida>)
    ensures ValuesSum(Buckets(ds)) == Total(ds)
  {
    if ds != [] {
      BucketsTotal(ds[..|ds| - 1]);
      AddToSum(Buckets(ds[..|ds| - 1]), Key(ds[|ds| - 1]), ds[|ds| - 1].valorRestante);
    }
  }

  /** Overwriting an entry with one of the same category moves no key. */
  lemma {:induction false} IndexOfKeyUpdate(bs: seq<Bucket>, i: nat, b: Bucket, k: string)
    requires i < |bs| && b.categoria == bs[i].categoria
    ensures IndexOfKey(bs[i := b], k) == IndexOfKey(bs, k)
    decreases |bs|
  {
    var cs := bs[i := b];
    if i < |bs| - 1 {
      assert cs[..|cs| - 1] == bs[..|bs| - 1][i := b];
      IndexOfKeyUpdate(bs[..|bs| - 1], i, b, k);
    } else {
      assert cs[..|cs| - 1] == bs[..|bs| - 1];
    }
  }

  /** Adding to category k2 changes only k2's entry, and keeps categories distinct. */
  lemma AddToGet(bs: seq<Bucket>, k2: string, v: real, k: string)
    requires DistinctKeys(bs)
    ensures DistinctKeys(AddTo(bs, k2, v))
    ensures IndexOfKey(AddTo(bs, k2, v), k) >= 0 <==> IndexOfKey(bs, k) >= 0 || k == k2
    ensures Get(AddTo(bs, k2, v), k) == Get(bs, k) + (if k == k2 then v else 0.0)
  {
    var i := IndexOfKey(bs, k2);
    if i >= 0 {
      IndexOfKeyUpdate(bs, i, Bucket(k2, bs[i].valor + v), k);
    } else {
      var cs := bs + [Bucket(k2, v)];
      assert cs[..|cs| - 1] == bs;
    }
  }

  /**
   * Each debt lands in exactly one bucket: the accumulator has one entry per category that
   * occurs, none for the others, and each entry holds the sum of exactly its debts.
   */
  lemma {:induction false} BucketsExact(ds: seq<Divida>, k: string)
    ensures DistinctKeys(Buckets(ds))
    ensures IndexOfKey(Buckets(ds), k) >= 0 <==> Mentions(ds, k)
    ensures Get(Buckets(ds), k) == BucketSum(ds, k)
  {
    if ds != [] {
      var front, last := ds[..|ds| - 1], ds[|ds| - 1];
      BucketsExact(front, k);
      AddToGet(Buckets(front), Key(last), last.valorRestante, k);
    }
  }

  /** A row of the chart data: the bucket, and its share of the total. */
  datatype Share = NoShare | Percent(value: real)

  datatype CategoryRow = CategoryRow(categoria: string, valor: real, percentage: Share)

  /**
   * `Object.entries(...).map(...)`: the share is '0' unless the total is positive, else the
   * bucket's percentage (shown with one decimal by `toFixed(1)`).
   */
  function CategoryRows(bs: seq<Bucket>, total: real): (rows: seq<CategoryRow>)
    ensures |rows| == |bs|
    ensures forall i :: 0 <= i < |bs| ==> rows[i].categoria == bs[i].categoria && rows[i].valor == bs[i].valor
    ensures forall i :: 0 <= i < |bs| ==> (rows[i].percentage.NoShare? <==> total <= 0.0)
    ensures total > 0.0 ==> forall i :: 0 <= i < |bs| ==> rows[i].percentage.value * total == bs[i].valor * 100.0
  {
    if bs == [] then []
    else
      var b := bs[|bs| - 1];
      CategoryRows(bs[..|bs| - 1], total) + [CategoryRow(b.categoria, b.valor, if total > 0.0 then Percent(b.valor / total * 100.0) else NoShare)]
  }

  /** Is the debt overdue at `nowMs`: a due date strictly before now and not paid. */
  predicate Overdue(d: Divida, nowMs: int) {
    d.dataVencimento.Some? && d.dataVencimento.value != ""
    && DateOnlyTime(d.dataVencimento.value).Some? && DateOnlyTime(d.dataVencimento.value).value < nowMs
    && d.status != "pago"
  }

  /** `dividasVencidas`: how many debts are overdue. */
  function OverdueCount(ds: seq<Divida>, nowMs: int): (n: nat)
    ensures n <= |ds|
    ensures n == 0 <==> forall i :: 0 <= i < |ds| ==> !Overdue(ds[i], nowMs)
  {
    if ds == [] then 0
    else
      var front := ds[..|ds| - 1];
      assert forall i :: 0 <= i < |front| ==> front[i] == ds[i];
      OverdueCount(front, nowMs) + (if Overdue(ds[|ds| - 1], nowMs) then 1 else 0)
  }

  /** Paid debts are never counted as overdue. */
  lemma PaidNotOverdue(ds: seq<Divida>, nowMs: int)
    requires forall i :: 0 <= i < |ds| ==> ds[i].status == "pago"
    ensures OverdueCount(ds, nowMs) == 0
  {
  }

  /** The colour classes of a status badge. */
  datatype Tone = Success | Destructive | Warning

  /** `getStatusColor`: paid is success, overdue is destructive, anything else a warning. */
  function StatusTone(status: string): (t: Tone)
    ensures t == Success <==> status == "pago"
    ensures t == Destructive <==> status == "em_atraso"
    ensures t == Warning <==> status != "pago" && status != "em_atraso"
  {
    if status == "pago" then Success
    else if status == "em_atraso" then Destructive
    else Warning
  }

  function ToneClasses(t: Tone): string {
    match t
    case Success => "bg-success text-success-foreground"
    case Destructive => "bg-destructive text-destructive-foreground"
    case Warning => "bg-warning text-warning-foreground"
  }

  datatype DebtWrite = InsertDebt(data: DebtData) | UpdateDebt(id: string, data: DebtData)

  datatype DebtToast = DebtUpdated | DebtCreated | SaveFailed | LoadFailed

  /** The page's state: the debts shown, the form, the debt being edited, and the effects. */
  class DividasPage {
    var dividas: seq<Divida>
    var isDialogOpen: bool
    var editing: Option<Divida>
    var form: DebtForm
    var writes: seq<DebtWrite>
    var toasts: seq<DebtToast>

    constructor ()
      ensures dividas == [] && !isDialogOpen && editing.None? && form == EmptyDebtForm
      ensures writes == [] && toasts == []
    {
      dividas := [];
      isDialogOpen := false;
      editing := None;
      form := EmptyDebtForm;
      writes := [];
      toasts := [];
    }

    /** The accumulator of the category `reduce`, built entry by entry. */
    method CategoryTotals() returns (acc: seq<Bucket>)
      ensures acc == Buckets(dividas)
    {
      var ds := dividas;
      acc := [];
      var i := 0;
      while i < |ds|
        invariant 0 <= i <= |ds|
        invariant acc == Buckets(ds[..i])
      {
        BucketsStep(ds, i);
        acc := AddEntry(acc, Key(ds[i]), ds[i].valorRestante);
        i := i + 1;
      }
      assert ds[..i] == ds;
    }

    /** The `reduce` callback: add to the category's entry, or append one for a new category. */
    static method AddEntry(acc: seq<Bucket>, k: string, v: real) returns (acc': seq<Bucket>)
      ensures acc' == AddTo(acc, k, v)
    {
      var j := IndexOfKey(acc, k);
      if j >= 0 {
        acc' := acc[j := Bucket(k, acc[j].valor + v)];
      } else {
        acc' := acc + [Bucket(k, v)];
      }
    }

    /** `fetchDividas`: without a user nothing happens; an error keeps the list. */
    method FetchDividas(user: Option<string>, answer: Result<Option<seq<Divida>>, string>)
      modifies this
      ensures user.None? ==> dividas == old(dividas) && toasts == old(toasts)
      ensures user.Some? && answer.Ok? ==>
        dividas == (if answer.value.Some? then answer.value.value else []) && toasts == old(toasts)
      ensures user.Some? && answer.Err? ==> dividas == old(dividas) && toasts == old(toasts) + [LoadFailed]
      ensures isDialogOpen == old(isDialogOpen) && editing == old(editing) && form == old(form)
      ensures writes == old(writes)
    {
      if user.None? {
        return;
      }
      match answer {
        case Ok(data) =>
          dividas := if data.Some? then data.value else [];
        case Err(_) =>
          toasts := toasts + [LoadFailed];
      }
    }

    /**
     * `handleSubmit`, with the signed-in user and whether the write succeeded: without a
     * user nothing is written; success closes the dialog and resets the form.
     */
    method HandleSubmit(user: Option<string>, saved: bool)
      modifies this
      ensures user.None? ==>
        writes == old(writes) && toasts == old(toasts) && form == old(form) &&
        editing == old(editing) && isDialogOpen == old(isDialogOpen)
      ensures user.Some? ==>
        var data := DebtDataOf(old(form), user.value);
        writes == old(writes) + [if old(editing).Some? then UpdateDebt(old(editing).value.id, data) else InsertDebt(data)]
      ensures user.Some? && !saved ==>
        toasts == old(toasts) + [SaveFailed] && form == old(form) && editing == old(editing) && isDialogOpen == old(isDialogOpen)
      ensures user.Some? && saved ==>
        toasts == old(toasts) + [if old(editing).Some? then DebtUpdated else DebtCreated]
        && !isDialogOpen && editing.None? && form == EmptyDebtForm
      ensures dividas == old(dividas)
    {
      if user.None? {
        return;
      }
      var data := DebtDataOf(form, user.value);
      if editing.Some? {
        writes := writes + [UpdateDebt(editing.value.id, data)];
      } else {
        writes := writes + [InsertDebt(data)];
      }
      if !saved {
        toasts := toasts + [SaveFailed];
        return;
      }
      toasts := toasts + [if editing.Some? then DebtUpdated else DebtCreated];
      isDialogOpen := false;
      editing := None;
      form := EmptyDebtForm;
    }
  }
}
