/**
 * The savings-goals page: goal progress and its motivational message, the days left to a
 * deadline, the record a submission writes, and the page's summary figures.
 */
module Metas {
  import opened Wrappers
  import opened JsText
  import opened JsNumber
  import opened Calendar
  import opened Lists

  /** A row of `metas_financeiras` as the page reads it. */
  datatype Meta = Meta(
    id: string,
    titulo: string,
    descricao: Option<string>,
    valorObjetivo: real,
    valorAtual: real,
    dataLimite: Option<string>,
    icone: string,
    cor: string,
    categoria: string,
    status: string)

  /** `getProgress`: the percentage reached, capped at 100; 0 for a target that is not positive. */
  function Progress(atual: real, objetivo: real): (p: real)
    ensures objetivo <= 0.0 ==> p == 0.0
    ensures p <= 100.0
    ensures objetivo > 0.0 ==> (p == 100.0 <==> atual >= objetivo)
    ensures objetivo > 0.0 && atual < objetivo ==> p * objetivo == atual * 100.0
    ensures atual >= 0.0 ==> p >= 0.0
  {
    if objetivo <= 0.0 then 0.0
    else
      var ratio := atual / objetivo * 100.0;
      if ratio < 100.0 then ratio else 100.0
  }

  /** Progress never decreases when the amount saved grows. */
  lemma ProgressMonotone(a1: real, a2: real, objetivo: real)
    requires a1 <= a2
    ensures Progress(a1, objetivo) <= Progress(a2, objetivo)
  {
    if objetivo > 0.0 {
      assert a1 / objetivo <= a2 / objetivo;
    }
  }

  /** The five messages of `getMotivationalMessage`, from the highest band down. */
  datatype Band = Achieved | AlmostThere | Halfway | GoodProgress | FirstStep

  /** `getMotivationalMessage`: the first threshold reached among 100, 75, 50, 25. */
  function MessageBand(progress: real): (b: Band)
    ensures b == Achieved <==> progress >= 100.0
    ensures b == AlmostThere <==> 75.0 <= progress < 100.0
    ensures b == Halfway <==> 50.0 <= progress < 75.0
    ensures b == GoodProgress <==> 25.0 <= progress < 50.0
    ensures b == FirstStep <==> progress < 25.0
  {
    if progress >= 100.0 then Achieved
    else if progress >= 75.0 then AlmostThere
    else if progress >= 50.0 then Halfway
    else if progress >= 25.0 then GoodProgress
    else FirstStep
  }

  function MessageText(b: Band): string {
    match b
    case Achieved => "🎉 Parabéns! Você conseguiu!"
    case AlmostThere => "🔥 Quase lá! Falta pouco!"
    case Halfway => "💪 Metade do caminho! Continue assim!"
    case GoodProgress => "🌟 Bom progresso! Não desista!"
    case FirstStep => "🚀 Todo sonho começa com um passo!"
  }

  /** The bands in order: 4 for the highest. */
  function Rank(b: Band): nat {
    match b
    case Achieved => 4
    case AlmostThere => 3
    case Halfway => 2
    case GoodProgress => 1
    case FirstStep => 0
  }

  /** More progress never gives a lower message. */
  lemma MessageMonotone(p1: real, p2: real)
    requires p1 <= p2
    ensures Rank(MessageBand(p1)) <= Rank(MessageBand(p2))
  {
  }

  /** For a positive target the congratulation is shown exactly when the target is reached. */
  lemma AchievedIffReached(atual: real, objetivo: real)
    requires objetivo > 0.0
    ensures MessageBand(Progress(atual, objetivo)) == Achieved <==> atual >= objetivo
  {
  }

  /**
   * `getDaysRemaining` at time `nowMs`: null without a deadline, NaN for one that does not
   * parse, otherwise the day difference rounded up.
   */
  function DaysRemaining(dataLimite: Option<string>, nowMs: int): (r: Option<Num>)
    ensures r.None? <==> dataLimite.None? || dataLimite.value == ""
    ensures r.Some? ==> (r.value.Finite? <==> DateOnlyTime(dataLimite.value).Some?)
    ensures r.Some? && r.value.Finite? ==>
      var diff := (DateOnlyTime(dataLimite.value).value - nowMs) as real;
      var days := r.value.v;
      days == days.Floor as real && (days - 1.0) * MsPerDay as real < diff <= days * MsPerDay as real
  {
    if dataLimite.None? || dataLimite.value == "" then None
    else
      match DateOnlyTime(dataLimite.value)
      case None => Some(NaN)
      case Some(limit) =>
        var d := Ceil((limit - nowMs) as real / MsPerDay as real);
        CeilDays((limit - nowMs) as real, d);
        Some(Finite(d as real))
  }

  lemma CeilDays(diff: real, d: int)
    requires d as real - 1.0 < diff / MsPerDay as real <= d as real
    ensures (d as real - 1.0) * MsPerDay as real < diff <= d as real * MsPerDay as real
  {
  }

  /** Whole days: n - 1 < k <= n forces n == k. */
  lemma WholeDays(n: int, k: int)
    requires (n - 1) * MsPerDay < k * MsPerDay <= n * MsPerDay
    ensures n == k
  {
  }

  /** A deadline exactly k days after the current instant is k days away. */
  lemma WholeDaysRemaining(date: Date, k: int)
    requires ValidDate(date) && 0 <= date.year <= 9999
    ensures DaysRemaining(Some(IsoDateText(date)), (DayNumber(date) - k) * MsPerDay) == Some(Finite(k as real))
  {
    IsoDateRoundTrip(date);
    var r := DaysRemaining(Some(IsoDateText(date)), (DayNumber(date) - k) * MsPerDay);
    var n := r.value.v.Floor;
    assert ((n - 1) * MsPerDay) as real == (n as real - 1.0) * MsPerDay as real;
    assert (n * MsPerDay) as real == n as real * MsPerDay as real;
    assert (k * MsPerDay) as real == (DayNumber(date) * MsPerDay - (DayNumber(date) - k) * MsPerDay) as real;
    WholeDays(n, k);
  }

  /** The goal form's inputs, as text. */
  datatype GoalForm = GoalForm(
    titulo: string,
    descricao: string,
    valorObjetivo: string,
    valorAtual: string,
    dataLimite: string,
    icone: string,
    cor: string,
    categoria: string)

  /** `resetForm`'s values. */
  const EmptyGoalForm := GoalForm("", "", "", "", "", "🎯", "#8B5CF6", "outro")

  /** The record `handleSubmit` writes. */
  datatype GoalData = GoalData(
    titulo: string,
    descricao: Option<string>,
    valorObjetivo: Num,
    valorAtual: real,
    dataLimite: Option<string>,
    icone: string,
    cor: string,
    categoria: string,
    userId: Option<string>,
    status: string)

  /** The submission is refused when the title or the target is empty. */
  predicate Complete(f: GoalForm) {
    f.titulo != "" && f.valorObjetivo != ""
  }

  /** The record built from the form: empty texts become null, an unreadable current value 0. */
  function GoalDataOf(f: GoalForm, user: Option<string>): (d: GoalData)
    ensures d.descricao.None? <==> f.descricao == ""
    ensures d.dataLimite.None? <==> f.dataLimite == ""
    ensures d.descricao.Some? ==> d.descricao.value == f.descricao
    ensures d.dataLimite.Some? ==> d.dataLimite.value == f.dataLimite
    ensures d.valorObjetivo == ParseFloat(f.valorObjetivo)
    ensures d.valorAtual == OrZero(ParseFloat(f.valorAtual))
    ensures d.status == "concluida" <==> AtLeast(ParseFloat(f.valorAtual), ParseFloat(f.valorObjetivo))
    ensures d.status != "concluida" ==> d.status == "em_progresso"
  {
    GoalData(
      f.titulo,
      if f.descricao == "" then None else Some(f.descricao),
      ParseFloat(f.valorObjetivo),
      OrZero(ParseFloat(f.valorAtual)),
      if f.dataLimite == "" then None else Some(f.dataLimite),
      f.icone, f.cor, f.categoria, user,
      if AtLeast(ParseFloat(f.valorAtual), ParseFloat(f.valorObjetivo)) then "concluida" else "em_progresso")
  }

  /** An empty current value is stored as 0 yet the goal stays in progress, even for a target of 0. */
  lemma EmptyCurrentInProgress(f: GoalForm, user: Option<string>)
    requires f.valorAtual == ""
    ensures GoalDataOf(f, user).valorAtual == 0.0
    ensures GoalDataOf(f, user).status == "em_progresso"
  {
    assert TrimStart(f.valorAtual) == "";
    assert DecimalPrefix("") == None;
  }

  /** A completed goal has both amounts readable and the current one at least the target. */
  lemma CompletedReadable(f: GoalForm, user: Option<string>)
    requires GoalDataOf(f, user).status == "concluida"
    ensures GoalDataOf(f, user).valorObjetivo.Finite?
    ensures GoalDataOf(f, user).valorAtual >= GoalDataOf(f, user).valorObjetivo.v
  {
  }

  /** The figures above the list. */
  datatype Summary = Summary(totalMetas: nat, metasConcluidas: nat, totalObjetivo: real, totalAtual: real)

  predicate IsCompleted(m: Meta) {
    m.status == "concluida"
  }

  function TargetOf(m: Meta): real {
    m.valorObjetivo
  }

  function SavedOf(m: Meta): real {
    m.valorAtual
  }

  function Summarize(metas: seq<Meta>): (s: Summary)
    ensures s.metasConcluidas <= s.totalMetas == |metas|
    ensures s.totalObjetivo == Sum(metas, TargetOf) && s.totalAtual == Sum(metas, SavedOf)
  {
    Summary(|metas|, CountWhere(metas, IsCompleted), Sum(metas, TargetOf), Sum(metas, SavedOf))
  }

  /** Adding a goal to the list adds its amounts, and counts it when it is completed. */
  lemma {:induction false} SummarizeSnoc(metas: seq<Meta>, m: Meta)
    ensures var s, t := Summarize(metas), Summarize(metas + [m]);
      && t.totalMetas == s.totalMetas + 1
      && t.metasConcluidas == s.metasConcluidas + (if IsCompleted(m) then 1 else 0)
      && t.totalObjetivo == s.totalObjetivo + m.valorObjetivo
      && t.totalAtual == s.totalAtual + m.valorAtual
  {
    var xs := metas + [m];
    assert xs[..|xs| - 1] == metas;
  }

  /** A write `handleSubmit` sends. */
  datatype GoalWrite = InsertGoal(data: GoalData) | UpdateGoal(id: string, data: GoalData)

  datatype GoalToast = MissingFields | GoalUpdated | GoalCreated | SaveFailed | LoadFailed

  /** The write for the form: an update of the goal being edited, else an insert. */
  function WriteFor(editing: Option<Meta>, data: GoalData): (w: GoalWrite)
    ensures w.data == data
    ensures w.UpdateGoal? <==> editing.Some?
    ensures w.UpdateGoal? ==> w.id == editing.value.id
  {
    if editing.Some? then UpdateGoal(editing.value.id, data) else InsertGoal(data)
  }

  /** The page's state: the goals shown, the form, the goal being edited and the effects. */
  class MetasPage {
    var metas: seq<Meta>
    var isLoading: bool
    var isDialogOpen: bool
    var editing: Option<Meta>
    var form: GoalForm
    var writes: seq<GoalWrite>
    var toasts: seq<GoalToast>

    constructor ()
      ensures metas == [] && isLoading && !isDialogOpen && editing.None? && form == EmptyGoalForm
      ensures writes == [] && toasts == []
    {
      metas := [];
      isLoading := true;
      isDialogOpen := false;
      editing := None;
      form := EmptyGoalForm;
      writes := [];
      toasts := [];
    }

    /** `fetchMetas` with the query's answer: rows (null read as none) or an error. */
    method FetchMetas(answer: Result<Option<seq<Meta>>, string>)
      modifies this
      ensures answer.Ok? ==> metas == (if answer.value.Some? then answer.value.value else [])
      ensures answer.Ok? ==> toasts == old(toasts)
      ensures answer.Err? ==> metas == old(metas) && toasts == old(toasts) + [LoadFailed]
      ensures !isLoading
      ensures isDialogOpen == old(isDialogOpen) && editing == old(editing) && form == old(form)
      ensures writes == old(writes)
    {
      match answer {
        case Ok(data) =>
          metas := if data.Some? then data.value else [];
        case Err(_) =>
          toasts := toasts + [LoadFailed];
      }
      isLoading := false;
    }

    /** `resetForm`. */
    method ResetForm()
      modifies this
      ensures form == EmptyGoalForm && editing.None?
      ensures metas == old(metas) && isLoading == old(isLoading) && isDialogOpen == old(isDialogOpen)
      ensures writes == old(writes) && toasts == old(toasts)
    {
      form := EmptyGoalForm;
      editing := None;
    }

    /**
     * `handleSubmit`, with `saved` telling whether the write succeeded: an incomplete form
     * writes nothing; a failed write keeps the form open.
     */
    method HandleSubmit(user: Option<string>, saved: bool)
      modifies this
      ensures !Complete(old(form)) ==>
        writes == old(writes) && toasts == old(toasts) + [MissingFields] &&
        form == old(form) && editing == old(editing) && isDialogOpen == old(isDialogOpen)
      ensures Complete(old(form)) ==>
        writes == old(writes) + [WriteFor(old(editing), GoalDataOf(old(form), user))]
      ensures Complete(old(form)) && !saved ==>
        toasts == old(toasts) + [SaveFailed] &&
        form == old(form) && editing == old(editing) && isDialogOpen == old(isDialogOpen)
      ensures Complete(old(form)) && saved ==>
        toasts == old(toasts) + [if old(editing).Some? then GoalUpdated else GoalCreated] &&
        form == EmptyGoalForm && editing.None? && !isDialogOpen
      ensures metas == old(metas) && isLoading == old(isLoading)
    {
      if form.titulo == "" || form.valorObjetivo == "" {
        toasts := toasts + [MissingFields];
        return;
      }
      var data := GoalDataOf(form, user);
      if editing.Some? {
        writes := writes + [UpdateGoal(editing.value.id, data)];
      } else {
        writes := writes + [InsertGoal(data)];
      }
      if !saved {
        toasts := toasts + [SaveFailed];
        return;
      }
      toasts := toasts + [if editing.Some? then GoalUpdated else GoalCreated];
      ResetForm();
      isDialogOpen := false;
    }
  }
}
