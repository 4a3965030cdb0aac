/**
 * The settings page: the default categories created for a user without any, the guard and
 * the error report of the new-category form, and the per-type listing and labels.
 */
module Configuracoes {
  import opened Wrappers
  import opened Lists

  /** A stored category. */
  datatype Categoria = Categoria(id: string, nome: string, tipo: string, userId: string)

  /** A category as inserted: the table assigns the id. */
  datatype NewCategory = NewCategory(nome: string, tipo: string, userId: string)

  const ReceitaNames: seq<string> := ["Trabalho", "Renda Passiva", "Freelance", "Investimentos", "Vendas", "Outros"]
  const DespesaNames: seq<string> := ["Moradia", "Alimentação", "Transporte", "Utilidades", "Saúde", "Educação",
    "Entretenimento", "Vestuário", "Seguros", "Outros"]
  const DividaNames: seq<string> := ["Cartão", "Empréstimo", "Financiamento", "Veículo", "Imóvel", "Outros"]

  /** No name is listed twice. */
  predicate Distinct(names: seq<string>) {
    forall i, j :: 0 <= i < j < |names| ==> names[i] != names[j]
  }

  /** The categories of one type, in the order of the names, tagged with the user. */
  function Tagged(names: seq<string>, tipo: string, userId: string): (cs: seq<NewCategory>)
    ensures |cs| == |names|
    ensures forall i :: 0 <= i < |names| ==> cs[i] == NewCategory(names[i], tipo, userId)
  {
    seq(|names|, i requires 0 <= i < |names| => NewCategory(names[i], tipo, userId))
  }

  /** The list `createDefaultCategories` inserts. */
  function DefaultCategories(userId: string): (cs: seq<NewCategory>)
    ensures |cs| == 22
    ensures forall i :: 0 <= i < |cs| ==> cs[i].userId == userId
  {
    Tagged(ReceitaNames, "receita", userId) + Tagged(DespesaNames, "despesa", userId) + Tagged(DividaNames, "divida", userId)
  }

  /** Names are distinct within each type ('Outros' is the only name that recurs, once per type). */
  lemma DefaultNamesDistinct()
    ensures Distinct(ReceitaNames) && Distinct(DespesaNames) && Distinct(DividaNames)
    ensures |ReceitaNames| == 6 && |DespesaNames| == 10 && |DividaNames| == 6
  {
  }

  predicate OfTipo(c: NewCategory, tipo: string) {
    c.tipo == tipo
  }

  function TipoFilter(tipo: string): NewCategory -> bool {
    c => OfTipo(c, tipo)
  }

  /** The defaults of each type are the six, ten and six names of that type, in their listed order. */
  lemma DefaultsByTipo(userId: string)
    ensures Filter(DefaultCategories(userId), TipoFilter("receita")) == Tagged(ReceitaNames, "receita", userId)
    ensures Filter(DefaultCategories(userId), TipoFilter("despesa")) == Tagged(DespesaNames, "despesa", userId)
    ensures Filter(DefaultCategories(userId), TipoFilter("divida")) == Tagged(DividaNames, "divida", userId)
  {
    SplitByTipo(Tagged(ReceitaNames, "receita", userId), Tagged(DespesaNames, "despesa", userId), Tagged(DividaNames, "divida", userId));
  }

  /** Incomes, then expenses, then debts: filtering by a type gives back that type's block. */
  lemma SplitByTipo(r: seq<NewCategory>, d: seq<NewCategory>, v: seq<NewCategory>)
    requires forall i :: 0 <= i < |r| ==> r[i].tipo == "receita"
    requires forall i :: 0 <= i < |d| ==> d[i].tipo == "despesa"
    requires forall i :: 0 <= i < |v| ==> v[i].tipo == "divida"
    ensures Filter(r + d + v, TipoFilter("receita")) == r
    ensures Filter(r + d + v, TipoFilter("despesa")) == d
    ensures Filter(r + d + v, TipoFilter("divida")) == v
  {
    FirstBlock(r, d, v, "receita");
    MiddleBlock(r, d, v, "despesa");
    LastBlock(r, d, v, "divida");
  }

  lemma FirstBlock(a: seq<NewCategory>, b: seq<NewCategory>, c: seq<NewCategory>, tipo: string)
    requires forall i :: 0 <= i < |a| ==> a[i].tipo == tipo
    requires forall i :: 0 <= i < |b| ==> b[i].tipo != tipo
    requires forall i :: 0 <= i < |c| ==> c[i].tipo != tipo
    ensures Filter(a + b + c, TipoFilter(tipo)) == a
  {
    OneTipo(a, b, c, tipo);
    ThreeParts(a, b, c, tipo);
    var none: seq<NewCategory> := [];
    assert a + none == a;
  }

  lemma MiddleBlock(a: seq<NewCategory>, b: seq<NewCategory>, c: seq<NewCategory>, tipo: string)
    requires forall i :: 0 <= i < |a| ==> a[i].tipo != tipo
    requires forall i :: 0 <= i < |b| ==> b[i].tipo == tipo
    requires forall i :: 0 <= i < |c| ==> c[i].tipo != tipo
    ensures Filter(a + b + c, TipoFilter(tipo)) == b
  {
    OneTipo(b, a, c, tipo);
    ThreeParts(a, b, c, tipo);
    var none: seq<NewCategory> := [];
    assert none + b == b;
    assert b + none == b;
  }

  lemma LastBlock(a: seq<NewCategory>, b: seq<NewCategory>, c: seq<NewCategory>, tipo: string)
    requires forall i :: 0 <= i < |a| ==> a[i].tipo != tipo
    requires forall i :: 0 <= i < |b| ==> b[i].tipo != tipo
    requires forall i :: 0 <= i < |c| ==> c[i].tipo == tipo
    ensures Filter(a + b + c, TipoFilter(tipo)) == c
  {
    OneTipo(c, a, b, tipo);
    ThreeParts(a, b, c, tipo);
    var none: seq<NewCategory> := [];
    assert none + none == none;
    assert none + c == c;
  }

  lemma ThreeParts(a: seq<NewCategory>, b: seq<NewCategory>, c: seq<NewCategory>, tipo: string)
    ensures Filter(a + b + c, TipoFilter(tipo)) == Filter(a, TipoFilter(tipo)) + Filter(b, TipoFilter(tipo)) + Filter(c, TipoFilter(tipo))
  {
    FilterAppend(a + b, c, TipoFilter(tipo));
    FilterAppend(a, b, TipoFilter(tipo));
  }

  /** Filtering three single-type lists by the first list's type keeps that list whole and drops the others. */
  lemma OneTipo(mine: seq<NewCategory>, other1: seq<NewCategory>, other2: seq<NewCategory>, tipo: string)
    requires forall i :: 0 <= i < |mine| ==> mine[i].tipo == tipo
    requires forall i :: 0 <= i < |other1| ==> other1[i].tipo != tipo
    requires forall i :: 0 <= i < |other2| ==> other2[i].tipo != tipo
    ensures Filter(mine, TipoFilter(tipo)) == mine
    ensures Filter(other1, TipoFilter(tipo)) == [] && Filter(other2, TipoFilter(tipo)) == []
  {
    FilterAll(mine, TipoFilter(tipo));
    FilterNone(other1, TipoFilter(tipo));
    FilterNone(other2, TipoFilter(tipo));
  }

  /** The defaults are created only for a signed-in user whose category list is empty. */
  function DefaultsToCreate(user: Option<string>, categorias: seq<Categoria>): (r: Option<seq<NewCategory>>)
    ensures r.Some? <==> user.Some? && |categorias| == 0
    ensures r.Some? ==> r.value == DefaultCategories(user.value)
  {
    if user.Some? && |categorias| == 0 then Some(DefaultCategories(user.value)) else None
  }

  predicate StoredOfTipo(c: Categoria, tipo: string) {
    c.tipo == tipo
  }

  function StoredTipoFilter(tipo: string): Categoria -> bool {
    c => StoredOfTipo(c, tipo)
  }

  /** `getCategoriasByTipo`: the categories of the type, in their listed order. */
  function CategoriasByTipo(categorias: seq<Categoria>, tipo: string): (r: seq<Categoria>)
    ensures forall i :: 0 <= i < |r| ==> r[i].tipo == tipo
  {
    Filter(categorias, StoredTipoFilter(tipo))
  }

  /** Every category of the type is listed as often as it is stored, and no other is. */
  lemma CategoriasByTipoExact(categorias: seq<Categoria>, tipo: string, c: Categoria)
    ensures multiset(CategoriasByTipo(categorias, tipo))[c] == if c.tipo == tipo then multiset(categorias)[c] else 0
  {
    FilterOccurrences(categorias, StoredTipoFilter(tipo), c);
  }

  /** The three type lists together hold every category of the three types. */
  lemma ByTipoAppend(xs: seq<Categoria>, ys: seq<Categoria>, tipo: string)
    ensures CategoriasByTipo(xs + ys, tipo) == CategoriasByTipo(xs, tipo) + CategoriasByTipo(ys, tipo)
  {
    FilterAppend(xs, ys, StoredTipoFilter(tipo));
  }

  /** `getTipoLabel`: the plural heading of a type; any other text is shown as it is. */
  function TipoLabel(tipo: string): (text: string)
    ensures tipo == "receita" ==> text == "Receitas"
    ensures tipo == "despesa" ==> text == "Despesas"
    ensures tipo == "divida" ==> text == "Dívidas"
    ensures tipo !in {"receita", "despesa", "divida"} ==> text == tipo
  {
    match tipo
    case "receita" => "Receitas"
    case "despesa" => "Despesas"
    case "divida" => "Dívidas"
    case _ => tipo
  }

  /** `getTipoBadgeVariant`. */
  function TipoBadgeVariant(tipo: string): (v: string)
    ensures v == "default" <==> tipo == "receita"
    ensures v == "destructive" <==> tipo == "despesa"
    ensures v == "secondary" <==> tipo == "divida"
    ensures v == "outline" <==> tipo !in {"receita", "despesa", "divida"}
  {
    match tipo
    case "receita" => "default"
    case "despesa" => "destructive"
    case "divida" => "secondary"
    case _ => "outline"
  }

  /** The three types have distinct labels and distinct badges. */
  lemma TiposDistinguished(a: string, b: string)
    requires a in {"receita", "despesa", "divida"} && b in {"receita", "despesa", "divida"} && a != b
    ensures TipoLabel(a) != TipoLabel(b) && TipoBadgeVariant(a) != TipoBadgeVariant(b)
  {
  }

  /** The form's inputs; the type is empty until one is chosen. */
  datatype CategoryForm = CategoryForm(nome: string, tipo: string)

  const EmptyCategoryForm := CategoryForm("", "")

  /** The insert's answer: success, or an error with its code. */
  datatype InsertAnswer = Inserted | InsertError(code: string)

  datatype CategoryToast = CategoryCreated | AlreadyExists | CreateFailed

  datatype Submit = Submit(insert: Option<NewCategory>, toast: Option<CategoryToast>, form: CategoryForm, dialogOpen: bool)

  /** `handleSubmit`: nothing happens without a user, a name and a type. */
  function HandleSubmit(user: Option<string>, f: CategoryForm, dialogOpen: bool, answer: InsertAnswer): (s: Submit)
    ensures user.None? || f.nome == "" || f.tipo == "" ==> s == Submit(None, None, f, dialogOpen)
    ensures user.Some? && f.nome != "" && f.tipo != "" ==> s.insert == Some(NewCategory(f.nome, f.tipo, user.value))
    ensures s.insert.Some? && answer.Inserted? ==> s.toast == Some(CategoryCreated) && s.form == EmptyCategoryForm && !s.dialogOpen
    ensures s.insert.Some? && answer.InsertError? ==> s.form == f && s.dialogOpen == dialogOpen
    ensures s.toast == Some(AlreadyExists) <==> s.insert.Some? && answer == InsertError("23505")
    ensures s.toast == Some(CreateFailed) <==> s.insert.Some? && answer.InsertError? && answer.code != "23505"
  {
    if user.None? || f.nome == "" || f.tipo == "" then Submit(None, None, f, dialogOpen)
    else
      var row := NewCategory(f.nome, f.tipo, user.value);
      match answer
      case Inserted => Submit(Some(row), Some(CategoryCreated), EmptyCategoryForm, false)
      case InsertError(code) => Submit(Some(row), Some(if code == "23505" then AlreadyExists else CreateFailed), f, dialogOpen)
  }
}
