/**
 * The demonstration-data generator of src/utils/generateSampleData.ts: six months of
 * receitas and despesas, a few dívidas and some bank balances, every field drawn from fixed
 * lists and ranges with `Math.random`.
 */
module SampleData {
  import opened Wrappers
  import opened JsText
  import opened JsNumber
  import opened Calendar
  import opened DateUtils
  import opened Lists

  const ReceitasCategorias: seq<string> :=
    ["Trabalho", "Freelance", "Investimentos", "Renda Passiva", "Vendas", "Outros"]
  const DespesasCategorias: seq<string> :=
    ["Moradia", "Alimentação", "Transporte", "Utilidades", "Saúde", "Educação", "Entretenimento", "Vestuário"]
  const DividasCategorias: seq<string> := ["Cartão", "Empréstimo", "Financiamento", "Veículo"]
  const Bancos: seq<string> := ["Nubank", "Itaú", "Bradesco", "Banco do Brasil", "Santander", "Inter", "C6 Bank"]
  const ReceitasDescricoes: seq<string> :=
    ["Salário mensal", "Projeto freelance", "Dividendos", "Aluguel recebido",
     "Consultoria", "Venda de produto", "Bônus trimestral", "Comissão de vendas"]
  const DespesasDescricoes: seq<string> :=
    ["Aluguel", "Conta de luz", "Conta de água", "Internet", "Supermercado",
     "Combustível", "Farmácia", "Streaming", "Academia", "Restaurante",
     "Uber/Táxi", "Plano de saúde", "Seguro do carro", "Manutenção casa"]
  const DividasDescricoes: seq<string> :=
    ["Fatura Nubank", "Fatura Itaú", "Empréstimo pessoal", "Financiamento veículo",
     "Parcelamento celular", "Compra parcelada", "Cartão de crédito"]
  const DespesaStatuses: seq<string> := ["pago", "a_pagar", "atrasado"]
  const TiposConta: seq<string> := ["corrente", "poupanca", "investimento"]

  /** `getMonthRef`: the month's abbreviation, '/', and the last two characters of the year's text. */
  function GetMonthRef(date: Date): (key: string)
    requires 1 <= date.month <= 12
    ensures |key| >= 5
  {
    MonthsShape(date.month - 1);
    Months[date.month - 1] + "/" + LastTwo(IntToString(date.year))
  }

  /** From year 10 on, the generator's key is the application's month reference. */
  lemma GetMonthRefIsMonthRef(date: Date)
    requires 1 <= date.month <= 12 && date.year >= 10
    ensures GetMonthRef(date) == MonthRef(date.year, date.month)
  {
    LastTwoDigits(date.year);
  }

  /** `Math.floor(r * n)`: a draw r scaled to one of n slots. */
  function Slot(r: real, n: int): (k: int)
    ensures 0.0 <= r < 1.0 && n > 0 ==> 0 <= k < n
  {
    assert 0.0 <= r < 1.0 && n > 0 ==> r * n as real < n as real;
    Floor(r * n as real)
  }

  /** Slot k of n is hit by the draw k / n. */
  lemma SlotReaches(n: int, k: int)
    requires 0 <= k < n
    ensures 0.0 <= k as real / n as real < 1.0 && Slot(k as real / n as real, n) == k
  {
    var r := k as real / n as real;
    assert r * n as real == k as real;
  }

  /** `randomBetween(min, max)` for the draw r. */
  function RandomBetween(min: int, max: int, r: real): (n: int)
    ensures 0.0 <= r < 1.0 && min <= max ==> min <= n <= max
  {
    Slot(r, max - min + 1) + min
  }

  /** Every integer of [min, max] is drawn for some r in [0, 1). */
  lemma RandomBetweenReaches(min: int, max: int, n: int)
    requires min <= n <= max
    ensures var r := (n - min) as real / (max - min + 1) as real;
      0.0 <= r < 1.0 && RandomBetween(min, max, r) == n
  {
    SlotReaches(max - min + 1, n - min);
  }

  /** `randomChoice(arr)` for the draw r; None where the index falls outside the array. */
  function RandomChoice<T>(arr: seq<T>, r: real): (x: Option<T>)
    ensures |arr| > 0 && 0.0 <= r < 1.0 ==> x.Some? && x.value in arr
  {
    var k := Slot(r, |arr|);
    if 0 <= k < |arr| then Some(arr[k]) else None
  }

  /** Every element of a non-empty array is chosen for some r in [0, 1). */
  lemma RandomChoiceReaches<T>(arr: seq<T>, i: int)
    requires 0 <= i < |arr|
    ensures var r := i as real / |arr| as real;
      0.0 <= r < 1.0 && RandomChoice(arr, r) == Some(arr[i])
  {
    SlotReaches(|arr|, i);
  }

  /**
   * The global `Math.random`: the values successive calls return (each in [0, 1) when
   * Valid), and how many have been drawn.
   */
  class RandomSource {
    const draws: nat -> real
    var drawn: nat

    constructor(draws: nat -> real)
      ensures this.draws == draws && drawn == 0
    {
      this.draws := draws;
      drawn := 0;
    }

    ghost predicate Valid() {
      forall k: nat :: 0.0 <= draws(k) < 1.0
    }

    method Random() returns (x: real)
      modifies this
      ensures drawn == old(drawn) + 1 && x == draws(old(drawn))
      ensures Valid() ==> 0.0 <= x < 1.0
    {
      x := draws(drawn);
      drawn := drawn + 1;
    }

    method Between(min: int, max: int) returns (n: int)
      modifies this
      ensures drawn == old(drawn) + 1 && n == RandomBetween(min, max, draws(old(drawn)))
      ensures Valid() && min <= max ==> min <= n <= max
    {
      var r := Random();
      n := RandomBetween(min, max, r);
    }

    method Choice<T>(arr: seq<T>) returns (x: T)
      requires Valid() && |arr| > 0
      modifies this
      ensures drawn == old(drawn) + 1 && RandomChoice(arr, draws(old(drawn))) == Some(x) && x in arr
    {
      var r := Random();
      x := RandomChoice(arr, r).value;
    }
  }

  /** The key depends on the year and the month only. */
  lemma SameMonthKey(a: Date, b: Date)
    requires 1 <= a.month <= 12 && a.year == b.year && a.month == b.month
    ensures GetMonthRef(a) == GetMonthRef(b)
  {
  }

  /** Months counted from year 0: consecutive months differ by one. */
  function MonthNumber(d: Date): int {
    d.year * 12 + d.month
  }

  /** The six months generated: the first day of the current month and of the five before it. */
  method LastSixMonths(now: Date) returns (months: seq<Date>)
    requires ValidDate(now) && 1970 <= now.year <= 9999
    ensures |months| == 6
    ensures forall i :: 0 <= i < 6 ==> months[i] == MonthsBack(now.year, now.month, i)
  {
    months := [];
    for i := 0 to 6
      invariant |months| == i
      invariant forall k :: 0 <= k < i ==> months[k] == MonthsBack(now.year, now.month, k)
    {
      var date := LocalDate(now.year, now.month - 1 - i, 1);
      months := months + [date];
    }
  }

  datatype Receita = Receita(userId: string, descricao: string, valor: int, categoria: string,
                             dataRecebimento: Date, mesReferencia: string, observacoes: Option<string>)

  /** What every generated receita satisfies. */
  ghost predicate ReceitaOk(r: Receita, userId: string) {
    && r.userId == userId
    && r.descricao in ReceitasDescricoes
    && 1500 <= r.valor <= 12000
    && r.categoria in ReceitasCategorias
    && ValidDate(r.dataRecebimento) && 1 <= r.dataRecebimento.day <= 28
    && r.mesReferencia == GetMonthRef(r.dataRecebimento)
    && (r.observacoes == None || r.observacoes == Some("Pagamento confirmado"))
  }

  /** One receita of the month, its fields drawn in the order the object literal evaluates them. */
  method DrawReceita(rng: RandomSource, userId: string, month: Date) returns (receita: Receita)
    requires rng.Valid() && ValidDate(month) && 100 <= month.year <= 9999
    modifies rng
    ensures ReceitaOk(receita, userId) && MonthNumber(receita.dataRecebimento) == MonthNumber(month)
  {
    var day := rng.Between(1, 28);
    var date := LocalDate(month.year, month.month - 1, day);
    var descricao := rng.Choice(ReceitasDescricoes);
    var valor := rng.Between(1500, 12000);
    var categoria := rng.Choice(ReceitasCategorias);
    var draw := rng.Random();
    var observacoes := if draw > 0.7 then Some("Pagamento confirmado") else None;
    SameMonthKey(date, month);
    receita := Receita(userId, descricao, valor, categoria, date, GetMonthRef(month), observacoes);
  }

  /** The receitas of one month: two to four, each on a day 1..28 of that month. */
  method MonthReceitas(rng: RandomSource, userId: string, month: Date) returns (block: seq<Receita>)
    requires rng.Valid() && ValidDate(month) && 100 <= month.year <= 9999
    modifies rng
    ensures 2 <= |block| <= 4
    ensures forall r :: r in block ==> ReceitaOk(r, userId) && MonthNumber(r.dataRecebimento) == MonthNumber(month)
  {
    var numEntries := rng.Between(2, 4);
    block := [];
    for i := 0 to numEntries
      invariant |block| == i
      invariant forall r :: r in block ==> ReceitaOk(r, userId) && MonthNumber(r.dataRecebimento) == MonthNumber(month)
    {
      var receita := DrawReceita(rng, userId, month);
      block := block + [receita];
    }
  }

  /** Whether a record, dated by dateOf, falls in the month with the given number. */
  function InMonth<T>(dateOf: T -> Date, month: int): T -> bool {
    (x: T) => MonthNumber(dateOf(x)) == month
  }

  /** How many of the records fall in the month with the given number. */
  function CountInMonth<T>(xs: seq<T>, dateOf: T -> Date, month: int): nat {
    CountWhere(xs, InMonth(dateOf, month))
  }

  /** Appending a block of records of month m to records that all lie after m. */
  lemma AddMonthBlock<T>(xs: seq<T>, block: seq<T>, dateOf: T -> Date, m: int, month: int)
    requires forall x :: x in xs ==> MonthNumber(dateOf(x)) > m
    requires forall x :: x in block ==> MonthNumber(dateOf(x)) == m
    requires m <= month
    ensures CountInMonth(xs + block, dateOf, month) ==
      if month == m then |block| else CountInMonth(xs, dateOf, month)
  {
    var p := InMonth(dateOf, month);
    CountWhereAppend(xs, block, p);
    CountWhereBounds(block, p);
    if month == m {
      CountWhereBounds(xs, p);
    }
  }

  function ReceitaDate(r: Receita): Date {
    r.dataRecebimento
  }

  /**
   * The receitas of the six months in order: each lies in one of the six months and
   * satisfies ReceitaOk, and every one of the six months has two to four.
   */
  method GenerateReceitas(rng: RandomSource, userId: string, now: Date, months: seq<Date>)
    returns (receitas: seq<Receita>)
    requires rng.Valid() && ValidDate(now) && 1970 <= now.year <= 9999
    requires |months| == 6 && forall i :: 0 <= i < 6 ==> months[i] == MonthsBack(now.year, now.month, i)
    modifies rng
    ensures forall r :: r in receitas ==>
      ReceitaOk(r, userId) && MonthNumber(now) - 6 < MonthNumber(r.dataRecebimento) <= MonthNumber(now)
    ensures forall m :: MonthNumber(now) - 6 < m <= MonthNumber(now) ==> 2 <= CountInMonth(receitas, ReceitaDate, m) <= 4
  {
    var key := MonthNumber(now);
    receitas := [];
    for j := 0 to 6
      invariant forall r :: r in receitas ==>
        ReceitaOk(r, userId) && key - j < MonthNumber(r.dataRecebimento) <= key
      invariant forall m :: key - j < m <= key ==> 2 <= CountInMonth(receitas, ReceitaDate, m) <= 4
    {
      var block := MonthReceitas(rng, userId, months[j]);
      forall m | key - j <= m <= key
        ensures CountInMonth(receitas + block, ReceitaDate, m) == if m == key - j then |block| else CountInMonth(receitas, ReceitaDate, m)
      {
        AddMonthBlock(receitas, block, ReceitaDate, key - j, m);
      }
      receitas := receitas + block;
    }
  }

  datatype Despesa = Despesa(userId: string, descricao: string, valor: int, categoria: string,
                             dataPagamento: Date, dataVencimento: Date, mesReferencia: string,
                             status: string, recorrente: bool, frequenciaRecorrencia: Option<string>,
                             alertaAtivo: bool, observacoes: Option<string>)

  function DespesaDate(d: Despesa): Date {
    d.dataPagamento
  }

  /** What every generated despesa satisfies; it falls due five days after it is paid. */
  ghost predicate DespesaOk(d: Despesa, userId: string) {
    && d.userId == userId
    && d.descricao in DespesasDescricoes
    && 50 <= d.valor <= 3000
    && d.categoria in DespesasCategorias
    && ValidDate(d.dataPagamento) && 1 <= d.dataPagamento.day <= 28
    && ValidDate(d.dataVencimento) && DayNumber(d.dataVencimento) == DayNumber(d.dataPagamento) + 5
    && d.mesReferencia == GetMonthRef(d.dataPagamento)
    && d.status in DespesaStatuses
    && d.frequenciaRecorrencia == (if d.recorrente then Some("mensal") else None)
    && (d.observacoes == None || d.observacoes == Some("Despesa importante"))
  }

  /** One despesa of the month, its fields drawn in the order the object literal evaluates them. */
  method DrawDespesa(rng: RandomSource, userId: string, month: Date) returns (despesa: Despesa)
    requires rng.Valid() && ValidDate(month) && 100 <= month.year <= 9999
    modifies rng
    ensures DespesaOk(despesa, userId) && MonthNumber(despesa.dataPagamento) == MonthNumber(month)
  {
    var day := rng.Between(1, 28);
    var date := LocalDate(month.year, month.month - 1, day);
    var recurrenceDraw := rng.Random();
    var isRecorrente := recurrenceDraw > 0.7;
    var descricao := rng.Choice(DespesasDescricoes);
    var valor := rng.Between(50, 3000);
    var categoria := rng.Choice(DespesasCategorias);
    AddDaysDefined(date, 5);
    var due := AddDays(date, 5).date;
    assert DayNumber(due) == DayNumber(date) + 5;
    var status := rng.Choice(DespesaStatuses);
    var alertDraw := rng.Random();
    var noteDraw := rng.Random();
    var observacoes := if noteDraw > 0.8 then Some("Despesa importante") else None;
    SameMonthKey(date, month);
    despesa := Despesa(userId, descricao, valor, categoria, date, due, GetMonthRef(month), status,
                       isRecorrente, if isRecorrente then Some("mensal") else None, alertDraw > 0.8, observacoes);
  }

  /** The despesas of one month: eight to fifteen, each paid on a day 1..28 of that month. */
  method MonthDespesas(rng: RandomSource, userId: string, month: Date) returns (block: seq<Despesa>)
    requires rng.Valid() && ValidDate(month) && 100 <= month.year <= 9999
    modifies rng
    ensures 8 <= |block| <= 15
    ensures forall d :: d in block ==> DespesaOk(d, userId) && MonthNumber(d.dataPagamento) == MonthNumber(month)
  {
    var numEntries := rng.Between(8, 15);
    block := [];
    for i := 0 to numEntries
      invariant |block| == i
      invariant forall d :: d in block ==> DespesaOk(d, userId) && MonthNumber(d.dataPagamento) == MonthNumber(month)
    {
      var despesa := DrawDespesa(rng, userId, month);
      block := block + [despesa];
    }
  }

  /** The despesas of the six months in order, eight to fifteen in every one of them. */
  method GenerateDespesas(rng: RandomSource, userId: string, now: Date, months: seq<Date>)
    returns (despesas: seq<Despesa>)
    requires rng.Valid() && ValidDate(now) && 1970 <= now.year <= 9999
    requires |months| == 6 && forall i :: 0 <= i < 6 ==> months[i] == MonthsBack(now.year, now.month, i)
    modifies rng
    ensures forall d :: d in despesas ==>
      DespesaOk(d, userId) && MonthNumber(now) - 6 < MonthNumber(d.dataPagamento) <= MonthNumber(now)
    ensures forall m :: MonthNumber(now) - 6 < m <= MonthNumber(now) ==> 8 <= CountInMonth(despesas, DespesaDate, m) <= 15
  {
    var key := MonthNumber(now);
    despesas := [];
    for j := 0 to 6
      invariant forall d :: d in despesas ==>
        DespesaOk(d, userId) && key - j < MonthNumber(d.dataPagamento) <= key
      invariant forall m :: key - j < m <= key ==> 8 <= CountInMonth(despesas, DespesaDate, m) <= 15
    {
      var block := MonthDespesas(rng, userId, months[j]);
      forall m | key - j <= m <= key
        ensures CountInMonth(despesas + block, DespesaDate, m) ==
          if m == key - j then |block| else CountInMonth(despesas, DespesaDate, m)
      {
        AddMonthBlock(despesas, block, DespesaDate, key - j, m);
      }
      despesas := despesas + block;
    }
  }

  datatype DebtStatus = Pago | EmAndamento | Pendente

  /** The status of a debt from its total and the amount paid. */
  function DebtStatusOf(total: int, paid: int): (s: DebtStatus)
    ensures s == Pago <==> paid >= total
    ensures s == EmAndamento <==> 0 < paid < total
    ensures s == Pendente <==> paid <= 0 && paid < total
  {
    if paid >= total then Pago else if paid > 0 then EmAndamento else Pendente
  }

  datatype Divida = Divida(userId: string, descricao: string, categoria: string,
                           valorTotal: int, valorPago: int, valorRestante: int,
                           dataVencimento: Date, mesReferencia: string, status: DebtStatus,
                           observacoes: Option<string>)

  /** At most 70 % of the total is paid: `Math.floor(valorTotal * 0.7)`. */
  function MaxPaid(total: int): (m: int)
    ensures total >= 0 ==> 0 <= m <= total
    ensures 10 * m <= 7 * total < 10 * m + 10
  {
    (7 * total) / 10
  }

  /** What every generated dívida satisfies; it falls due one to six months after `now`. */
  ghost predicate DividaOk(d: Divida, userId: string, now: Date) {
    && ValidDate(now)
    && d.userId == userId
    && d.descricao in DividasDescricoes
    && d.categoria in DividasCategorias
    && 500 <= d.valorTotal <= 15000
    && 0 <= d.valorPago <= MaxPaid(d.valorTotal)
    && d.valorRestante == d.valorTotal - d.valorPago
    && d.status == DebtStatusOf(d.valorTotal, d.valorPago)
    && ValidDate(d.dataVencimento) && 5 <= d.dataVencimento.day <= 25
    && 1 <= MonthNumber(d.dataVencimento) - MonthNumber(now) <= 6
    && d.mesReferencia == GetMonthRef(now)
    && (d.observacoes == None || d.observacoes == Some("Prioridade alta"))
  }

  /** One dívida, its fields drawn in the order the source evaluates them. */
  method DrawDivida(rng: RandomSource, userId: string, now: Date, currentMonthRef: string) returns (divida: Divida)
    requires rng.Valid() && ValidDate(now) && 100 <= now.year <= 9999 && currentMonthRef == GetMonthRef(now)
    modifies rng
    ensures DividaOk(divida, userId, now)
  {
    var valorTotal := rng.Between(500, 15000);
    var valorPago := rng.Between(0, MaxPaid(valorTotal));
    var ahead := rng.Between(1, 6);
    var day := rng.Between(5, 25);
    var dueDate := LocalDate(now.year, now.month - 1 + ahead, day);
    assert MonthNumber(dueDate) == MonthNumber(now) + ahead;
    var descricao := rng.Choice(DividasDescricoes);
    var categoria := rng.Choice(DividasCategorias);
    var draw := rng.Random();
    var observacoes := if draw > 0.7 then Some("Prioridade alta") else None;
    divida := Divida(userId, descricao, categoria, valorTotal, valorPago, valorTotal - valorPago, dueDate,
                     currentMonthRef, DebtStatusOf(valorTotal, valorPago), observacoes);
  }

  /** Three to six dívidas, all keyed to the current month. */
  method GenerateDividas(rng: RandomSource, userId: string, now: Date, currentMonthRef: string)
    returns (dividas: seq<Divida>)
    requires rng.Valid() && ValidDate(now) && 100 <= now.year <= 9999 && currentMonthRef == GetMonthRef(now)
    modifies rng
    ensures 3 <= |dividas| <= 6
    ensures forall d :: d in dividas ==> DividaOk(d, userId, now)
  {
    var numDebts := rng.Between(3, 6);
    dividas := [];
    for i := 0 to numDebts
      invariant |dividas| == i
      invariant forall d :: d in dividas ==> DividaOk(d, userId, now)
    {
      var divida := DrawDivida(rng, userId, now, currentMonthRef);
      dividas := dividas + [divida];
    }
  }

  /** A generated dívida is never paid off: something remains, and it is pending exactly when nothing was paid. */
  lemma GeneratedDebtOpen(d: Divida, userId: string, now: Date)
    requires DividaOk(d, userId, now)
    ensures d.status != Pago && d.valorRestante > 0
    ensures d.status == Pendente <==> d.valorPago == 0
    ensures d.valorPago + d.valorRestante == d.valorTotal
  {
  }

  datatype Saldo = Saldo(userId: string, banco: string, tipoConta: string, saldo: int,
                         agencia: string, numeroConta: string, observacoes: Option<string>)

  /** What every generated balance satisfies: a four-digit branch, an account "ddddd-d". */
  ghost predicate SaldoOk(s: Saldo, userId: string) {
    && s.userId == userId
    && s.tipoConta in TiposConta
    && 500 <= s.saldo <= 25000
    && |s.agencia| == 4 && AllDigits(s.agencia) && 1000 <= DigitsValue(s.agencia)
    && |s.numeroConta| == 7 && AllDigits(s.numeroConta[..5]) && 10000 <= DigitsValue(s.numeroConta[..5])
    && s.numeroConta[5] == '-' && IsDigit(s.numeroConta[6])
    && (s.observacoes == None || s.observacoes == Some("Conta principal"))
  }

  /** The decimal text of a number with exactly k digits. */
  lemma DigitCount(n: nat, k: nat)
    requires k >= 1 && TenPow(k - 1) <= n < TenPow(k)
    ensures |IntToString(n)| == k && AllDigits(IntToString(n)) && DigitsValue(IntToString(n)) == n
  {
    NatToStringShort(n, k);
    NatToStringLong(n, k);
    NatToStringValue(n);
  }

  /** A branch number 1000..9999 is written with four digits. */
  lemma BranchText(branch: int)
    requires 1000 <= branch <= 9999
    ensures |IntToString(branch)| == 4 && AllDigits(IntToString(branch)) && DigitsValue(IntToString(branch)) == branch
  {
    assert TenPow(3) == 1000 && TenPow(4) == 10000;
    DigitCount(branch, 4);
  }

  /** An account number 10000..99999 and a check digit are written "ddddd-d". */
  lemma AccountText(account: int, check: int)
    requires 10000 <= account <= 99999 && 0 <= check <= 9
    ensures var s := IntToString(account) + "-" + IntToString(check);
      |s| == 7 && AllDigits(s[..5]) && DigitsValue(s[..5]) == account && s[5] == '-' && IsDigit(s[6])
  {
    assert TenPow(4) == 10000 && TenPow(5) == 100000;
    DigitCount(account, 5);
    var s := IntToString(account) + "-" + IntToString(check);
    assert s[..5] == IntToString(account);
  }

  /** The balance of one bank. */
  method DrawSaldo(rng: RandomSource, userId: string, banco: string) returns (saldo: Saldo)
    requires rng.Valid()
    modifies rng
    ensures SaldoOk(saldo, userId) && saldo.banco == banco
  {
    var tipoConta := rng.Choice(TiposConta);
    var amount := rng.Between(500, 25000);
    var branch := rng.Between(1000, 9999);
    var account := rng.Between(10000, 99999);
    var check := rng.Between(0, 9);
    BranchText(branch);
    AccountText(account, check);
    var draw := rng.Random();
    var observacoes := if draw > 0.8 then Some("Conta principal") else None;
    saldo := Saldo(userId, banco, tipoConta, amount, IntToString(branch),
                   IntToString(account) + "-" + IntToString(check), observacoes);
  }

  /** Balances for the first two to four banks of the list, in list order. */
  method GenerateSaldos(rng: RandomSource, userId: string) returns (saldos: seq<Saldo>)
    requires rng.Valid()
    modifies rng
    ensures 2 <= |saldos| <= 4
    ensures forall i :: 0 <= i < |saldos| ==> saldos[i].banco == Bancos[i] && SaldoOk(saldos[i], userId)
  {
    var count := rng.Between(2, 4);
    var selectedBanks := Bancos[..count];
    saldos := [];
    for i := 0 to |selectedBanks|
      invariant |saldos| == i
      invariant forall k :: 0 <= k < i ==> saldos[k].banco == Bancos[k] && SaldoOk(saldos[k], userId)
    {
      var saldo := DrawSaldo(rng, userId, selectedBanks[i]);
      saldos := saldos + [saldo];
    }
  }

  /**
   * A generated receita carries the key the application itself derives from its stored
   * date (`formatDateToMonthRef`), so it shows up under the right month.
   */
  lemma ReceitaKeyAgrees(r: Receita, userId: string)
    requires ReceitaOk(r, userId) && 100 <= r.dataRecebimento.year <= 9999
    ensures r.mesReferencia == FormatDateToMonthRef(IsoDateText(r.dataRecebimento))
  {
    GetMonthRefIsMonthRef(r.dataRecebimento);
    FormatIsoDate(r.dataRecebimento);
  }

  /** The same for a despesa and its payment date. */
  lemma DespesaKeyAgrees(d: Despesa, userId: string)
    requires DespesaOk(d, userId) && 100 <= d.dataPagamento.year <= 9999
    ensures d.mesReferencia == FormatDateToMonthRef(IsoDateText(d.dataPagamento))
  {
    GetMonthRefIsMonthRef(d.dataPagamento);
    FormatIsoDate(d.dataPagamento);
  }

  datatype SampleSet = SampleSet(receitas: seq<Receita>, despesas: seq<Despesa>,
                                 dividas: seq<Divida>, saldos: seq<Saldo>)

  /**
   * `generateSampleData`: the rows it inserts into the four tables after deleting the
   * user's old ones.
   */
  method GenerateSampleData(rng: RandomSource, userId: string, now: Date) returns (data: SampleSet)
    requires rng.Valid() && ValidDate(now) && 1970 <= now.year <= 9999
    modifies rng
    ensures forall r :: r in data.receitas ==>
      ReceitaOk(r, userId) && MonthNumber(now) - 6 < MonthNumber(r.dataRecebimento) <= MonthNumber(now)
    ensures forall m :: MonthNumber(now) - 6 < m <= MonthNumber(now) ==>
      2 <= CountInMonth(data.receitas, ReceitaDate, m) <= 4
    ensures forall d :: d in data.despesas ==>
      DespesaOk(d, userId) && MonthNumber(now) - 6 < MonthNumber(d.dataPagamento) <= MonthNumber(now)
    ensures forall m :: MonthNumber(now) - 6 < m <= MonthNumber(now) ==>
      8 <= CountInMonth(data.despesas, DespesaDate, m) <= 15
    ensures 3 <= |data.dividas| <= 6 && forall d :: d in data.dividas ==> DividaOk(d, userId, now)
    ensures 2 <= |data.saldos| <= 4
    ensures forall i :: 0 <= i < |data.saldos| ==> data.saldos[i].banco == Bancos[i] && SaldoOk(data.saldos[i], userId)
  {
    var months := LastSixMonths(now);
    var receitas := GenerateReceitas(rng, userId, now, months);
    var despesas := GenerateDespesas(rng, userId, now, months);
    var currentMonthRef := GetMonthRef(now);
    var dividas := GenerateDividas(rng, userId, now, currentMonthRef);
    var saldos := GenerateSaldos(rng, userId);
    data := SampleSet(receitas, despesas, dividas, saldos);
  }
}
