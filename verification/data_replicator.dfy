/**
 * `replicateData` of src/components/DataReplicator.tsx: every row of the source month copied
 * into the target month, without its id, with the new month key and with its date columns
 * moved into the target month.
 */
module DataReplicator {
  import opened Wrappers
  import opened Lists
  import opened Calendar
  import opened Records
  import opened ReplicatorDates

  datatype Table = Receitas | Despesas | Dividas | SaldosBancarios

  /**
   * The columns the replication touches by name; `Other` stands for every other column
   * (the description, the amount, `user_id`, ...), which is copied unchanged.
   */
  datatype Column = Id | MesReferencia | DataRecebimento | DataPagamento | DataVencimento | ProximaCobranca
                  | Other(name: string)

  /** A row as a JSON object: the columns it has and their values. */
  type Item = map<Column, Value>

  /** `row[column]` used as a condition: a missing column is `undefined`, which is falsy. */
  predicate IsSet(row: Item, column: Column) {
    column in row && Truthy(row[column])
  }

  /** `new Date(value)` for a column value: a date-only ISO text, or null (time value 0, the epoch day). */
  function SourceDate(v: Value): (r: Option<Date>)
    ensures r.Some? ==> ValidDate(r.value)
    ensures v == Null ==> r == Some(Date(1970, 1, 1))
  {
    match v
    case Str(s) => ParseIsoDate(s)
    case Null => Some(Date(1970, 1, 1))
    case _ => None
  }

  /**
   * `adjustDateToTargetMonth(value, target)` on a column value: None where it throws
   * (a value `new Date` cannot read, or a target key whose month is unknown).
   */
  function MovedValue(v: Value, target: string): (r: Option<Value>)
    ensures r.Some? ==> r.value.Str? && |r.value.s| >= 10
  {
    match SourceDate(v)
    case None => None
    case Some(d) =>
      match AdjustDate(d, target)
      case None => None
      case Some(text) => Some(Str(text))
  }

  /** A stored date-only text is moved as the calendar date it denotes. */
  lemma MovedIsoText(date: Date, target: string)
    requires ValidDate(date) && 0 <= date.year <= 9999
    ensures MovedValue(Str(IsoDateText(date)), target).Some? <==> AdjustDate(date, target).Some?
    ensures MovedValue(Str(IsoDateText(date)), target).Some? ==>
      MovedValue(Str(IsoDateText(date)), target).value == Str(AdjustDate(date, target).value)
  {
    IsoDateRoundTrip(date);
  }

  /** A null date is read as the epoch day, 1 January 1970, and moved from there. */
  lemma MovedNull(target: string)
    ensures MovedValue(Null, target).Some? <==> AdjustDate(Date(1970, 1, 1), target).Some?
  {
  }

  /** How a column value is moved into the target month; None where that throws. */
  type Mover = Value -> Option<Value>

  /** The mover `replicateData` uses for a target month key. */
  function DateMover(target: string): Mover {
    v => MovedValue(v, target)
  }

  /** `move(row[column])`, or None for a missing column (`new Date(undefined)` is invalid). */
  function AdjustedValue(row: Item, column: Column, move: Mover): (r: Option<Value>)
    ensures r.Some? ==> column in row
    ensures column in row ==> r == move(row[column])
  {
    if column !in row then None else move(row[column])
  }

  /** `newItem[column] = adjustDateToTargetMonth(newItem[column], target)`, or None when that throws. */
  function AdjustColumn(row: Item, column: Column, move: Mover): (r: Option<Item>)
    ensures r.Some? <==> AdjustedValue(row, column, move).Some?
  {
    match AdjustedValue(row, column, move)
    case None => None
    case Some(v) => Some(row[column := v])
  }

  /** The same, only `if (newItem[column])`. */
  function AdjustColumnIfSet(row: Item, column: Column, move: Mover): (r: Option<Item>)
    ensures !IsSet(row, column) ==> r == Some(row)
  {
    if IsSet(row, column) then AdjustColumn(row, column, move) else Some(row)
  }

  /** The date columns each table moves into the target month. */
  function DateColumns(table: Table): (cols: set<Column>)
    ensures Id !in cols && MesReferencia !in cols
  {
    match table
    case Receitas => {DataRecebimento}
    case Despesas => {DataPagamento, DataVencimento, ProximaCobranca}
    case Dividas => {DataVencimento}
    case SaldosBancarios => {}
  }

  /** `{ ...item }` without `id` and with `mes_referencia` set to the target key. */
  function Rekeyed(item: Item, target: string): (r: Item)
    ensures Id !in r && MesReferencia in r && r[MesReferencia] == Str(target)
    ensures r.Keys == item.Keys - {Id} + {MesReferencia}
    ensures forall c :: c in item && c != Id && c != MesReferencia ==> r[c] == item[c]
  {
    (item - {Id})[MesReferencia := Str(target)]
  }

  /**
   * The copy of one source row: `Rekeyed`, then the table's date columns moved into the
   * target month; None where the source throws.
   */
  function ReplicaOf(table: Table, item: Item, target: string, move: Mover): (r: Option<Item>)
    ensures table == SaldosBancarios ==> r == Some(Rekeyed(item, target))
  {
    var base := Rekeyed(item, target);
    match table
    case Receitas => AdjustColumn(base, DataRecebimento, move)
    case Despesas =>
      (match AdjustColumn(base, DataPagamento, move)
       case None => None
       case Some(paid) =>
         match AdjustColumnIfSet(paid, DataVencimento, move)
         case None => None
         case Some(due) => AdjustColumnIfSet(due, ProximaCobranca, move))
    case Dividas => AdjustColumnIfSet(base, DataVencimento, move)
    case SaldosBancarios => Some(base)
  }

  /** Moving one column changes that column only, to its moved value. */
  lemma AdjustColumnFrame(row: Item, column: Column, move: Mover)
    requires AdjustColumn(row, column, move).Some?
    ensures var r := AdjustColumn(row, column, move).value;
      r.Keys == row.Keys && r[column] == move(row[column]).value
      && forall c :: c in row && c != column ==> r[c] == row[c]
  {
  }

  /** The same for the guarded move. */
  lemma AdjustColumnIfSetFrame(row: Item, column: Column, move: Mover)
    requires AdjustColumnIfSet(row, column, move).Some?
    ensures var r := AdjustColumnIfSet(row, column, move).value;
      r.Keys == row.Keys && forall c :: c in row && c != column ==> r[c] == row[c]
  {
    if IsSet(row, column) {
      AdjustColumnFrame(row, column, move);
    }
  }

  /**
   * A copy has no `id`, has the target key as `mes_referencia`, has the same other columns,
   * and every column other than the table's date columns keeps its value.
   */
  lemma ReplicaColumns(table: Table, item: Item, target: string, move: Mover)
    requires ReplicaOf(table, item, target, move).Some?
    ensures var r := ReplicaOf(table, item, target, move).value;
      Id !in r && r[MesReferencia] == Str(target) && r.Keys == item.Keys - {Id} + {MesReferencia}
      && forall c :: c in item && c != Id && c != MesReferencia && c !in DateColumns(table) ==> r[c] == item[c]
  {
    var base := Rekeyed(item, target);
    match table
    case Receitas =>
      AdjustColumnFrame(base, DataRecebimento, move);
    case Despesas =>
      var paid := AdjustColumn(base, DataPagamento, move).value;
      AdjustColumnFrame(base, DataPagamento, move);
      var due := AdjustColumnIfSet(paid, DataVencimento, move).value;
      AdjustColumnIfSetFrame(paid, DataVencimento, move);
      AdjustColumnIfSetFrame(due, ProximaCobranca, move);
    case Dividas =>
      AdjustColumnIfSetFrame(base, DataVencimento, move);
    case SaldosBancarios =>
  }

  /** A receita is copied exactly when its receipt date can be moved, and carries the moved date. */
  lemma ReplicaReceita(item: Item, target: string, move: Mover)
    ensures var r := ReplicaOf(Receitas, item, target, move);
      (r.Some? <==> DataRecebimento in item && move(item[DataRecebimento]).Some?)
      && (r.Some? ==> r.value[DataRecebimento] == move(item[DataRecebimento]).value)
  {
    var base := Rekeyed(item, target);
    assert AdjustedValue(base, DataRecebimento, move) == AdjustedValue(item, DataRecebimento, move);
  }

  /** A despesa's payment date is always moved, so a despesa whose payment date cannot be moved is never copied. */
  lemma ReplicaDespesaNeedsPayment(item: Item, target: string, move: Mover)
    requires DataPagamento !in item || move(item[DataPagamento]).None?
    ensures ReplicaOf(Despesas, item, target, move) == None
  {
    var base := Rekeyed(item, target);
    assert AdjustedValue(base, DataPagamento, move) == AdjustedValue(item, DataPagamento, move);
  }

  /** A dívida without a due date is copied with only `id` and the month changed. */
  lemma ReplicaDividaUndated(item: Item, target: string, move: Mover)
    requires !IsSet(item, DataVencimento)
    ensures ReplicaOf(Dividas, item, target, move) == Some(Rekeyed(item, target))
  {
    assert !IsSet(Rekeyed(item, target), DataVencimento);
  }

  /** The copy of one row, mutating `newItem` as the source's `map` callback does. */
  method ReplicateItem(table: Table, item: Item, target: string, move: Mover) returns (newItem: Option<Item>)
    ensures newItem == ReplicaOf(table, item, target, move)
  {
    var row := item - {Id};
    row := row[MesReferencia := Str(target)];
    if table == Receitas {
      var v := AdjustedValue(row, DataRecebimento, move);
      if v.None? { return None; }
      row := row[DataRecebimento := v.value];
    } else if table == Despesas {
      var v := AdjustedValue(row, DataPagamento, move);
      if v.None? { return None; }
      row := row[DataPagamento := v.value];
      if IsSet(row, DataVencimento) {
        v := AdjustedValue(row, DataVencimento, move);
        if v.None? { return None; }
        row := row[DataVencimento := v.value];
      }
      if IsSet(row, ProximaCobranca) {
        v := AdjustedValue(row, ProximaCobranca, move);
        if v.None? { return None; }
        row := row[ProximaCobranca := v.value];
      }
    } else if table == Dividas && IsSet(row, DataVencimento) {
      var v := AdjustedValue(row, DataVencimento, move);
      if v.None? { return None; }
      row := row[DataVencimento := v.value];
    }
    return Some(row);
  }

  /** The copy function the `map` callback computes. */
  function Copier(table: Table, target: string, move: Mover): Item -> Option<Item> {
    item => ReplicaOf(table, item, target, move)
  }

  /** The copies of all rows, in order; None as soon as one copy throws. */
  function ReplicaAll(table: Table, rows: seq<Item>, target: string, move: Mover): Option<seq<Item>> {
    MapAll(Copier(table, target, move), rows)
  }

  /** The copy of all rows exists exactly when every row's copy does, and holds those copies in order. */
  lemma ReplicaAllRows(table: Table, rows: seq<Item>, target: string, move: Mover)
    ensures ReplicaAll(table, rows, target, move).Some? <==>
      forall i :: 0 <= i < |rows| ==> ReplicaOf(table, rows[i], target, move).Some?
    ensures ReplicaAll(table, rows, target, move).Some? ==>
      |ReplicaAll(table, rows, target, move).value| == |rows|
      && forall i :: 0 <= i < |rows| ==>
           ReplicaAll(table, rows, target, move).value[i] == ReplicaOf(table, rows[i], target, move).value
  {
    MapAllSome(Copier(table, target, move), rows);
  }

  /** `sourceData.map(...)`: every row copied, or None when one of the copies throws. */
  method ReplicateRows(table: Table, rows: seq<Item>, target: string, move: Mover)
    returns (replicated: Option<seq<Item>>)
    ensures replicated == ReplicaAll(table, rows, target, move)
  {
    var out: seq<Item> := [];
    for i := 0 to |rows|
      invariant ReplicaAll(table, rows[..i], target, move) == Some(out)
    {
      var newItem := ReplicateItem(table, rows[i], target, move);
      MapAllStep(Copier(table, target, move), rows, i, out);
      if newItem.None? {
        MapAllPrefix(Copier(table, target, move), rows, i + 1);
        return None;
      }
      out := out + [newItem.value];
    }
    assert rows[..|rows|] == rows;
    return Some(out);
  }

  /** How a replication run ends, as the user sees it. */
  datatype Outcome =
    | Skipped          // no source or target month chosen
    | NoUser           // no signed-in user
    | NotReplicable    // bank balances have no month
    | NothingToCopy    // the source month has no rows
    | Failed           // a request failed or a date could not be moved
    | Replicated(count: nat)

  /** The dialog's state: open flag, chosen source month, and the busy flag. */
  class Replicator {
    var isDialogOpen: bool
    var sourceMonth: string
    var isReplicating: bool

    constructor()
      ensures !isDialogOpen && sourceMonth == [] && !isReplicating
    {
      isDialogOpen := false;
      sourceMonth := [];
      isReplicating := false;
    }

    /**
     * replicateData: the signed-in user, the rows the query for the source month returned
     * and whether the insert succeeded are parameters; `sent` is what is handed to the insert.
     */
    method ReplicateData(table: Table, targetMonth: string, user: Option<string>,
                         fetched: Result<seq<Item>, string>, insertOk: bool)
      returns (outcome: Outcome, sent: Option<seq<Item>>)
      modifies this
      ensures old(sourceMonth) == [] || targetMonth == [] ==>
        outcome == Skipped && sent == None && unchanged(this)
      ensures old(sourceMonth) != [] && targetMonth != [] ==> !isReplicating
      ensures sent.Some? ==>
        user.Some? && table != SaldosBancarios && fetched.Ok? && |fetched.value| > 0
        && sent == ReplicaAll(table, fetched.value, targetMonth, DateMover(targetMonth))
      ensures outcome.Replicated? <==> sent.Some? && insertOk
      ensures outcome.Replicated? ==> outcome.count == |fetched.value| && !isDialogOpen && sourceMonth == []
      ensures !outcome.Replicated? ==> isDialogOpen == old(isDialogOpen) && sourceMonth == old(sourceMonth)
      ensures old(sourceMonth) != [] && targetMonth != [] && user.None? ==> outcome == NoUser && sent == None
      ensures old(sourceMonth) != [] && targetMonth != [] && user.Some? && table == SaldosBancarios ==>
        outcome == NotReplicable && sent == None
      ensures old(sourceMonth) != [] && targetMonth != [] && user.Some? && table != SaldosBancarios ==>
        && (fetched.Err? ==> outcome == Failed && sent == None)
        && (fetched.Ok? && |fetched.value| == 0 ==> outcome == NothingToCopy && sent == None)
        && (fetched.Ok? && |fetched.value| > 0 ==>
              && sent == ReplicaAll(table, fetched.value, targetMonth, DateMover(targetMonth))
              && outcome == (if sent.Some? && insertOk then Replicated(|fetched.value|) else Failed))
    {
      sent := None;
      if sourceMonth == [] || targetMonth == [] {
        return Skipped, None;
      }
      isReplicating := true;
      if user.None? {
        outcome := NoUser;
      } else if table == SaldosBancarios {
        outcome := NotReplicable;
      } else if fetched.Err? {
        outcome := Failed;
      } else if |fetched.value| == 0 {
        outcome := NothingToCopy;
      } else {
        var replicated := ReplicateRows(table, fetched.value, targetMonth, DateMover(targetMonth));
        if replicated.None? {
          outcome := Failed;
        } else {
          sent := replicated;
          if !insertOk {
            outcome := Failed;
          } else {
            outcome := Replicated(|fetched.value|);
            isDialogOpen := false;
            sourceMonth := [];
          }
        }
      }
      isReplicating := false;
    }
  }
}
