/**
 * The synchronisation service of the native SQLite layer: the push of unsynced rows
 * (booleans converted for the server), the pull of the user's remote rows (flags
 * converted to 0/1), the full sync, and the JSON export and import.
 *
 * The server is a pair of oracles: `accept(table, row)` says whether the upsert of a row
 * succeeded, `fetch(table, userId)` gives the user's rows of a table, or `None` when the
 * select failed. `unsynced(table)` and `rows(table)` are what the engine answers to the
 * service's selects.
 */
module SqliteSync {
  import opened Wrappers
  import opened JsText
  import opened Lists
  import opened SqliteDatabase

  /** The tables the service goes through, in order. */
  const SyncTables: seq<string> := ["receitas", "despesas", "dividas", "saldos_bancarios", "categorias"]

  // ---------------------------------------------------------------------------
  // Values

  /** JavaScript truthiness (a NaN number is outside the model). */
  predicate Truthy(v: Json) {
    match v
    case JNull => false
    case JBool(b) => b
    case JNumber(r) => r != 0.0
    case JString(s) => s != ""
    case _ => true
  }

  /** `Boolean(o[k])`, where a missing property reads as `undefined`. */
  predicate TruthyAt(o: Obj, k: string) {
    Get(o, k).Some? && Truthy(Get(o, k).value)
  }

  /** `x ? 1 : 0`. */
  function Flag(b: bool): (v: Json)
    ensures Truthy(v) == b
  {
    JNumber(if b then 1.0 else 0.0)
  }

  /** The flag survives both conversions: `Boolean(x ? 1 : 0)` is `Boolean(x)`, and a 0/1 flag comes back from `Boolean`. */
  lemma FlagRoundTrip(v: Json)
    ensures Truthy(Flag(Truthy(v))) == Truthy(v)
    ensures v.JBool? ==> JBool(Truthy(Flag(Truthy(v)))) == v
    ensures v == JNumber(0.0) || v == JNumber(1.0) ==> Flag(Truthy(JBool(Truthy(v)))) == v
  {
  }

  /** A row on its way to the server: `synced` dropped, the despesa flags as booleans. */
  function Upload(table: string, row: Obj): Obj {
    var rest := Remove(row, "synced");
    if table == "despesas" then
      Set(Set(rest, "recorrente", JBool(TruthyAt(rest, "recorrente"))), "alerta_ativo", JBool(TruthyAt(rest, "alerta_ativo")))
    else rest
  }

  /** A remote row as it is stored: `synced` set to 1, the despesa flags as 0/1 when both are there. */
  function ToSqlite(table: string, row: Obj): Obj {
    var o := Set(row, "synced", JNumber(1.0));
    if table == "despesas" && "recorrente" in Keys(row) && "alerta_ativo" in Keys(row) then
      Set(Set(o, "recorrente", Flag(TruthyAt(row, "recorrente"))), "alerta_ativo", Flag(TruthyAt(row, "alerta_ativo")))
    else o
  }

  /** An uploaded row has no `synced` column; a stored remote row is marked synced. */
  lemma SyncedColumn(table: string, row: Obj)
    ensures "synced" !in Keys(Upload(table, row))
    ensures Get(ToSqlite(table, row), "synced") == Some(JNumber(1.0))
  {
    var rest := Remove(row, "synced");
    RemoveDrops(row, "synced", Prop("", JNull));
    if table == "despesas" {
      var up1 := Set(rest, "recorrente", JBool(TruthyAt(rest, "recorrente")));
      SetShape(rest, "recorrente", JBool(TruthyAt(rest, "recorrente")));
      SetShape(up1, "alerta_ativo", JBool(TruthyAt(rest, "alerta_ativo")));
    }
    var o := Set(row, "synced", JNumber(1.0));
    SetThenGet(row, "synced", JNumber(1.0), "");
    if table == "despesas" && "recorrente" in Keys(row) && "alerta_ativo" in Keys(row) {
      var o1 := Set(o, "recorrente", Flag(TruthyAt(row, "recorrente")));
      SetThenGet(o, "recorrente", Flag(TruthyAt(row, "recorrente")), "synced");
      SetThenGet(o1, "alerta_ativo", Flag(TruthyAt(row, "alerta_ativo")), "synced");
    }
  }

  /**
   * A row pulled and then pushed back reaches the server with every column it came with,
   * its despesa flags as the booleans the server sent, and no `synced` column.
   */
  lemma PullThenPush(table: string, row: Obj, k: string)
    requires k != "synced" && k != "recorrente" && k != "alerta_ativo"
    ensures Get(Upload(table, ToSqlite(table, row)), k) == Get(row, k)
    ensures table == "despesas" && "recorrente" in Keys(row) && "alerta_ativo" in Keys(row) ==>
      (forall b :: Get(row, "recorrente") == Some(JBool(b)) ==> Get(Upload(table, ToSqlite(table, row)), "recorrente") == Some(JBool(b)))
  {
    var o := Set(row, "synced", JNumber(1.0));
    SetThenGet(row, "synced", JNumber(1.0), k);
    var stored := ToSqlite(table, row);
    var rest := Remove(stored, "synced");
    RemoveKeeps(stored, "synced", k);
    RemoveKeeps(stored, "synced", "recorrente");
    if table == "despesas" && "recorrente" in Keys(row) && "alerta_ativo" in Keys(row) {
      var o1 := Set(o, "recorrente", Flag(TruthyAt(row, "recorrente")));
      SetThenGet(o, "recorrente", Flag(TruthyAt(row, "recorrente")), k);
      SetThenGet(o1, "alerta_ativo", Flag(TruthyAt(row, "alerta_ativo")), k);
      SetThenGet(o1, "alerta_ativo", Flag(TruthyAt(row, "alerta_ativo")), "recorrente");
      SetThenGet(row, "synced", JNumber(1.0), "recorrente");
      var up1 := Set(rest, "recorrente", JBool(TruthyAt(rest, "recorrente")));
      SetThenGet(rest, "recorrente", JBool(TruthyAt(rest, "recorrente")), k);
      SetThenGet(up1, "alerta_ativo", JBool(TruthyAt(rest, "alerta_ativo")), k);
      SetThenGet(up1, "alerta_ativo", JBool(TruthyAt(rest, "alerta_ativo")), "recorrente");
    } else if table == "despesas" {
      var up1 := Set(rest, "recorrente", JBool(TruthyAt(rest, "recorrente")));
      SetThenGet(rest, "recorrente", JBool(TruthyAt(rest, "recorrente")), k);
      SetThenGet(up1, "alerta_ativo", JBool(TruthyAt(rest, "alerta_ativo")), k);
    }
  }

  /** `{ ...value }`: the own enumerable properties of a value, as an object spread sees them. */
  function Spread(v: Json): (o: Obj)
    ensures v.JObject? ==> o == v.entries
  {
    match v
    case JObject(entries) => entries
    case JArray(items) => seq(|items|, i requires 0 <= i < |items| => Prop(NatToString(i), items[i]))
    case JString(s) => seq(|s|, i requires 0 <= i < |s| => Prop(NatToString(i), JString([s[i]])))
    case _ => []
  }

  /** `Object.entries(value)`: `None` where it throws (null). */
  function Entries(v: Json): (r: Option<Obj>)
    ensures r.None? <==> v.JNull?
    ensures r.Some? ==> r.value == Spread(v)
  {
    if v.JNull? then None else Some(Spread(v))
  }

  /** `{ ...record, user_id: userId, synced: 0 }`. */
  function Retag(record: Json, userId: string): (o: Obj)
  {
    Set(Set(Spread(record), "user_id", JString(userId)), "synced", JNumber(0.0))
  }

  /** An imported row belongs to the importing user, is pending, and keeps its other columns. */
  lemma RetagOwns(record: Json, userId: string, k: string)
    ensures Get(Retag(record, userId), "user_id") == Some(JString(userId))
    ensures Get(Retag(record, userId), "synced") == Some(JNumber(0.0))
    ensures k != "user_id" && k != "synced" ==> Get(Retag(record, userId), k) == Get(Spread(record), k)
  {
    var o := Set(Spread(record), "user_id", JString(userId));
    SetThenGet(Spread(record), "user_id", JString(userId), k);
    SetThenGet(o, "synced", JNumber(0.0), k);
    SetThenGet(o, "synced", JNumber(0.0), "user_id");
  }

  // ---------------------------------------------------------------------------
  // The rows a pass goes through, table by table

  /** A row of a table. */
  datatype Item = Item(table: string, row: Obj)

  function Tagged(table: string, rows: seq<Obj>): (its: seq<Item>)
    ensures |its| == |rows| && forall i :: 0 <= i < |rows| ==> its[i] == Item(table, rows[i])
  {
    seq(|rows|, i requires 0 <= i < |rows| => Item(table, rows[i]))
  }

  lemma TaggedStep(table: string, rows: seq<Obj>, j: nat)
    requires j < |rows|
    ensures Tagged(table, rows[..j + 1]) == Tagged(table, rows[..j]) + [Item(table, rows[j])]
  {
  }

  /** The rows of the tables, table after table, as `rows` gives them. */
  function Collected(tables: seq<string>, rows: string -> seq<Obj>): (its: seq<Item>)
    ensures tables == [] ==> its == []
  {
    if tables == [] then [] else Collected(tables[..|tables| - 1], rows) + Tagged(tables[|tables| - 1], rows(tables[|tables| - 1]))
  }

  lemma CollectedNext(tables: seq<string>, rows: string -> seq<Obj>, i: nat)
    requires i < |tables|
    ensures Collected(tables[..i + 1], rows) == Collected(tables[..i], rows) + Tagged(tables[i], rows(tables[i]))
  {
    assert tables[..i + 1][..i] == tables[..i];
  }

  /** Each collected row comes from its table's rows. */
  lemma {:induction false} CollectedFrom(tables: seq<string>, rows: string -> seq<Obj>, i: nat)
    requires i < |Collected(tables, rows)|
    ensures Collected(tables, rows)[i].table in tables
    ensures Collected(tables, rows)[i].row in rows(Collected(tables, rows)[i].table)
  {
    var front := tables[..|tables| - 1];
    if i < |Collected(front, rows)| {
      CollectedFrom(front, rows, i);
    } else {
      var t := tables[|tables| - 1];
      assert Collected(tables, rows)[i] == Tagged(t, rows(t))[i - |Collected(front, rows)|];
    }
  }

  /** The rows the pull writes: the tables whose select failed give none. */
  function Fetched(tables: seq<string>, fetch: (string, string) -> Option<seq<Obj>>, userId: string): (its: seq<Item>)
  {
    if tables == [] then []
    else
      var t := tables[|tables| - 1];
      Fetched(tables[..|tables| - 1], fetch, userId) + (if fetch(t, userId).Some? then Tagged(t, fetch(t, userId).value) else [])
  }

  lemma FetchedNext(tables: seq<string>, fetch: (string, string) -> Option<seq<Obj>>, userId: string, i: nat)
    requires i < |tables|
    ensures fetch(tables[i], userId).None? ==> Fetched(tables[..i + 1], fetch, userId) == Fetched(tables[..i], fetch, userId)
    ensures fetch(tables[i], userId).Some? ==>
      Fetched(tables[..i + 1], fetch, userId) == Fetched(tables[..i], fetch, userId) + Tagged(tables[i], fetch(tables[i], userId).value)
  {
    assert tables[..i + 1][..i] == tables[..i];
  }

  /** The pull goes through exactly the rows of the selects that succeeded. */
  lemma {:induction false} FetchedCount(tables: seq<string>, fetch: (string, string) -> Option<seq<Obj>>, userId: string)
    ensures (forall t :: t in tables ==> fetch(t, userId).None?) ==> Fetched(tables, fetch, userId) == []
    ensures (forall t :: t in tables ==> fetch(t, userId) == Some([])) ==> Fetched(tables, fetch, userId) == []
  {
    if tables != [] {
      FetchedCount(tables[..|tables| - 1], fetch, userId);
    }
  }

  /** Does the server take the uploaded row? */
  function Uploaded(accept: (string, Obj) -> bool): Item -> bool {
    (it: Item) => accept(it.table, Upload(it.table, it.row))
  }

  /** `record.id`, with a row without an id read as null. */
  function IdOf(row: Obj): Json {
    if Get(row, "id").Some? then Get(row, "id").value else JNull
  }

  /** The statement that marks an uploaded row, when the server took it. */
  function MarkIfUploaded(accept: (string, Obj) -> bool): Item -> Option<Statement> {
    (it: Item) => if accept(it.table, Upload(it.table, it.row)) then Some(MarkAsSyncedStatement(it.table, IdOf(it.row))) else None
  }

  /** The insert of a pulled row. */
  function StoreOf(it: Item): Statement {
    InsertStatement(it.table, ToSqlite(it.table, it.row))
  }

  /** The import's rows: the entries whose value is an array, record by record. */
  function Imported(entries: Obj): (its: seq<Prop>)
  {
    if entries == [] then []
    else
      var e := entries[|entries| - 1];
      Imported(entries[..|entries| - 1]) + (if e.val.JArray? then Under(e.key, e.val.items) else [])
  }

  /** The records of an array under a key, each with the key. */
  function Under(key: string, records: seq<Json>): (rs: seq<Prop>)
    ensures |rs| == |records| && forall i :: 0 <= i < |records| ==> rs[i] == Prop(key, records[i])
  {
    seq(|records|, i requires 0 <= i < |records| => Prop(key, records[i]))
  }

  lemma ImportedNext(entries: Obj, i: nat)
    requires i < |entries|
    ensures !entries[i].val.JArray? ==> Imported(entries[..i + 1]) == Imported(entries[..i])
    ensures entries[i].val.JArray? ==> Imported(entries[..i + 1]) == Imported(entries[..i]) + Under(entries[i].key, entries[i].val.items)
  {
    assert entries[..i + 1][..i] == entries[..i];
  }

  /** The insert of an imported record, retagged for the user. */
  function ImportOf(userId: string): (Prop) -> Statement {
    (record: Prop) => InsertStatement(record.key, Retag(record.val, userId))
  }

  /** The object `exportToJSON` serialises: each table's rows under its name. */
  function ExportObject(tables: seq<string>, rows: string -> seq<Obj>): (o: Obj)
    ensures Keys(o) == tables
  {
    seq(|tables|, i requires 0 <= i < |tables| => Prop(tables[i], Rows(rows(tables[i]))))
  }

  /** A table's rows as a JSON array of objects. */
  function Rows(rows: seq<Obj>): (j: Json)
    ensures j.JArray? && |j.items| == |rows| && forall i :: 0 <= i < |rows| ==> j.items[i] == JObject(rows[i])
  {
    JArray(seq(|rows|, i requires 0 <= i < |rows| => JObject(rows[i])))
  }

  lemma ExportNext(tables: seq<string>, rows: string -> seq<Obj>, i: nat)
    requires i < |tables|
    ensures ExportObject(tables[..i + 1], rows) == ExportObject(tables[..i], rows) + [ExportObject(tables, rows)[i]]
  {
  }

  /** Importing an export brings back each exported row, table by table, in order. */
  lemma {:induction false} ExportThenImport(tables: seq<string>, rows: string -> seq<Obj>)
    ensures |Imported(ExportObject(tables, rows))| == |Collected(tables, rows)|
    ensures forall i :: 0 <= i < |Collected(tables, rows)| ==>
      Imported(ExportObject(tables, rows))[i] == Prop(Collected(tables, rows)[i].table, JObject(Collected(tables, rows)[i].row))
  {
    if tables != [] {
      var front := tables[..|tables| - 1];
      var t := tables[|tables| - 1];
      ExportThenImport(front, rows);
      assert ExportObject(tables, rows)[..|tables| - 1] == ExportObject(front, rows);
    }
  }

  /** The messages of the full sync. */
  datatype FullSyncMessage = Synced(sent: nat, received: nat) | PartlyFailed

  function MessageText(m: FullSyncMessage): string {
    match m
    case Synced(sent, received) => "Sincronizado: " + NatToString(sent) + " enviados, " + NatToString(received) + " recebidos"
    case PartlyFailed => "Erro durante sincronização. Alguns dados podem não ter sido sincronizados."
  }

  datatype PushOutcome = PushOutcome(success: bool, synced: nat, errors: nat)

  datatype PullOutcome = PullOutcome(success: bool, imported: nat)

  /** The rows the push sees: the engine's answer when the connection is usable, none otherwise. */
  function Pending(usable: bool, tables: seq<string>, unsynced: string -> seq<Obj>): seq<Item> {
    if usable then Collected(tables, unsynced) else []
  }

  /** What the engine answers to a select when the connection is usable, and nothing otherwise. */
  function Seen(usable: bool, rows: string -> seq<Obj>): string -> seq<Obj> {
    t => if usable then rows(t) else []
  }

  // ---------------------------------------------------------------------------
  // The service

  class SyncService {
    /** Set while a push is running. */
    var syncInProgress: bool
    const sqlite: SQLiteService

    ghost predicate Valid()
      reads this, sqlite
    {
      sqlite.Valid()
    }

    constructor (service: SQLiteService)
      requires service.Valid()
      ensures Valid() && sqlite == service && !syncInProgress
    {
      sqlite := service;
      syncInProgress := false;
    }

    /** The upsert of one row: when the server takes it, the row is marked synced. */
    method PushRow(table: string, row: Obj, accept: (string, Obj) -> bool) returns (uploaded: bool)
      requires Valid()
      modifies sqlite
      ensures Valid() && sqlite.handle == old(sqlite.handle) && sqlite.open == old(sqlite.open)
      ensures uploaded == Uploaded(accept)(Item(table, row))
      ensures CountWhere([Item(table, row)], Uploaded(accept)) == if uploaded then 1 else 0
      ensures sqlite.executed == old(sqlite.executed)
        + (if sqlite.IsAvailable() && sqlite.open then FilterMap([Item(table, row)], MarkIfUploaded(accept)) else [])
    {
      var item := Item(table, row);
      assert [item][..0] == [];
      uploaded := accept(table, Upload(table, row));
      if uploaded {
        var _ := sqlite.MarkAsSynced(table, IdOf(row));
      }
    }

    /** The push of one table's rows: each accepted row is marked synced. */
    method PushRows(table: string, rows: seq<Obj>, accept: (string, Obj) -> bool) returns (synced: nat, errors: nat)
      requires Valid()
      modifies sqlite
      ensures Valid() && sqlite.handle == old(sqlite.handle) && sqlite.open == old(sqlite.open)
      ensures synced == CountWhere(Tagged(table, rows), Uploaded(accept)) && synced + errors == |rows|
      ensures sqlite.executed == old(sqlite.executed) + (if sqlite.IsAvailable() && sqlite.open then FilterMap(Tagged(table, rows), MarkIfUploaded(accept)) else [])
    {
      ghost var usable := sqlite.IsAvailable() && sqlite.open;
      ghost var before := sqlite.executed;
      ghost var p, f := Uploaded(accept), MarkIfUploaded(accept);
      synced, errors := 0, 0;
      for j := 0 to |rows|
        invariant Valid() && sqlite.handle == old(sqlite.handle) && sqlite.open == old(sqlite.open)
        invariant synced == CountWhere(Tagged(table, rows[..j]), p) && synced + errors == j
        invariant sqlite.executed == before + (if usable then FilterMap(Tagged(table, rows[..j]), f) else [])
      {
        ghost var done := Tagged(table, rows[..j]);
        ghost var item := Item(table, rows[j]);
        ghost var mid := sqlite.executed;
        var uploaded := PushRow(table, rows[j], accept);
        if uploaded {
          synced := synced + 1;
        } else {
          errors := errors + 1;
        }
        assert Tagged(table, rows[..j + 1]) == done + [item] by {
          TaggedStep(table, rows, j);
        }
        assert CountWhere(done + [item], p) == CountWhere(done, p) + CountWhere([item], p) by {
          CountWhereAppend(done, [item], p);
        }
        FilterMapAppend(done, [item], f);
        Extend(before, mid, sqlite.executed, FilterMap(done, f), FilterMap([item], f), usable);
      }
      assert rows[..|rows|] == rows;
    }

    /** The push of the tables in order: the rows the engine reports unsynced, each upserted. */
    method PushTables(tables: seq<string>, unsynced: string -> seq<Obj>, accept: (string, Obj) -> bool) returns (synced: nat, errors: nat)
      requires Valid()
      modifies sqlite
      ensures Valid() && sqlite.handle == old(sqlite.handle) && sqlite.open == old(sqlite.open)
      ensures var items := Pending(sqlite.IsAvailable() && sqlite.open, tables, unsynced);
        synced == CountWhere(items, Uploaded(accept)) && synced + errors == |items| &&
        sqlite.executed == old(sqlite.executed) + FilterMap(items, MarkIfUploaded(accept))
    {
      ghost var usable := sqlite.IsAvailable() && sqlite.open;
      ghost var before := sqlite.executed;
      synced, errors := 0, 0;
      for i := 0 to |tables|
        invariant Valid() && sqlite.handle == old(sqlite.handle) && sqlite.open == old(sqlite.open)
        invariant synced == CountWhere(Pending(usable, tables[..i], unsynced), Uploaded(accept))
        invariant synced + errors == |Pending(usable, tables[..i], unsynced)|
        invariant sqlite.executed == before + FilterMap(Pending(usable, tables[..i], unsynced), MarkIfUploaded(accept))
      {
        var rows := sqlite.GetUnsynced(tables[i], unsynced(tables[i]));
        ghost var done := Pending(usable, tables[..i], unsynced);
        ghost var mid := sqlite.executed;
        var s, e := PushRows(tables[i], rows, accept);
        ghost var more := Tagged(tables[i], rows);
        assert Pending(usable, tables[..i + 1], unsynced) == done + more by {
          CollectedNext(tables, unsynced, i);
        }
        assert CountWhere(done + more, Uploaded(accept)) == CountWhere(done, Uploaded(accept)) + s by {
          CountWhereAppend(done, more, Uploaded(accept));
        }
        assert sqlite.executed == mid + FilterMap(more, MarkIfUploaded(accept)) by {
          if !usable {
            assert more == [];
          }
        }
        FilterMapAppend(done, more, MarkIfUploaded(accept));
        Extend(before, mid, sqlite.executed, FilterMap(done, MarkIfUploaded(accept)), FilterMap(more, MarkIfUploaded(accept)), true);
        synced, errors := synced + s, errors + e;
      }
      assert tables[..|tables|] == tables;
    }

    /**
     * `syncToSupabase`: refused while a push runs or without a connection; otherwise every
     * unsynced row of every table is upserted, the accepted ones marked synced, and the
     * push reports success whatever the server refused.
     */
    method SyncToSupabase(userId: string, unsynced: string -> seq<Obj>, accept: (string, Obj) -> bool) returns (r: PushOutcome)
      requires Valid()
      modifies this, sqlite
      ensures Valid() && syncInProgress == old(syncInProgress) && sqlite.handle == old(sqlite.handle) && sqlite.open == old(sqlite.open)
      ensures old(syncInProgress) || !sqlite.IsAvailable() ==> r == PushOutcome(false, 0, 0) && sqlite.executed == old(sqlite.executed)
      ensures !old(syncInProgress) && sqlite.IsAvailable() ==>
        var items := Pending(sqlite.open, SyncTables, unsynced);
        r.success && r.synced == CountWhere(items, Uploaded(accept)) && r.synced + r.errors == |items| &&
        sqlite.executed == old(sqlite.executed) + FilterMap(items, MarkIfUploaded(accept))
    {
      if syncInProgress || !sqlite.IsAvailable() {
        return PushOutcome(false, 0, 0);
      }
      syncInProgress := true;
      var synced, errors := PushTables(SyncTables, unsynced, accept);
      syncInProgress := false;
      r := PushOutcome(true, synced, errors);
    }

    /** The pull of one table's rows: each is inserted with `synced` set, and counted. */
    method PullRows(table: string, rows: seq<Obj>) returns (imported: nat)
      requires Valid()
      modifies sqlite
      ensures Valid() && sqlite.handle == old(sqlite.handle) && sqlite.open == old(sqlite.open)
      ensures imported == |rows|
      ensures sqlite.executed == old(sqlite.executed) + (if sqlite.IsAvailable() && sqlite.open then Map(Tagged(table, rows), StoreOf) else [])
    {
      ghost var usable := sqlite.IsAvailable() && sqlite.open;
      ghost var before := sqlite.executed;
      imported := 0;
      for j := 0 to |rows|
        invariant Valid() && sqlite.handle == old(sqlite.handle) && sqlite.open == old(sqlite.open)
        invariant imported == j
        invariant sqlite.executed == before + (if usable then Map(Tagged(table, rows[..j]), StoreOf) else [])
      {
        ghost var mid := sqlite.executed;
        var _ := sqlite.Insert(table, ToSqlite(table, rows[j]));
        assert sqlite.executed == mid + (if usable then [StoreOf(Item(table, rows[j]))] else []);
        TaggedStep(table, rows, j);
        MapAppend(Tagged(table, rows[..j]), [Item(table, rows[j])], StoreOf);
        Extend(before, mid, sqlite.executed, Map(Tagged(table, rows[..j]), StoreOf), [StoreOf(Item(table, rows[j]))], usable);
        imported := imported + 1;
      }
      assert rows[..|rows|] == rows;
    }

    /** The pull of the tables in order: every row of a select that succeeded is inserted and counted. */
    method PullTables(tables: seq<string>, userId: string, fetch: (string, string) -> Option<seq<Obj>>) returns (imported: nat)
      requires Valid()
      modifies sqlite
      ensures Valid() && sqlite.handle == old(sqlite.handle) && sqlite.open == old(sqlite.open)
      ensures imported == |Fetched(tables, fetch, userId)|
      ensures sqlite.executed == old(sqlite.executed) + (if sqlite.IsAvailable() && sqlite.open then Map(Fetched(tables, fetch, userId), StoreOf) else [])
    {
      ghost var usable := sqlite.IsAvailable() && sqlite.open;
      ghost var before := sqlite.executed;
      imported := 0;
      for i := 0 to |tables|
        invariant Valid() && sqlite.handle == old(sqlite.handle) && sqlite.open == old(sqlite.open)
        invariant imported == |Fetched(tables[..i], fetch, userId)|
        invariant sqlite.executed == before + (if usable then Map(Fetched(tables[..i], fetch, userId), StoreOf) else [])
      {
        ghost var done := Fetched(tables[..i], fetch, userId);
        var data := fetch(tables[i], userId);
        if data.Some? {
          ghost var more := Tagged(tables[i], data.value);
          ghost var mid := sqlite.executed;
          var n := PullRows(tables[i], data.value);
          assert sqlite.executed == mid + (if usable then Map(more, StoreOf) else []);
          assert Fetched(tables[..i + 1], fetch, userId) == done + more by {
            FetchedNext(tables, fetch, userId, i);
          }
          MapAppend(done, more, StoreOf);
          Extend(before, mid, sqlite.executed, Map(done, StoreOf), Map(more, StoreOf), usable);
          imported := imported + n;
        } else {
          assert Fetched(tables[..i + 1], fetch, userId) == done by {
            FetchedNext(tables, fetch, userId, i);
          }
        }
      }
      assert tables[..|tables|] == tables;
    }

    /**
     * `syncFromSupabase`: refused without a connection; otherwise every row of every table
     * whose select succeeded is stored with `synced` set, and counted even where its insert
     * failed.
     */
    method SyncFromSupabase(userId: string, fetch: (string, string) -> Option<seq<Obj>>) returns (r: PullOutcome)
      requires Valid()
      modifies sqlite
      ensures Valid() && sqlite.handle == old(sqlite.handle) && sqlite.open == old(sqlite.open)
      ensures !sqlite.IsAvailable() ==> r == PullOutcome(false, 0) && sqlite.executed == old(sqlite.executed)
      ensures sqlite.IsAvailable() ==>
        r == PullOutcome(true, |Fetched(SyncTables, fetch, userId)|) &&
        sqlite.executed == old(sqlite.executed) + (if sqlite.open then Map(Fetched(SyncTables, fetch, userId), StoreOf) else [])
    {
      if !sqlite.IsAvailable() {
        return PullOutcome(false, 0);
      }
      var imported := PullTables(SyncTables, userId, fetch);
      r := PullOutcome(true, imported);
    }

    /**
     * `fullSync`: the push, then the pull whatever the push did; it succeeds when both
     * did, and reports the counts.
     */
    method FullSync(userId: string, unsynced: string -> seq<Obj>, accept: (string, Obj) -> bool, fetch: (string, string) -> Option<seq<Obj>>)
      returns (success: bool, message: FullSyncMessage)
      requires Valid()
      modifies this, sqlite
      ensures Valid() && syncInProgress == old(syncInProgress) && sqlite.handle == old(sqlite.handle) && sqlite.open == old(sqlite.open)
      ensures success <==> !old(syncInProgress) && sqlite.IsAvailable()
      ensures !success ==> message == PartlyFailed
      ensures success ==> message == Synced(CountWhere(Pending(sqlite.open, SyncTables, unsynced), Uploaded(accept)), |Fetched(SyncTables, fetch, userId)|)
      ensures sqlite.IsAvailable() ==>
        sqlite.executed == old(sqlite.executed)
          + (if old(syncInProgress) then [] else FilterMap(Pending(sqlite.open, SyncTables, unsynced), MarkIfUploaded(accept)))
          + (if sqlite.open then Map(Fetched(SyncTables, fetch, userId), StoreOf) else [])
      ensures !sqlite.IsAvailable() ==> sqlite.executed == old(sqlite.executed)
    {
      var up := SyncToSupabase(userId, unsynced, accept);
      var down := SyncFromSupabase(userId, fetch);
      if up.success && down.success {
        success, message := true, Synced(up.synced, down.imported);
      } else {
        success, message := false, PartlyFailed;
      }
    }

    /** `exportToJSON`: each table's rows as the engine answers them, under the table's name. */
    method ExportToJSON(userId: string, rows: string -> seq<Obj>) returns (data: Json)
      requires Valid()
      ensures data == JObject(ExportObject(SyncTables, Seen(sqlite.IsAvailable() && sqlite.open, rows)))
    {
      ghost var seen := Seen(sqlite.IsAvailable() && sqlite.open, rows);
      var entries: Obj := [];
      for i := 0 to |SyncTables|
        invariant entries == ExportObject(SyncTables[..i], seen)
      {
        var found := sqlite.GetAll(SyncTables[i], userId, rows(SyncTables[i]));
        assert found == seen(SyncTables[i]);
        ExportNext(SyncTables, seen, i);
        entries := entries + [Prop(SyncTables[i], Rows(found))];
      }
      assert SyncTables[..|SyncTables|] == SyncTables;
      data := JObject(entries);
    }

    /** The import of the records under one key, each retagged and inserted into the table of that name. */
    method ImportRecords(records: seq<Prop>, userId: string) returns (imported: nat)
      requires Valid()
      modifies sqlite
      ensures Valid() && sqlite.handle == old(sqlite.handle) && sqlite.open == old(sqlite.open)
      ensures imported == |records|
      ensures sqlite.executed == old(sqlite.executed) + (if sqlite.IsAvailable() && sqlite.open then Map(records, ImportOf(userId)) else [])
    {
      ghost var usable := sqlite.IsAvailable() && sqlite.open;
      ghost var before := sqlite.executed;
      ghost var f := ImportOf(userId);
      imported := 0;
      for j := 0 to |records|
        invariant Valid() && sqlite.handle == old(sqlite.handle) && sqlite.open == old(sqlite.open)
        invariant imported == j
        invariant sqlite.executed == before + (if usable then Map(records[..j], f) else [])
      {
        ghost var mid := sqlite.executed;
        var _ := sqlite.Insert(records[j].key, Retag(records[j].val, userId));
        assert sqlite.executed == mid + (if usable then [f(records[j])] else []);
        MapStep(records, f, j);
        Extend(before, mid, sqlite.executed, Map(records[..j], f), [f(records[j])], usable);
        imported := imported + 1;
      }
      assert records[..|records|] == records;
    }

    /**
     * `importFromJSON`: `parsed` is `JSON.parse`'s value, `None` where it throws. Each array
     * under a key is inserted, record by record, into the table of that name for the user
     * and pending; the count includes the inserts that failed.
     */
    method ImportFromJSON(userId: string, parsed: Option<Json>) returns (r: PullOutcome)
      requires Valid()
      modifies sqlite
      ensures Valid() && sqlite.handle == old(sqlite.handle) && sqlite.open == old(sqlite.open)
      ensures parsed.None? || parsed.value.JNull? ==> r == PullOutcome(false, 0) && sqlite.executed == old(sqlite.executed)
      ensures parsed.Some? && !parsed.value.JNull? ==>
        var records := Imported(Spread(parsed.value));
        r == PullOutcome(true, |records|) &&
        sqlite.executed == old(sqlite.executed) + (if sqlite.IsAvailable() && sqlite.open then Map(records, ImportOf(userId)) else [])
    {
      if parsed.None? {
        return PullOutcome(false, 0);
      }
      var entries := Entries(parsed.value);
      if entries.None? {
        return PullOutcome(false, 0);
      }
      var es := entries.value;
      ghost var usable := sqlite.IsAvailable() && sqlite.open;
      ghost var before := sqlite.executed;
      ghost var f := ImportOf(userId);
      var imported := 0;
      for i := 0 to |es|
        invariant Valid() && sqlite.handle == old(sqlite.handle) && sqlite.open == old(sqlite.open)
        invariant imported == |Imported(es[..i])|
        invariant sqlite.executed == before + (if usable then Map(Imported(es[..i]), f) else [])
      {
        ghost var done := Imported(es[..i]);
        ImportedNext(es, i);
        if es[i].val.JArray? {
          var more := Under(es[i].key, es[i].val.items);
          ghost var mid := sqlite.executed;
          var n := ImportRecords(more, userId);
          MapAppend(done, more, f);
          Extend(before, mid, sqlite.executed, Map(done, f), Map(more, f), usable);
          imported := imported + n;
        }
      }
      assert es[..|es|] == es;
      r := PullOutcome(true, imported);
    }
  }
}
