/**
 * The offline-data hook: reads go to the remote tables when online (and the rows are kept
 * locally as synced copies), otherwise to the local store; writes go to the local store
 * first and are marked synced only once the remote write succeeds.
 *
 * The remote side is a parameter of each call: the rows of the remote table for a read,
 * `None` when the query fails, and for a write whether the remote call succeeded. The
 * signed-in user, the fresh id and the current time are parameters too.
 */
module OfflineData {
  import opened Wrappers
  import opened Lists
  import opened OfflineRecords
  import opened IndexedDb
  import opened SyncRules

  /** The columns a record keeps apart from its payload; the hook sets them itself. */
  const OwnKeys: set<string> := {"id", "user_id", "created_at", "updated_at", "synced", "deleted"}

  /** The payload columns of a record. */
  function Columns(data: map<string, Value>): (c: map<string, Value>)
    ensures c.Keys == data.Keys - OwnKeys
    ensures forall k :: k in c ==> c[k] == data[k]
  {
    map k | k in data && k !in OwnKeys :: data[k]
  }

  /** The record `saveData` builds: a fresh id, the user's id and the same creation and update time. */
  function NewRecord(data: map<string, Value>, id: string, userId: string, now: string): OfflineRecord {
    OfflineRecord(id, userId, false, false, now, now, Columns(data))
  }

  /** The record `updateData` writes: the existing one with the payload over it, a new update time, not synced. */
  function Merged(existing: OfflineRecord, data: map<string, Value>, now: string): OfflineRecord {
    existing.(updatedAt := now, synced := false, fields := existing.fields + Columns(data))
  }

  /** In the merge the payload wins, the columns it does not name are kept, and the record becomes a pending change. */
  lemma MergedPayloadWins(existing: OfflineRecord, data: map<string, Value>, now: string)
    ensures var r := Merged(existing, data, now);
      r.id == existing.id && r.userId == existing.userId && r.createdAt == existing.createdAt
      && r.deleted == existing.deleted && !r.synced && r.updatedAt == now
      && r.fields.Keys == existing.fields.Keys + (data.Keys - OwnKeys)
      && (forall k :: k in data && k !in OwnKeys ==> r.fields[k] == data[k])
      && (forall k :: k in existing.fields && (k !in data || k in OwnKeys) ==> r.fields[k] == existing.fields[k])
  {
  }

  /** Does the online read filter by month? Not for the balances nor the categories. */
  predicate MonthScoped(table: string, month: Option<string>) {
    month.Some? && month.value != "" && table != "saldos_bancarios" && table != "categorias"
  }

  /** Does the offline read use the month index? Only for incomes, expenses and debts. */
  predicate ByMonthIndex(table: string, month: Option<string>) {
    month.Some? && month.value != "" && table in {"receitas", "despesas", "dividas"}
  }

  /** On the five tables the online and the offline reads scope by month alike. */
  lemma MonthScopesAgree(table: string, month: Option<string>)
    requires table in DataStores
    ensures MonthScoped(table, month) <==> ByMonthIndex(table, month)
  {
  }

  /** Is the remote row among those the online read selects? */
  predicate Selected(row: OfflineRecord, userId: string, table: string, month: Option<string>) {
    row.userId == userId && (MonthScoped(table, month) ==> InMonth(row, month.value))
  }

  function Selection(userId: string, table: string, month: Option<string>): OfflineRecord -> bool {
    row => Selected(row, userId, table, month)
  }

  /** The rows the online read returns: the user's rows of the table, of the month when it is scoped. */
  function RemoteQuery(rows: seq<OfflineRecord>, userId: string, table: string, month: Option<string>): (r: seq<OfflineRecord>)
    ensures forall i :: 0 <= i < |r| ==> r[i].userId == userId
    ensures MonthScoped(table, month) ==> forall i :: 0 <= i < |r| ==> InMonth(r[i], month.value)
  {
    Filter(rows, Selection(userId, table, month))
  }

  /** Each selected row is returned as often as the remote table holds it, and no other row is. */
  lemma RemoteQueryExact(rows: seq<OfflineRecord>, userId: string, table: string, month: Option<string>, row: OfflineRecord)
    ensures multiset(RemoteQuery(rows, userId, table, month))[row] ==
      if row.userId == userId && (MonthScoped(table, month) ==> InMonth(row, month.value)) then multiset(rows)[row] else 0
  {
    FilterOccurrences(rows, Selection(userId, table, month), row);
  }

  /** The table after the fetched rows were put in order, each as a synced, undeleted copy. */
  function Cached(m: Store, rows: seq<OfflineRecord>): Store
    decreases |rows|
  {
    if rows == [] then m
    else Cached(m, rows[..|rows| - 1])[rows[|rows| - 1].id := AsPulled(rows[|rows| - 1])]
  }

  lemma CachedNext(m: Store, rows: seq<OfflineRecord>, i: nat)
    requires i < |rows|
    ensures Cached(m, rows[..i + 1]) == Cached(m, rows[..i])[rows[i].id := AsPulled(rows[i])]
  {
    assert rows[..i + 1][..i] == rows[..i];
  }

  /** The last fetched row of an id is what the table holds under it. */
  lemma {:induction false} CachedLastWins(m: Store, rows: seq<OfflineRecord>, j: nat)
    requires j < |rows| && forall i :: j < i < |rows| ==> rows[i].id != rows[j].id
    ensures rows[j].id in Cached(m, rows) && Cached(m, rows)[rows[j].id] == AsPulled(rows[j])
    decreases |rows|
  {
    if j < |rows| - 1 {
      var front := rows[..|rows| - 1];
      assert forall i :: j < i < |front| ==> front[i] == rows[i];
      CachedLastWins(m, front, j);
    }
  }

  /** A local record whose id no fetched row carries is kept as it was. */
  lemma {:induction false} CachedKeepsOthers(m: Store, rows: seq<OfflineRecord>, k: string)
    requires k in m && forall i :: 0 <= i < |rows| ==> rows[i].id != k
    ensures k in Cached(m, rows) && Cached(m, rows)[k] == m[k]
    decreases |rows|
  {
    if rows != [] {
      var front := rows[..|rows| - 1];
      assert forall i :: 0 <= i < |front| ==> front[i] == rows[i];
      CachedKeepsOthers(m, front, k);
    }
  }

  /** A saved record is read back as the user's live record, pending until the remote insert succeeds. */
  lemma SaveThenRead(m: Store, data: map<string, Value>, id: string, userId: string, now: string, synced: bool)
    ensures var r := NewRecord(data, id, userId, now).(synced := synced);
      r in Live(m[id := r], userId) && (r in Unsynced(m[id := r]) <==> !synced)
      && r.createdAt == r.updatedAt == now && r.fields.Keys == data.Keys - OwnKeys
  {
    var r := NewRecord(data, id, userId, now).(synced := synced);
    assert (m[id := r])[id] == r;
    assert r in (m[id := r]).Values;
  }

  /** A deleted record is no longer read, whether the remote delete removed it or it waits as a tombstone. */
  lemma DeleteHides(m: Store, id: string, userId: string, removed: bool)
    requires Keyed(m)
    ensures var m' := if removed then m - {id} else SoftDelete(m, id);
      forall r :: r in Live(m', userId) ==> r.id != id
  {
    if removed {
      forall r | r in Live(m - {id}, userId)
        ensures r.id != id
      {
        var k :| k in m - {id} && (m - {id})[k] == r;
      }
    } else {
      SoftDeleteHides(m, id, userId);
    }
  }

  /** What a read gives: nothing, the remote rows, or the local records. */
  datatype Rows = NoRows | Remote(rows: seq<OfflineRecord>) | Local(records: set<OfflineRecord>)

  /** What a write reports: the failure without a user, otherwise success (with the saved record for `saveData`). */
  datatype WriteResult = Failed(error: string) | Succeeded(data: Option<OfflineRecord>)

  const NotAuthenticatedError := "Usuário não autenticado"

  class OfflineDataHook {
    var isOnline: bool
    const db: IndexedDBService

    ghost predicate Valid()
      reads this, db
    {
      db.Valid()
    }

    constructor (db: IndexedDBService, online: bool)
      requires db.Valid()
      ensures Valid() && this.db == db && isOnline == online
    {
      this.db := db;
      isOnline := online;
    }

    /** The connection listener the hook registers. */
    method SetOnline(online: bool)
      modifies this
      ensures isOnline == online
    {
      isOnline := online;
    }

    /** The fetched rows kept locally, in order. */
    method CacheRows(table: string, rows: seq<OfflineRecord>)
      requires Valid() && db.open && table in DataStores
      modifies db
      ensures Valid() && db.open && db.meta == old(db.meta)
      ensures db.stores == old(db.stores)[table := Cached(old(db.stores)[table], rows)]
    {
      ghost var m := db.stores[table];
      UpdateTwice(old(db.stores), table, m, m);
      for i := 0 to |rows|
        invariant db.Valid() && db.open && db.meta == old(db.meta)
        invariant db.stores == old(db.stores)[table := Cached(m, rows[..i])]
      {
        CachedNext(m, rows, i);
        UpdateTwice(old(db.stores), table, Cached(m, rows[..i]), Cached(m, rows[..i + 1]));
        var put := db.Put(table, AsPulled(rows[i]));
      }
      assert rows[..|rows|] == rows;
    }

    /**
     * `getData`: without a user nothing; online, the selected remote rows, kept locally;
     * when offline or the query fails, the user's live local records, of the month when
     * the table has a month index; with the database closed, nothing.
     */
    method GetData(user: Option<string>, table: string, month: Option<string>, remote: Option<seq<OfflineRecord>>)
      returns (r: Rows)
      requires Valid() && table in DataStores
      modifies db
      ensures Valid() && db.open == old(db.open) && db.meta == old(db.meta)
      ensures user.None? || !db.open ==> r == NoRows && db.stores == old(db.stores)
      ensures user.Some? && db.open && isOnline && remote.Some? ==>
        var rows := RemoteQuery(remote.value, user.value, table, month);
        r == Remote(rows) && db.stores == old(db.stores)[table := Cached(old(db.stores)[table], rows)]
      ensures user.Some? && db.open && !(isOnline && remote.Some?) ==> db.stores == old(db.stores)
      ensures user.Some? && db.open && !(isOnline && remote.Some?) && ByMonthIndex(table, month) ==>
        r == Local(LiveInMonth(old(db.stores)[table], user.value, month.value))
      ensures user.Some? && db.open && !(isOnline && remote.Some?) && !ByMonthIndex(table, month) ==>
        r == Local(Live(old(db.stores)[table], user.value))
    {
      if user.None? || !db.open {
        return NoRows;
      }
      if isOnline && remote.Some? {
        var rows := RemoteQuery(remote.value, user.value, table, month);
        CacheRows(table, rows);
        return Remote(rows);
      }
      if ByMonthIndex(table, month) {
        var found := db.GetByMonth(table, user.value, month.value);
        r := Local(found.value);
      } else {
        var found := db.GetAll(table, user.value);
        r := Local(found.value);
      }
    }

    /**
     * `saveData`: with a user, the new record is stored locally as a pending change and
     * marked synced once the remote insert succeeds; success is reported either way.
     */
    method SaveData(user: Option<string>, table: string, data: map<string, Value>, id: string, now: string, inserted: bool)
      returns (r: WriteResult)
      requires Valid() && table in DataStores
      modifies db
      ensures Valid() && db.open == old(db.open) && db.meta == old(db.meta)
      ensures user.None? ==> r == Failed(NotAuthenticatedError) && db.stores == old(db.stores)
      ensures user.Some? ==> r == Succeeded(Some(NewRecord(data, id, user.value, now)))
      ensures user.Some? && !db.open ==> db.stores == old(db.stores)
      ensures user.Some? && db.open ==>
        var saved := NewRecord(data, id, user.value, now).(synced := isOnline && inserted);
        db.stores == old(db.stores)[table := old(db.stores)[table][id := saved]]
    {
      if user.None? {
        return Failed(NotAuthenticatedError);
      }
      var record := NewRecord(data, id, user.value, now);
      if db.open {
        var put := db.Put(table, record);
        if isOnline && inserted {
          UpdateTwice(old(db.stores), table, old(db.stores)[table][id := record], old(db.stores)[table][id := record][id := record.(synced := true)]);
          UpdateTwice(old(db.stores)[table], id, record, record.(synced := true));
          var marked := db.MarkAsSynced(table, id);
        }
      }
      r := Succeeded(Some(record));
    }

    /**
     * `updateData`: with a user, an existing local record gets the payload merged over it
     * as a pending change, marked synced once the remote update succeeds; no record is
     * created; success is reported either way.
     */
    method UpdateData(user: Option<string>, table: string, id: string, data: map<string, Value>, now: string, updated: bool)
      returns (r: WriteResult)
      requires Valid() && table in DataStores
      modifies db
      ensures Valid() && db.open == old(db.open) && db.meta == old(db.meta)
      ensures user.None? ==> r == Failed(NotAuthenticatedError) && db.stores == old(db.stores)
      ensures user.Some? ==> r == Succeeded(None)
      ensures user.Some? && (!db.open || id !in old(db.stores)[table]) ==> db.stores == old(db.stores)
      ensures user.Some? && db.open && id in old(db.stores)[table] ==>
        var written := Merged(old(db.stores)[table][id], data, now).(synced := isOnline && updated);
        db.stores == old(db.stores)[table := old(db.stores)[table][id := written]]
    {
      if user.None? {
        return Failed(NotAuthenticatedError);
      }
      r := Succeeded(None);
      if !db.open {
        return;
      }
      var existing := db.GetById(table, id);
      if existing.value.Some? {
        var record := Merged(existing.value.value, data, now);
        var put := db.Put(table, record);
        if isOnline && updated {
          UpdateTwice(old(db.stores), table, old(db.stores)[table][id := record], old(db.stores)[table][id := record][id := record.(synced := true)]);
          UpdateTwice(old(db.stores)[table], id, record, record.(synced := true));
          var marked := db.MarkAsSynced(table, id);
        }
      } else if isOnline && updated {
        var marked := db.MarkAsSynced(table, id);
        assert db.stores[table] == old(db.stores)[table];
      }
    }

    /**
     * `deleteData`: with a user, the local record is soft-deleted, and removed once the
     * remote delete succeeds; success is reported either way.
     */
    method DeleteData(user: Option<string>, table: string, id: string, deleted: bool)
      returns (r: WriteResult)
      requires Valid() && table in DataStores
      modifies db
      ensures Valid() && db.open == old(db.open) && db.meta == old(db.meta)
      ensures user.None? ==> r == Failed(NotAuthenticatedError) && db.stores == old(db.stores)
      ensures user.Some? ==> r == Succeeded(None)
      ensures user.Some? && !db.open ==> db.stores == old(db.stores)
      ensures user.Some? && db.open && isOnline && deleted ==> db.stores == old(db.stores)[table := old(db.stores)[table] - {id}]
      ensures user.Some? && db.open && !(isOnline && deleted) ==> db.stores == old(db.stores)[table := SoftDelete(old(db.stores)[table], id)]
    {
      if user.None? {
        return Failed(NotAuthenticatedError);
      }
      r := Succeeded(None);
      if !db.open {
        return;
      }
      var soft := db.Delete(table, id);
      if isOnline && deleted {
        assert SoftDelete(old(db.stores)[table], id) - {id} == old(db.stores)[table] - {id};
        UpdateTwice(old(db.stores), table, SoftDelete(old(db.stores)[table], id), old(db.stores)[table] - {id});
        var hard := db.HardDelete(table, id);
      }
    }
  }
}
