/**
 * The offline synchronisation service of the IndexedDB layer: the push of unsynced records
 * (tombstones are deleted remotely and then locally), the pull of the user's remote rows
 * (a row is written when it is new locally or strictly newer), the full sync behind a
 * re-entrancy flag, and the connection listeners.
 */
module OfflineSync {
  import opened Wrappers
  import opened JsText
  import opened OfflineRecords
  import opened IndexedDb
  import opened SyncRules

  /** A registered connection listener, by identity. */
  type ListenerId = nat

  datatype PushResult = PushResult(success: bool, synced: nat, errors: nat)

  datatype PullResult = PullResult(success: bool, imported: nat)

  /** The messages `fullSync` reports. */
  datatype SyncMessage = AlreadyRunning | NotAuthenticated | SyncedCounts(sent: nat, received: nat) | SyncFailed

  function MessageText(m: SyncMessage): string {
    match m
    case AlreadyRunning => "Sincronização já em andamento"
    case NotAuthenticated => "Usuário não autenticado"
    case SyncedCounts(sent, received) => "Sincronizado: " + NatToString(sent) + " enviados, " + NatToString(received) + " recebidos"
    case SyncFailed => "Erro durante sincronização"
  }

  /**
   * The user `fullSync` works for: the given id when it is a non-empty text, otherwise
   * the signed-in user's id (`currentUser`), otherwise none.
   */
  function SyncUser(userId: Option<string>, currentUser: Option<string>): (u: Option<string>)
    ensures u.Some? ==> u.value != ""
    ensures u.None? <==> (userId.None? || userId.value == "") && (currentUser.None? || currentUser.value == "")
    ensures userId.Some? && userId.value != "" ==> u == userId
  {
    if userId.Some? && userId.value != "" then userId
    else if currentUser.Some? && currentUser.value != "" then currentUser
    else None
  }

  /** JavaScript truthiness of a stored meta value. */
  predicate Truthy(v: Value) {
    match v
    case Str(s) => s != ""
    case Number(x) => x != 0.0
    case Bool(b) => b
    case Null => false
  }

  class OfflineSyncService {
    var isOnline: bool
    var syncInProgress: bool
    var listeners: set<ListenerId>
    const db: IndexedDBService

    ghost predicate Valid()
      reads this, db
    {
      db.Valid()
    }

    /** The service starts with the browser's connection state, idle and without listeners. */
    constructor (db: IndexedDBService, online: bool)
      requires db.Valid()
      ensures Valid() && this.db == db
      ensures isOnline == online && !syncInProgress && listeners == {}
    {
      this.db := db;
      isOnline := online;
      syncInProgress := false;
      listeners := {};
    }

    /** `onConnectionChange`: the listener is registered. */
    method OnConnectionChange(listener: ListenerId)
      modifies this
      ensures listeners == old(listeners) + {listener}
      ensures isOnline == old(isOnline) && syncInProgress == old(syncInProgress)
    {
      listeners := listeners + {listener};
    }

    /** The function `onConnectionChange` returns: that listener, and only it, is removed. */
    method Unsubscribe(listener: ListenerId)
      modifies this
      ensures listeners == old(listeners) - {listener}
      ensures isOnline == old(isOnline) && syncInProgress == old(syncInProgress)
    {
      listeners := listeners - {listener};
    }

    predicate GetOnlineStatus()
      reads this
    {
      isOnline
    }

    predicate IsSyncing()
      reads this
    {
      syncInProgress
    }

    /** The push of one record, after the remote write answered `accept`. */
    method PushItem(table: string, item: OfflineRecord, accept: (string, string) -> bool)
      requires Valid() && db.open && table in DataStores
      modifies db
      ensures Valid() && db.open && db.meta == old(db.meta)
      ensures db.stores == old(db.stores)[table := PushOne(old(db.stores)[table], item, table, accept)]
    {
      if accept(table, item.id) {
        if item.deleted {
          var deleted := db.HardDelete(table, item.id);
        } else {
          var marked := db.MarkAsSynced(table, item.id);
        }
      }
    }

    /**
     * The push of one table: each unsynced record is sent; an accepted tombstone is then
     * deleted locally, an accepted live record marked synced, a refused one left alone.
     * The counts are of the accepted and of the refused records.
     */
    method PushTable(table: string, accept: (string, string) -> bool) returns (synced: nat, errors: nat)
      requires Valid() && db.open && table in DataStores
      modifies db
      ensures Valid() && db.open && db.meta == old(db.meta)
      ensures var m := old(db.stores)[table];
        synced == |Accepted(m, table, accept)| && errors == |Unsynced(m) - Accepted(m, table, accept)|
        && db.stores == old(db.stores)[table := Pushed(m, table, accept)]
    {
      var items := db.GetUnsynced(table);
      ghost var before := db.stores;
      ghost var m := before[table];
      ghost var all := items.value;
      var pending := items.value;
      ghost var done: set<OfflineRecord> := {};
      synced, errors := 0, 0;
      ghost var cur := m;
      PushedNothing(m, table, accept);
      while pending != {}
        invariant db.Valid() && db.open && db.meta == old(db.meta)
        invariant db.stores == before[table := cur]
        invariant cur == PushedSome(m, done, table, accept)
        invariant done !! pending && done + pending == all
        invariant synced == |AcceptedOf(done, table, accept)| && errors == |done - AcceptedOf(done, table, accept)|
        decreases pending
      {
        var item :| item in pending;
        PushStep(m, done, item, table, accept);
        CountStep(done, item, table, accept);
        PushItem(table, item, accept);
        UpdateTwice(before, table, cur, PushOne(cur, item, table, accept));
        MoveOne(done, pending, all, item);
        cur := PushOne(cur, item, table, accept);
        synced, errors := synced + (if accept(table, item.id) then 1 else 0), errors + (if accept(table, item.id) then 0 else 1);
        done := done + {item};
        pending := pending - {item};
      }
    }

    /** The table loop of `syncToSupabase`: the tables are pushed in order. */
    method PushTables(tables: seq<string>, accept: (string, string) -> bool) returns (synced: nat, errors: nat)
      requires Valid() && db.open && forall i :: 0 <= i < |tables| ==> tables[i] in DataStores
      modifies db
      ensures Valid() && db.open && db.meta == old(db.meta)
      ensures PushAll(old(db.stores), tables, accept) == PushState(db.stores, synced, errors)
    {
      synced, errors := 0, 0;
      for i := 0 to |tables|
        invariant db.Valid() && db.open && db.meta == old(db.meta)
        invariant PushAll(old(db.stores), tables[..i], accept) == PushState(db.stores, synced, errors)
      {
        PushAllNext(old(db.stores), tables, i, accept);
        ghost var p := PushState(db.stores, synced, errors);
        var s, e := PushTable(tables[i], accept);
        NextPushOf(p, tables[i], accept, db.stores, s, e);
        synced, errors := synced + s, errors + e;
      }
      assert tables[..|tables|] == tables;
    }

    /**
     * `syncToSupabase`: offline it reports failure with zero counts; otherwise each table
     * in turn is pushed, and success means no record was refused. With the database
     * closed, the first read throws before anything is pushed.
     */
    method SyncToSupabase(accept: (string, string) -> bool) returns (r: Result<PushResult, DbError>)
      requires Valid()
      modifies db
      ensures Valid() && db.open == old(db.open) && db.meta == old(db.meta)
      ensures !isOnline ==> r == Ok(PushResult(false, 0, 0)) && db.stores == old(db.stores)
      ensures isOnline && !db.open ==> r == Err(NotInitialized) && db.stores == old(db.stores)
      ensures isOnline && db.open ==> var p := PushAll(old(db.stores), Tables, accept);
        r == Ok(PushResult(p.errors == 0, p.synced, p.errors)) && db.stores == p.stores
    {
      if !isOnline {
        return Ok(PushResult(false, 0, 0));
      }
      if !db.open {
        return Err(NotInitialized);
      }
      TablesAreTheStores();
      var synced, errors := PushTables(Tables, accept);
      r := Ok(PushResult(errors == 0, synced, errors));
    }

    /**
     * The rows of one table read in turn: a row absent locally or strictly newer is put,
     * synced and not deleted, and counted.
     */
    method PullTable(table: string, rows: seq<OfflineRecord>, instant: string -> Option<int>) returns (imported: nat)
      requires Valid() && db.open && table in DataStores
      modifies db
      ensures Valid() && db.open && db.meta == old(db.meta)
      ensures var p := PullRows(old(db.stores)[table], rows, instant);
        imported == p.count && db.stores == old(db.stores)[table := p.store]
    {
      imported := 0;
      ghost var m := db.stores[table];
      ghost var cur := m;
      UpdateTwice(old(db.stores), table, m, m);
      for j := 0 to |rows|
        invariant db.Valid() && db.open && db.meta == old(db.meta)
        invariant PullRows(m, rows[..j], instant) == TablePull(cur, imported)
        invariant db.stores == old(db.stores)[table := cur]
      {
        PullRowsNext(m, rows, j, instant);
        var row := rows[j];
        var existing := db.GetById(table, row.id);
        if existing.value.None? || Newer(instant, row.updatedAt, existing.value.value.updatedAt) {
          var put := db.Put(table, AsPulled(row));
          UpdateTwice(old(db.stores), table, cur, cur[row.id := AsPulled(row)]);
          cur := cur[row.id := AsPulled(row)];
          imported := imported + 1;
        }
      }
      assert rows[..|rows|] == rows;
    }

    /** The table loop of `syncFromSupabase`: the tables are pulled in order, a failed select skipped. */
    method PullTables(tables: seq<string>, userId: string, fetch: Fetch, instant: string -> Option<int>) returns (imported: nat)
      requires Valid() && db.open && forall i :: 0 <= i < |tables| ==> tables[i] in DataStores
      modifies db
      ensures Valid() && db.open && db.meta == old(db.meta)
      ensures PullAll(old(db.stores), tables, fetch, userId, instant) == PullState(db.stores, imported)
    {
      imported := 0;
      for i := 0 to |tables|
        invariant db.Valid() && db.open && db.meta == old(db.meta)
        invariant PullAll(old(db.stores), tables[..i], fetch, userId, instant) == PullState(db.stores, imported)
      {
        PullAllNext(old(db.stores), tables, i, fetch, userId, instant);
        NextPullCases(PullState(db.stores, imported), tables[i], fetch, userId, instant);
        var answer := fetch(tables[i], userId);
        if answer.Some? {
          var n := PullTable(tables[i], answer.value, instant);
          imported := imported + n;
        }
      }
      assert tables[..|tables|] == tables;
    }

    /**
     * `syncFromSupabase`: offline it reports failure; otherwise each table's rows are
     * pulled (a table whose select fails is skipped), the sync time `now` is recorded
     * under 'lastSync', and the pull reports success. With the database closed every
     * table's first read throws and is caught, and recording the time throws.
     */
    method SyncFromSupabase(userId: string, fetch: Fetch, instant: string -> Option<int>, now: string) returns (r: Result<PullResult, DbError>)
      requires Valid()
      modifies db
      ensures Valid() && db.open == old(db.open)
      ensures !isOnline ==> r == Ok(PullResult(false, 0)) && db.stores == old(db.stores) && db.meta == old(db.meta)
      ensures isOnline && !db.open ==> r == Err(NotInitialized) && db.stores == old(db.stores) && db.meta == old(db.meta)
      ensures isOnline && db.open ==> var p := PullAll(old(db.stores), Tables, fetch, userId, instant);
        r == Ok(PullResult(true, p.imported)) && db.stores == p.stores && db.meta == old(db.meta)["lastSync" := Str(now)]
    {
      if !isOnline {
        return Ok(PullResult(false, 0));
      }
      if !db.open {
        return Err(NotInitialized);
      }
      TablesAreTheStores();
      var imported := PullTables(Tables, userId, fetch, instant);
      var stamped := db.SetSyncMeta("lastSync", Str(now));
      r := Ok(PullResult(true, imported));
    }
  
    /**
     * The body of `fullSync` for a known user: the push and then the pull. Success needs
     * both to succeed; the message gives the records sent and received, or the failure
     * when either throws.
     */
    method PushThenPull(userId: string, accept: (string, string) -> bool, fetch: Fetch, instant: string -> Option<int>, now: string)
      returns (success: bool, message: SyncMessage)
      requires Valid()
      modifies db
      ensures Valid() && db.open == old(db.open)
      ensures !isOnline ==>
        !success && message == SyncedCounts(0, 0) && db.stores == old(db.stores) && db.meta == old(db.meta)
      ensures isOnline && !db.open ==>
        !success && message == SyncFailed && db.stores == old(db.stores) && db.meta == old(db.meta)
      ensures isOnline && db.open ==>
        var push := PushAll(old(db.stores), Tables, accept);
        var pull := PullAll(push.stores, Tables, fetch, userId, instant);
        success == (push.errors == 0) && message == SyncedCounts(push.synced, pull.imported)
        && db.stores == pull.stores && db.meta == old(db.meta)["lastSync" := Str(now)]
    {
      var pushed := SyncToSupabase(accept);
      if pushed.Err? {
        return false, SyncFailed;
      }
      var pulled := SyncFromSupabase(userId, fetch, instant, now);
      if pulled.Err? {
        return false, SyncFailed;
      }
      success := pushed.value.success && pulled.value.success;
      message := SyncedCounts(pushed.value.synced, pulled.value.imported);
    }

    /**
     * `syncToSupabase` as written: online, the first table's unsynced records are read with
     * the `IDBKeyRange.only(false)` query outside the per-record `try`; the read is refused,
     * so the call rejects before any record is sent.
     */
    method SyncToSupabaseAsWritten(accept: (string, string) -> bool) returns (r: Result<PushResult, DbError>)
      requires Valid()
      ensures !isOnline ==> r == Ok(PushResult(false, 0, 0))
      ensures isOnline && !db.open ==> r == Err(NotInitialized)
      ensures isOnline && db.open ==> r == Err(InvalidKey)
    {
      if !isOnline {
        return Ok(PushResult(false, 0, 0));
      }
      TablesAreTheStores();
      var unsyncedItems := db.GetUnsyncedAsWritten(Tables[0]);
      match unsyncedItems {
        case Err(e) =>
          r := Err(e);
        case Ok(_) =>
          assert false;
      }
    }

    /**
     * `fullSync` as written, over `SyncToSupabaseAsWritten`: online, the push rejects and
     * the `catch` reports the failure, so nothing is pushed or pulled and no sync time is
     * recorded.
     */
    method FullSyncAsWritten(userId: Option<string>, currentUser: Option<string>, accept: (string, string) -> bool,
                             fetch: Fetch, instant: string -> Option<int>, now: string)
      returns (success: bool, message: SyncMessage)
      requires Valid()
      modifies this, db
      ensures Valid() && db.open == old(db.open) && syncInProgress == old(syncInProgress)
      ensures db.stores == old(db.stores) && db.meta == old(db.meta)
      ensures old(syncInProgress) ==> !success && message == AlreadyRunning
      ensures !old(syncInProgress) && SyncUser(userId, currentUser).None? ==> !success && message == NotAuthenticated
      ensures !old(syncInProgress) && SyncUser(userId, currentUser).Some? && !isOnline ==>
        !success && message == SyncedCounts(0, 0)
      ensures !old(syncInProgress) && SyncUser(userId, currentUser).Some? && isOnline ==>
        !success && message == SyncFailed
    {
      if syncInProgress {
        return false, AlreadyRunning;
      }
      var user := SyncUser(userId, currentUser);
      if user.None? {
        return false, NotAuthenticated;
      }
      syncInProgress := true;
      var pushed := SyncToSupabaseAsWritten(accept);
      if pushed.Err? {
        success, message := false, SyncFailed;
      } else {
        var pulled := SyncFromSupabase(user.value, fetch, instant, now);
        if pulled.Err? {
          success, message := false, SyncFailed;
        } else {
          var pullSucceeded := pulled.value.success;
          success := pushed.value.success && pullSucceeded;
          message := SyncedCounts(pushed.value.synced, pulled.value.imported);
        }
      }
      syncInProgress := false;
    }

    /**
     * `fullSync`: refused while a sync runs; otherwise, for the given or the signed-in
     * user, the push and then the pull behind the flag, which is cleared however they end.
     */
    method FullSync(userId: Option<string>, currentUser: Option<string>, accept: (string, string) -> bool,
                    fetch: Fetch, instant: string -> Option<int>, now: string)
      returns (success: bool, message: SyncMessage)
      requires Valid()
      modifies this, db
      ensures Valid() && db.open == old(db.open)
      ensures isOnline == old(isOnline) && listeners == old(listeners) && syncInProgress == old(syncInProgress)
      ensures old(syncInProgress) ==>
        !success && message == AlreadyRunning && db.stores == old(db.stores) && db.meta == old(db.meta)
      ensures !old(syncInProgress) && SyncUser(userId, currentUser).None? ==>
        !success && message == NotAuthenticated && db.stores == old(db.stores) && db.meta == old(db.meta)
      ensures !old(syncInProgress) && SyncUser(userId, currentUser).Some? && !isOnline ==>
        !success && message == SyncedCounts(0, 0) && db.stores == old(db.stores) && db.meta == old(db.meta)
      ensures !old(syncInProgress) && SyncUser(userId, currentUser).Some? && isOnline && !db.open ==>
        !success && message == SyncFailed && db.stores == old(db.stores) && db.meta == old(db.meta)
      ensures !old(syncInProgress) && SyncUser(userId, currentUser).Some? && isOnline && db.open ==>
        var push := PushAll(old(db.stores), Tables, accept);
        var pull := PullAll(push.stores, Tables, fetch, SyncUser(userId, currentUser).value, instant);
        success == (push.errors == 0) && message == SyncedCounts(push.synced, pull.imported)
        && db.stores == pull.stores && db.meta == old(db.meta)["lastSync" := Str(now)]
    {
      if syncInProgress {
        return false, AlreadyRunning;
      }
      var user := SyncUser(userId, currentUser);
      if user.None? {
        return false, NotAuthenticated;
      }
      syncInProgress := true;
      success, message := PushThenPull(user.value, accept, fetch, instant, now);
      syncInProgress := false;
    }

    /**
     * The `online` and `offline` events: the state is recorded and every listener told;
     * coming back online starts a full sync for the signed-in user, whose outcome is given.
     */
    method HandleOnlineChange(online: bool, currentUser: Option<string>, accept: (string, string) -> bool,
                              fetch: Fetch, instant: string -> Option<int>, now: string)
      returns (notified: set<ListenerId>, sync: Option<(bool, SyncMessage)>)
      requires Valid()
      modifies this, db
      ensures Valid() && isOnline == online && listeners == old(listeners) && syncInProgress == old(syncInProgress)
      ensures notified == listeners
      ensures sync.Some? <==> online
      ensures !online ==> db.stores == old(db.stores) && db.meta == old(db.meta) && db.open == old(db.open)
    {
      isOnline := online;
      notified := listeners;
      if online {
        var success, message := FullSync(None, currentUser, accept, fetch, instant, now);
        sync := Some((success, message));
      } else {
        sync := None;
      }
    }

    /** `getLastSyncTime`: the recorded sync time when there is one (a falsy value reads as none). */
    method GetLastSyncTime() returns (r: Result<Option<Value>, DbError>)
      requires Valid()
      ensures !db.open ==> r == Err(NotInitialized)
      ensures db.open ==> r.Ok?
      ensures db.open && "lastSync" in db.meta && Truthy(db.meta["lastSync"]) ==> r == Ok(Some(db.meta["lastSync"]))
      ensures db.open && ("lastSync" !in db.meta || !Truthy(db.meta["lastSync"])) ==> r == Ok(None)
    {
      var stored := db.GetSyncMeta("lastSync");
      if stored.Err? {
        return Err(stored.error);
      }
      if stored.value.Some? && Truthy(stored.value.value) {
        r := Ok(stored.value);
      } else {
        r := Ok(None);
      }
    }
  }
}
