/**
 * What the offline synchronisation does to the local tables, as functions: the push of
 * the unsynced records and the pull of the remote rows, table by table, with the lemmas
 * about them. The service class in the OfflineSync module is proved against these.
 *
 * The remote tables are oracles: `accept(table, id)` says whether the remote write of a
 * record succeeds, `fetch(table, userId)` gives the user's rows of a table or `None` when
 * the select fails. `instant` reads an `updated_at` text as a time, `None` for an invalid
 * date.
 */
module SyncRules {
  import opened Wrappers
  import opened OfflineRecords
  import opened IndexedDb

  /** The tables, in the order both directions visit them. */
  const Tables: seq<string> := ["receitas", "despesas", "dividas", "saldos_bancarios", "categorias"]

  lemma TablesAreTheStores()
    ensures forall i :: 0 <= i < |Tables| ==> Tables[i] in DataStores
    ensures forall i, j :: 0 <= i < j < |Tables| ==> Tables[i] != Tables[j]
    ensures forall n :: n in DataStores ==> n in Tables
  {
  }

  // ---------------------------------------------------------------------------
  // Push

  /** The records among `rs` whose remote write to the table succeeds. */
  function AcceptedOf(rs: set<OfflineRecord>, table: string, accept: (string, string) -> bool): (a: set<OfflineRecord>)
    ensures forall r :: r in a <==> r in rs && accept(table, r.id)
  {
    set r | r in rs && accept(table, r.id)
  }

  /** The unsynced records of a table whose remote write succeeds. */
  function Accepted(m: Store, table: string, accept: (string, string) -> bool): (rs: set<OfflineRecord>)
    ensures rs <= Unsynced(m)
  {
    AcceptedOf(Unsynced(m), table, accept)
  }

  /**
   * The table after the records of `done` were pushed: an accepted tombstone is gone, an
   * accepted live record is synced, a refused record is as it was.
   */
  function PushedSome(m: Store, done: set<OfflineRecord>, table: string, accept: (string, string) -> bool): (m': Store)
    ensures forall k :: k in m' <==> k in m && !(m[k] in done && m[k].deleted && accept(table, k))
  {
    map k | k in m && !(m[k] in done && m[k].deleted && accept(table, k)) ::
      if m[k] in done && accept(table, k) then m[k].(synced := true) else m[k]
  }

  /** The table after all its unsynced records were pushed. */
  function Pushed(m: Store, table: string, accept: (string, string) -> bool): Store {
    PushedSome(m, Unsynced(m), table, accept)
  }

  /** The push of one record: an accepted tombstone is deleted, an accepted live record marked synced. */
  function PushOne(s: Store, item: OfflineRecord, table: string, accept: (string, string) -> bool): (s': Store)
    ensures !accept(table, item.id) ==> s' == s
  {
    if !accept(table, item.id) then s
    else if item.deleted then s - {item.id}
    else MarkSynced(s, item.id)
  }

  /** Pushing one more record is one `PushOne` on the table as the earlier records left it. */
  lemma PushStep(m: Store, done: set<OfflineRecord>, item: OfflineRecord, table: string, accept: (string, string) -> bool)
    requires Keyed(m) && item in m.Values && item !in done
    ensures PushedSome(m, done + {item}, table, accept) == PushOne(PushedSome(m, done, table, accept), item, table, accept)
  {
    var k0 :| k0 in m && m[k0] == item;
    assert k0 == item.id;
  }

  lemma UpdateTwice<K, V>(s: map<K, V>, k: K, a: V, b: V)
    ensures s[k := a][k := b] == s[k := b] && s[k := a][k] == a
  {
  }

  /** Moving one element from the pending part to the done part keeps the partition. */
  lemma MoveOne<T>(done: set<T>, pending: set<T>, all: set<T>, x: T)
    requires done !! pending && done + pending == all && x in pending
    ensures (done + {x}) !! (pending - {x}) && (done + {x}) + (pending - {x}) == all && x !in done
  {
  }

  lemma PushedNothing(m: Store, table: string, accept: (string, string) -> bool)
    ensures PushedSome(m, {}, table, accept) == m
  {
  }

  /** One more record adds one to the accepted count or one to the refused count. */
  lemma CountStep(done: set<OfflineRecord>, item: OfflineRecord, table: string, accept: (string, string) -> bool)
    requires item !in done
    ensures |AcceptedOf(done + {item}, table, accept)| == |AcceptedOf(done, table, accept)| + (if accept(table, item.id) then 1 else 0)
    ensures |(done + {item}) - AcceptedOf(done + {item}, table, accept)| == |done - AcceptedOf(done, table, accept)| + (if accept(table, item.id) then 0 else 1)
  {
    if accept(table, item.id) {
      assert AcceptedOf(done + {item}, table, accept) == AcceptedOf(done, table, accept) + {item};
      assert (done + {item}) - AcceptedOf(done + {item}, table, accept) == done - AcceptedOf(done, table, accept);
    } else {
      assert AcceptedOf(done + {item}, table, accept) == AcceptedOf(done, table, accept);
      assert (done + {item}) - AcceptedOf(done + {item}, table, accept) == (done - AcceptedOf(done, table, accept)) + {item};
    }
  }

  /** Pushing keeps every record under its own id. */
  lemma PushedKeyed(m: Store, done: set<OfflineRecord>, table: string, accept: (string, string) -> bool)
    requires Keyed(m)
    ensures Keyed(PushedSome(m, done, table, accept))
  {
  }

  /**
   * After a push the records still waiting are exactly the refused ones: every accepted
   * record is synced or gone, and a refused one is unchanged.
   */
  lemma PushLeavesRefused(m: Store, table: string, accept: (string, string) -> bool)
    requires Keyed(m)
    ensures Unsynced(Pushed(m, table, accept)) == Unsynced(m) - Accepted(m, table, accept)
    ensures forall r :: r in Unsynced(m) && !accept(table, r.id) ==> r.id in Pushed(m, table, accept) && Pushed(m, table, accept)[r.id] == r
    ensures forall k :: k in m && m[k].synced ==> k in Pushed(m, table, accept) && Pushed(m, table, accept)[k] == m[k]
  {
    var m' := Pushed(m, table, accept);
    forall r | r in Unsynced(m')
      ensures r in Unsynced(m) - Accepted(m, table, accept)
    {
      var k :| k in m' && m'[k] == r;
      assert m'[k] == m[k];
    }
    forall r | r in Unsynced(m) - Accepted(m, table, accept)
      ensures r in Unsynced(m')
    {
      var k :| k in m && m[k] == r;
      assert m'[k] == r;
    }
    forall r | r in Unsynced(m) && !accept(table, r.id)
      ensures r.id in m' && m'[r.id] == r
    {
      var k :| k in m && m[k] == r;
      assert k == r.id;
    }
  }

  /** What a push leaves behind: the tables, and the records counted as synced and as errors. */
  datatype PushState = PushState(stores: map<string, Store>, synced: nat, errors: nat)

  /** The push of one more table, read as the earlier tables left the stores. */
  function NextPush(p: PushState, t: string, accept: (string, string) -> bool): (q: PushState)
    ensures q.stores.Keys == p.stores.Keys
  {
    if t !in p.stores then p
    else
    var m := p.stores[t];
    PushState(p.stores[t := Pushed(m, t, accept)], p.synced + |Accepted(m, t, accept)|, p.errors + |Unsynced(m) - Accepted(m, t, accept)|)
  }

  lemma NextPushOf(p: PushState, t: string, accept: (string, string) -> bool, stores: map<string, Store>, synced: nat, errors: nat)
    requires t in p.stores && stores == p.stores[t := Pushed(p.stores[t], t, accept)]
    requires synced == |Accepted(p.stores[t], t, accept)| && errors == |Unsynced(p.stores[t]) - Accepted(p.stores[t], t, accept)|
    ensures NextPush(p, t, accept) == PushState(stores, p.synced + synced, p.errors + errors)
  {
  }

  /** The push over the tables in order, each table read as the earlier ones left it. */
  function PushAll(stores: map<string, Store>, tables: seq<string>, accept: (string, string) -> bool): (p: PushState)
    ensures p.stores.Keys == stores.Keys
    decreases |tables|
  {
    if tables == [] then PushState(stores, 0, 0)
    else NextPush(PushAll(stores, tables[..|tables| - 1], accept), tables[|tables| - 1], accept)
  }

  lemma PushAllNext(stores: map<string, Store>, tables: seq<string>, i: nat, accept: (string, string) -> bool)
    requires i < |tables|
    ensures PushAll(stores, tables[..i + 1], accept) == NextPush(PushAll(stores, tables[..i], accept), tables[i], accept)
  {
    assert tables[..i + 1][..i] == tables[..i];
  }

  /** The number of unsynced records in the tables. */
  function UnsyncedCount(stores: map<string, Store>, tables: seq<string>): nat
    requires forall i :: 0 <= i < |tables| ==> tables[i] in stores
    decreases |tables|
  {
    if tables == [] then 0
    else UnsyncedCount(stores, tables[..|tables| - 1]) + |Unsynced(stores[tables[|tables| - 1]])|
  }

  /** Do all the unsynced records of the tables reach the remote? */
  predicate AllAccepted(stores: map<string, Store>, tables: seq<string>, accept: (string, string) -> bool)
    requires forall i :: 0 <= i < |tables| ==> tables[i] in stores
  {
    forall i, r :: 0 <= i < |tables| && r in Unsynced(stores[tables[i]]) ==> accept(tables[i], r.id)
  }

  /** A push over distinct tables pushes each table once and leaves the other stores alone. */
  lemma {:induction false} PushAllStores(stores: map<string, Store>, tables: seq<string>, accept: (string, string) -> bool)
    requires forall i :: 0 <= i < |tables| ==> tables[i] in stores
    requires forall i, j :: 0 <= i < j < |tables| ==> tables[i] != tables[j]
    ensures forall t :: t in stores ==>
      PushAll(stores, tables, accept).stores[t] == if t in tables then Pushed(stores[t], t, accept) else stores[t]
    decreases |tables|
  {
    if tables != [] {
      var front := tables[..|tables| - 1];
      PushAllStores(stores, front, accept);
      assert tables[|tables| - 1] !in front;
      assert forall t :: t in tables <==> t in front || t == tables[|tables| - 1];
    }
  }

  /** Every unsynced record of distinct tables is counted exactly once, as synced or as an error. */
  lemma {:induction false} PushAllTotal(stores: map<string, Store>, tables: seq<string>, accept: (string, string) -> bool)
    requires forall i :: 0 <= i < |tables| ==> tables[i] in stores
    requires forall i, j :: 0 <= i < j < |tables| ==> tables[i] != tables[j]
    ensures PushAll(stores, tables, accept).synced + PushAll(stores, tables, accept).errors == UnsyncedCount(stores, tables)
    decreases |tables|
  {
    if tables != [] {
      var front := tables[..|tables| - 1];
      var t := tables[|tables| - 1];
      PushAllTotal(stores, front, accept);
      PushAllStores(stores, front, accept);
      assert t !in front;
      CardSplit(Unsynced(stores[t]), Accepted(stores[t], t, accept));
    }
  }

  lemma CardSplit<T>(a: set<T>, b: set<T>)
    requires b <= a
    ensures |b| + |a - b| == |a|
  {
    assert a == b + (a - b);
  }

  /** A push over distinct tables counts no error iff every unsynced record was accepted. */
  lemma {:induction false} PushAllNoErrors(stores: map<string, Store>, tables: seq<string>, accept: (string, string) -> bool)
    requires forall i :: 0 <= i < |tables| ==> tables[i] in stores
    requires forall i, j :: 0 <= i < j < |tables| ==> tables[i] != tables[j]
    ensures PushAll(stores, tables, accept).errors == 0 <==> AllAccepted(stores, tables, accept)
    decreases |tables|
  {
    if tables != [] {
      var front := tables[..|tables| - 1];
      var t := tables[|tables| - 1];
      PushAllNoErrors(stores, front, accept);
      PushAllStores(stores, front, accept);
      assert t !in front;
      LastTableAccepted(stores, tables, accept);
    }
  }

  lemma LastTableAccepted(stores: map<string, Store>, tables: seq<string>, accept: (string, string) -> bool)
    requires tables != [] && forall i :: 0 <= i < |tables| ==> tables[i] in stores
    ensures var t := tables[|tables| - 1];
      AllAccepted(stores, tables, accept) <==>
      AllAccepted(stores, tables[..|tables| - 1], accept) && Unsynced(stores[t]) - Accepted(stores[t], t, accept) == {}
  {
    var t := tables[|tables| - 1];
    var m := stores[t];
    var front := tables[..|tables| - 1];
    if Unsynced(m) - Accepted(m, t, accept) != {} {
      var r :| r in Unsynced(m) - Accepted(m, t, accept);
      assert !accept(tables[|tables| - 1], r.id);
    } else if AllAccepted(stores, front, accept) {
      forall i, r | 0 <= i < |tables| && r in Unsynced(stores[tables[i]])
        ensures accept(tables[i], r.id)
      {
        if i < |front| {
          assert front[i] == tables[i];
        } else {
          assert r !in Unsynced(m) - Accepted(m, t, accept);
        }
      }
    }
  }

  // ---------------------------------------------------------------------------
  // Pull

  /** `new Date(a) > new Date(b)`: false when either text is not a date. */
  predicate Newer(instant: string -> Option<int>, a: string, b: string) {
    instant(a).Some? && instant(b).Some? && instant(a).value > instant(b).value
  }

  /** Is the remote row written locally: absent there, or strictly newer? */
  predicate Writes(m: Store, row: OfflineRecord, instant: string -> Option<int>) {
    row.id !in m || Newer(instant, row.updatedAt, m[row.id].updatedAt)
  }

  /** The local copy of a remote row: synced and not deleted. */
  function AsPulled(row: OfflineRecord): (r: OfflineRecord)
    ensures r.synced && !r.deleted && r.id == row.id
  {
    row.(synced := true, deleted := false)
  }

  /** A table part-way through the pull, with the number of rows written so far. */
  datatype TablePull = TablePull(store: Store, count: nat)

  /** One remote row read: written when `Writes` holds, and then counted. */
  function PullStep(p: TablePull, row: OfflineRecord, instant: string -> Option<int>): TablePull {
    if Writes(p.store, row, instant) then TablePull(p.store[row.id := AsPulled(row)], p.count + 1) else p
  }

  /** A table after the remote rows were read in order, with the number of rows written. */
  function PullRows(m: Store, rows: seq<OfflineRecord>, instant: string -> Option<int>): (p: TablePull)
    ensures p.count <= |rows|
    decreases |rows|
  {
    if rows == [] then TablePull(m, 0)
    else PullStep(PullRows(m, rows[..|rows| - 1], instant), rows[|rows| - 1], instant)
  }

  lemma PullRowsNext(m: Store, rows: seq<OfflineRecord>, j: nat, instant: string -> Option<int>)
    requires j < |rows|
    ensures PullRows(m, rows[..j + 1], instant) == PullStep(PullRows(m, rows[..j], instant), rows[j], instant)
  {
    assert rows[..j + 1][..j] == rows[..j];
  }

  /**
   * Pull never removes a record: each local record is kept, or replaced by a synced,
   * undeleted copy of a remote row; a new key holds such a copy too.
   */
  lemma {:induction false} PullRowsWrites(m: Store, rows: seq<OfflineRecord>, instant: string -> Option<int>)
    requires Keyed(m)
    ensures var s := PullRows(m, rows, instant).store;
      Keyed(s) && m.Keys <= s.Keys
      && (forall k :: k in s && (k !in m || s[k] != m[k]) ==> s[k].synced && !s[k].deleted)
    decreases |rows|
  {
    if rows != [] {
      PullRowsWrites(m, rows[..|rows| - 1], instant);
    }
  }

  /** A local record that no remote row of its id is strictly newer than survives the pull unchanged. */
  lemma {:induction false} PullKeepsLocal(m: Store, rows: seq<OfflineRecord>, instant: string -> Option<int>, k: string)
    requires k in m
    requires forall j :: 0 <= j < |rows| && rows[j].id == k ==> !Newer(instant, rows[j].updatedAt, m[k].updatedAt)
    ensures k in PullRows(m, rows, instant).store && PullRows(m, rows, instant).store[k] == m[k]
    decreases |rows|
  {
    if rows != [] {
      var front := rows[..|rows| - 1];
      assert forall j :: 0 <= j < |front| ==> front[j] == rows[j];
      PullKeepsLocal(m, front, instant, k);
    }
  }

  /** The last remote row of an id that is absent locally, or strictly newer than what is there, is what the table holds. */
  lemma PullTakesNewer(m: Store, rows: seq<OfflineRecord>, instant: string -> Option<int>)
    requires rows != []
    requires Writes(PullRows(m, rows[..|rows| - 1], instant).store, rows[|rows| - 1], instant)
    ensures var row := rows[|rows| - 1];
      PullRows(m, rows, instant).store[row.id] == AsPulled(row)
      && PullRows(m, rows, instant).count == PullRows(m, rows[..|rows| - 1], instant).count + 1
  {
  }

  /** The user's rows of a table, or `None` when the select fails. */
  type Fetch = (string, string) -> Option<seq<OfflineRecord>>

  /** The stores part-way through the pull, with the number of rows written so far. */
  datatype PullState = PullState(stores: map<string, Store>, imported: nat)

  /** The pull of one more table: nothing when its select fails. */
  function NextPull(p: PullState, t: string, fetch: Fetch, userId: string, instant: string -> Option<int>): (q: PullState)
    ensures q.stores.Keys == p.stores.Keys
  {
    if t !in p.stores then p
    else
    match fetch(t, userId)
    case None => p
    case Some(rows) =>
      var q := PullRows(p.stores[t], rows, instant);
      PullState(p.stores[t := q.store], p.imported + q.count)
  }

  /** The two outcomes of one more table, as the table loop takes them. */
  lemma NextPullCases(p: PullState, t: string, fetch: Fetch, userId: string, instant: string -> Option<int>)
    requires t in p.stores
    ensures fetch(t, userId).None? ==> NextPull(p, t, fetch, userId, instant) == p
    ensures fetch(t, userId).Some? ==> var q := PullRows(p.stores[t], fetch(t, userId).value, instant);
      NextPull(p, t, fetch, userId, instant) == PullState(p.stores[t := q.store], p.imported + q.count)
  {
  }

  /** The pull over the tables in order: a table whose select fails is skipped. */
  function PullAll(stores: map<string, Store>, tables: seq<string>, fetch: Fetch, userId: string, instant: string -> Option<int>): (p: PullState)
    ensures p.stores.Keys == stores.Keys
    decreases |tables|
  {
    if tables == [] then PullState(stores, 0)
    else NextPull(PullAll(stores, tables[..|tables| - 1], fetch, userId, instant), tables[|tables| - 1], fetch, userId, instant)
  }

  lemma PullAllNext(stores: map<string, Store>, tables: seq<string>, i: nat, fetch: Fetch, userId: string, instant: string -> Option<int>)
    requires i < |tables|
    ensures PullAll(stores, tables[..i + 1], fetch, userId, instant)
      == NextPull(PullAll(stores, tables[..i], fetch, userId, instant), tables[i], fetch, userId, instant)
  {
    assert tables[..i + 1][..i] == tables[..i];
  }

  /** A table whose select fails is left as it was by the pull. */
  lemma {:induction false} PullSkipsFailedTable(stores: map<string, Store>, tables: seq<string>, fetch: Fetch, userId: string, instant: string -> Option<int>, t: string)
    requires forall i :: 0 <= i < |tables| ==> tables[i] in stores
    requires t in stores && fetch(t, userId).None?
    ensures PullAll(stores, tables, fetch, userId, instant).stores[t] == stores[t]
    decreases |tables|
  {
    if tables != [] {
      PullSkipsFailedTable(stores, tables[..|tables| - 1], fetch, userId, instant, t);
    }
  }

  /** The pull adds no pending change to a table: every record it writes is synced. */
  lemma {:induction false} PullRowsPending(m: Store, rows: seq<OfflineRecord>, instant: string -> Option<int>)
    ensures Unsynced(PullRows(m, rows, instant).store) <= Unsynced(m)
    decreases |rows|
  {
    if rows != [] {
      var front := PullRows(m, rows[..|rows| - 1], instant).store;
      PullRowsPending(m, rows[..|rows| - 1], instant);
      var row := rows[|rows| - 1];
      if Writes(front, row, instant) {
        var s := front[row.id := AsPulled(row)];
        forall r | r in Unsynced(s)
          ensures r in Unsynced(front)
        {
          var k :| k in s && s[k] == r;
          assert k != row.id;
          assert front[k] == r;
        }
      }
    }
  }

  /** No table has more pending changes after the pull than before it. */
  lemma {:induction false} PullAllPending(stores: map<string, Store>, tables: seq<string>, fetch: Fetch, userId: string, instant: string -> Option<int>)
    ensures forall t :: t in stores ==> Unsynced(PullAll(stores, tables, fetch, userId, instant).stores[t]) <= Unsynced(stores[t])
    decreases |tables|
  {
    if tables != [] {
      var front := tables[..|tables| - 1];
      var last := tables[|tables| - 1];
      PullAllPending(stores, front, fetch, userId, instant);
      var p := PullAll(stores, front, fetch, userId, instant);
      if last in p.stores && fetch(last, userId).Some? {
        PullRowsPending(p.stores[last], fetch(last, userId).value, instant);
      }
    }
  }

  /** A table whose every pending record is accepted has none left after its push. */
  lemma PushedSettles(m: Store, t: string, accept: (string, string) -> bool)
    requires Keyed(m) && forall r :: r in Unsynced(m) ==> accept(t, r.id)
    ensures Unsynced(Pushed(m, t, accept)) == {}
  {
    PushLeavesRefused(m, t, accept);
  }

  /** With every remote write accepted, the push over distinct tables leaves none of them a pending change. */
  lemma PushAllSettlesOver(stores: map<string, Store>, tables: seq<string>, accept: (string, string) -> bool)
    requires forall i :: 0 <= i < |tables| ==> tables[i] in stores
    requires forall i, j :: 0 <= i < j < |tables| ==> tables[i] != tables[j]
    requires forall t :: t in stores ==> Keyed(stores[t])
    requires AllAccepted(stores, tables, accept)
    ensures forall i :: 0 <= i < |tables| ==> Unsynced(PushAll(stores, tables, accept).stores[tables[i]]) == {}
  {
    PushAllStores(stores, tables, accept);
    forall i | 0 <= i < |tables|
      ensures Unsynced(PushAll(stores, tables, accept).stores[tables[i]]) == {}
    {
      PushedSettles(stores[tables[i]], tables[i], accept);
    }
  }

  /**
   * A full sync whose every remote write is accepted leaves no pending change in any
   * table: the push clears them, and the pull writes only synced records.
   */
  lemma FullSyncSettles(stores: map<string, Store>, accept: (string, string) -> bool, fetch: Fetch, userId: string, instant: string -> Option<int>)
    requires stores.Keys == DataStores && forall t :: t in stores ==> Keyed(stores[t])
    requires AllAccepted(stores, Tables, accept)
    ensures var after := PullAll(PushAll(stores, Tables, accept).stores, Tables, fetch, userId, instant).stores;
      forall i :: 0 <= i < |Tables| ==> Unsynced(after[Tables[i]]) == {}
  {
    TablesAreTheStores();
    PushAllSettlesOver(stores, Tables, accept);
    PullAllPending(PushAll(stores, Tables, accept).stores, Tables, fetch, userId, instant);
  }
}
