/**
 * The records of the offline store and the operations on one object store, as functions on
 * a map from id to record. The IndexedDB service, its synchronisation service and the
 * offline-data hook are all stated in terms of these.
 */
module OfflineRecords {

  /** A field value of a record: the JSON values the tables hold. */
  datatype Value = Str(s: string) | Number(r: real) | Bool(b: bool) | Null

  /**
   * A record of a data store: the columns every table shares, the two local flags, and
   * the table's own columns by name.
   */
  datatype OfflineRecord = OfflineRecord(
    id: string,
    userId: string,
    synced: bool,
    deleted: bool,
    createdAt: string,
    updatedAt: string,
    fields: map<string, Value>)

  /** One object store, keyed by the record's `id` (its key path). */
  type Store = map<string, OfflineRecord>

  /** Every record sits under its own id. */
  predicate Keyed(m: Store) {
    forall id :: id in m ==> m[id].id == id
  }

  /** The records `getAll` returns: the user's, not soft-deleted. */
  function Live(m: Store, userId: string): (rs: set<OfflineRecord>)
    ensures forall r :: r in rs <==> r in m.Values && r.userId == userId && !r.deleted
  {
    set r | r in m.Values && r.userId == userId && !r.deleted
  }

  /** Does the record carry this month key? */
  predicate InMonth(r: OfflineRecord, mesReferencia: string) {
    "mes_referencia" in r.fields && r.fields["mes_referencia"] == Str(mesReferencia)
  }

  /** The records `getByMonth` returns: the user's of that month, not soft-deleted. */
  function LiveInMonth(m: Store, userId: string, mesReferencia: string): (rs: set<OfflineRecord>)
    ensures forall r :: r in rs <==> r in Live(m, userId) && InMonth(r, mesReferencia)
  {
    set r | r in m.Values && r.userId == userId && !r.deleted && InMonth(r, mesReferencia)
  }

  /** The records still to be pushed: every record, of any user, whose flag is not set. */
  function Unsynced(m: Store): (rs: set<OfflineRecord>)
    ensures forall r :: r in rs <==> r in m.Values && !r.synced
  {
    set r | r in m.Values && !r.synced
  }

  /** `delete`: the record is kept, marked deleted and not synced; an absent id changes nothing. */
  function SoftDelete(m: Store, id: string): (m': Store)
    ensures m'.Keys == m.Keys
    ensures forall k :: k in m && k != id ==> m'[k] == m[k]
    ensures id in m ==> m'[id].deleted && !m'[id].synced
    ensures id in m ==> m'[id].(deleted := m[id].deleted, synced := m[id].synced) == m[id]
  {
    if id in m then m[id := m[id].(deleted := true, synced := false)] else m
  }

  /** `markAsSynced`: the record's flag is set; an absent id changes nothing. */
  function MarkSynced(m: Store, id: string): (m': Store)
    ensures m'.Keys == m.Keys
    ensures forall k :: k in m && k != id ==> m'[k] == m[k]
    ensures id in m ==> m'[id] == m[id].(synced := true)
  {
    if id in m then m[id := m[id].(synced := true)] else m
  }

  /** Is the record among those `clearStore` removes? */
  predicate ClearedBy(r: OfflineRecord, userId: string) {
    r.userId == userId && !r.deleted
  }

  /** `clearStore`: the user's live records are removed; everything else stays. */
  function Cleared(m: Store, userId: string): (m': Store)
    ensures forall k :: k in m' <==> k in m && !ClearedBy(m[k], userId)
    ensures forall k :: k in m' ==> m'[k] == m[k]
  {
    map k | k in m && !ClearedBy(m[k], userId) :: m[k]
  }

  /** The store operations keep every record under its own id. */
  lemma KeyedKept(m: Store, r: OfflineRecord, id: string, userId: string)
    requires Keyed(m)
    ensures Keyed(m[r.id := r]) && Keyed(SoftDelete(m, id)) && Keyed(MarkSynced(m, id))
    ensures Keyed(m - {id}) && Keyed(Cleared(m, userId))
  {
  }

  /** After `put`, the record is found under its id and among the live records of its user unless it is deleted. */
  lemma PutThenRead(m: Store, r: OfflineRecord)
    ensures (m[r.id := r])[r.id] == r
    ensures r in Live(m[r.id := r], r.userId) <==> !r.deleted
  {
    assert r in (m[r.id := r]).Values;
  }

  /** A soft-deleted record is no longer read by `getAll`, whoever asks, and the other live records still are. */
  lemma SoftDeleteHides(m: Store, id: string, userId: string)
    requires Keyed(m)
    ensures forall r :: r in Live(SoftDelete(m, id), userId) ==> r.id != id
    ensures forall r :: r in Live(m, userId) && r.id != id ==> r in Live(SoftDelete(m, id), userId)
  {
    var m' := SoftDelete(m, id);
    forall r | r in Live(m', userId)
      ensures r.id != id
    {
      var k :| k in m' && m'[k] == r;
      assert k != id;
      assert m[k] == r;
    }
    forall r | r in Live(m, userId) && r.id != id
      ensures r in Live(m', userId)
    {
      var k :| k in m && m[k] == r;
      assert m'[k] == r;
    }
  }

  /** After `clearStore`, the user has no live records, and the user's soft-deleted records survive. */
  lemma ClearedEmpties(m: Store, userId: string)
    ensures Live(Cleared(m, userId), userId) == {}
    ensures forall k :: k in m && m[k].userId == userId && m[k].deleted ==> k in Cleared(m, userId)
  {
    var m' := Cleared(m, userId);
    forall r
      ensures r !in Live(m', userId)
    {
      if r in m'.Values {
        var k :| k in m' && m'[k] == r;
        assert !ClearedBy(m[k], userId);
      }
    }
  }

  /** A record that `markAsSynced` reaches leaves the unsynced set, and no other record enters or leaves it. */
  lemma MarkSyncedLeavesUnsynced(m: Store, id: string)
    requires Keyed(m)
    ensures forall r :: r in Unsynced(MarkSynced(m, id)) ==> r.id != id
    ensures forall r :: r in Unsynced(m) && r.id != id ==> r in Unsynced(MarkSynced(m, id))
  {
    var m' := MarkSynced(m, id);
    forall r | r in Unsynced(m')
      ensures r.id != id
    {
      var k :| k in m' && m'[k] == r;
      assert k != id;
      assert m[k] == r;
    }
    forall r | r in Unsynced(m) && r.id != id
      ensures r in Unsynced(m')
    {
      var k :| k in m && m[k] == r;
      assert m'[k] == r;
    }
  }

  /** A soft delete makes the record a pending change: it is among the unsynced records. */
  lemma SoftDeletePending(m: Store, id: string)
    requires id in m
    ensures SoftDelete(m, id)[id] in Unsynced(SoftDelete(m, id))
  {
    var m' := SoftDelete(m, id);
    assert m'[id] in m'.Values;
  }
}
