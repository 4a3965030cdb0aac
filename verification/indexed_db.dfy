/**
 * The IndexedDB service: five data stores and a metadata store behind a handle that
 * `initialize` opens and `close` drops. Every data operation fails while the handle is
 * unset.
 */
module IndexedDb {
  import opened Wrappers
  import opened OfflineRecords

  const DataStores: set<string> := {"receitas", "despesas", "dividas", "saldos_bancarios", "categorias"}

  /**
   * Why an operation failed: no handle, a store or index the database does not have, or a
   * value that is not a valid IndexedDB key.
   */
  datatype DbError = NotInitialized | NoSuchStore | NoSuchIndex | InvalidKey

  /** A key range over one key; only numbers and strings are keys here (arrays and dates are not modelled). */
  datatype KeyRange = Only(key: Value)

  /** `IDBKeyRange.only(v)`: refused with a DataError when v is not a valid key. */
  function KeyRangeOnly(v: Value): (r: Result<KeyRange, DbError>)
    ensures r.Ok? <==> v.Str? || v.Number?
    ensures r.Ok? ==> r.value == Only(v)
  {
    if v.Str? || v.Number? then Ok(Only(v)) else Err(InvalidKey)
  }

  /**
   * `getUnsynced` as written: the range `IDBKeyRange.only(false)` over the 'by-synced'
   * index. A boolean is not a key, so the range is refused before the index is read.
   */
  function UnsyncedAsWritten(m: Store): (r: Result<set<OfflineRecord>, DbError>)
  {
    match KeyRangeOnly(Bool(false))
    case Err(e) => Err(e)
    case Ok(range) => Ok(set x | x in m.Values && Bool(x.synced) == range.key)
  }

  /** As written, `getUnsynced` fails on every store, even one holding records waiting to be pushed. */
  lemma UnsyncedAsWrittenFails(m: Store, r: OfflineRecord)
    requires r in m.Values && !r.synced
    ensures UnsyncedAsWritten(m) == Err(InvalidKey)
    ensures r in Unsynced(m)
  {
  }

  /** The intended `getUnsynced`, which the rest of the model uses: exactly the records not yet synced. */
  lemma UnsyncedIntended(m: Store, r: OfflineRecord)
    requires r in m.Values
    ensures r in Unsynced(m) <==> !r.synced
  {
  }

  function EmptyStores(): (s: map<string, Store>)
    ensures s.Keys == DataStores
    ensures forall n :: n in s ==> s[n] == map[]
  {
    map n | n in DataStores :: map[]
  }

  /** The loop of `clearStore`: the record of each item is deleted by its id, one at a time. */
  method DeleteEach(m: Store, items: set<OfflineRecord>) returns (s: Store)
    requires Keyed(m) && items <= m.Values
    ensures forall k :: k in s <==> k in m && m[k] !in items
    ensures forall k :: k in s ==> s[k] == m[k]
  {
    var pending := items;
    s := m;
    while pending != {}
      invariant forall k :: k in s <==> k in m && (m[k] !in items || m[k] in pending)
      invariant forall k :: k in s ==> s[k] == m[k]
      invariant pending <= items
      decreases pending
    {
      var item :| item in pending;
      ghost var key :| key in m && m[key] == item;
      assert key == item.id;
      s := s - {item.id};
      pending := pending - {item};
    }
  }

  class IndexedDBService {
    var open: bool
    var stores: map<string, Store>
    var meta: map<string, Value>

    /** The five data stores exist and each keeps its records under their ids. */
    ghost predicate Valid()
      reads this
    {
      stores.Keys == DataStores && forall n :: n in stores ==> Keyed(stores[n])
    }

    constructor ()
      ensures Valid() && !open && stores == EmptyStores() && meta == map[]
    {
      open := false;
      stores := EmptyStores();
      meta := map[];
    }

    /** `initialize`: `success` says whether `openDB` succeeded; the stored data is kept either way. */
    method Initialize(success: bool) returns (ok: bool)
      requires Valid()
      modifies this
      ensures Valid() && ok == success
      ensures open == (old(open) || success) && stores == old(stores) && meta == old(meta)
    {
      if success {
        open := true;
      }
      ok := success;
    }

    /** `isAvailable`: the handle is set. */
    predicate IsAvailable()
      reads this
    {
      open
    }

    /** `getAll`: the user's records that are not soft-deleted. */
    method GetAll(name: string, userId: string) returns (r: Result<set<OfflineRecord>, DbError>)
      requires Valid()
      ensures !open ==> r == Err(NotInitialized)
      ensures open && name !in DataStores ==> r == Err(NoSuchStore)
      ensures open && name in DataStores ==> r == Ok(Live(stores[name], userId))
    {
      if !open {
        return Err(NotInitialized);
      }
      if name !in stores {
        return Err(NoSuchStore);
      }
      r := Ok(Live(stores[name], userId));
    }

    /** `getByMonth`: the user's records of the month not soft-deleted; the balances store has no month index. */
    method GetByMonth(name: string, userId: string, mesReferencia: string) returns (r: Result<set<OfflineRecord>, DbError>)
      requires Valid()
      ensures !open ==> r == Err(NotInitialized)
      ensures open && name !in DataStores ==> r == Err(NoSuchStore)
      ensures open && name == "saldos_bancarios" ==> r == Err(NoSuchIndex)
      ensures open && name in DataStores && name != "saldos_bancarios" ==> r == Ok(LiveInMonth(stores[name], userId, mesReferencia))
    {
      if !open {
        return Err(NotInitialized);
      }
      if name !in stores {
        return Err(NoSuchStore);
      }
      if name == "saldos_bancarios" {
        return Err(NoSuchIndex);
      }
      r := Ok(LiveInMonth(stores[name], userId, mesReferencia));
    }

    /** `getById`: the record under the id, or nothing. */
    method GetById(name: string, id: string) returns (r: Result<Option<OfflineRecord>, DbError>)
      requires Valid()
      ensures !open ==> r == Err(NotInitialized)
      ensures open && name !in DataStores ==> r == Err(NoSuchStore)
      ensures open && name in DataStores ==> r.Ok? && (r.value.Some? <==> id in stores[name])
      ensures open && name in DataStores && id in stores[name] ==> r.value.value == stores[name][id] && r.value.value.id == id
    {
      if !open {
        return Err(NotInitialized);
      }
      if name !in stores {
        return Err(NoSuchStore);
      }
      r := Ok(if id in stores[name] then Some(stores[name][id]) else None);
    }

    /** `put`: the record is stored under its id, replacing any record with that id. */
    method Put(name: string, record: OfflineRecord) returns (r: Result<string, DbError>)
      requires Valid()
      modifies this
      ensures Valid() && open == old(open) && meta == old(meta)
      ensures !open ==> r == Err(NotInitialized) && stores == old(stores)
      ensures open && name !in DataStores ==> r == Err(NoSuchStore) && stores == old(stores)
      ensures open && name in DataStores ==> r == Ok(record.id) && stores == old(stores)[name := old(stores)[name][record.id := record]]
    {
      if !open {
        return Err(NotInitialized);
      }
      if name !in stores {
        return Err(NoSuchStore);
      }
      stores := stores[name := stores[name][record.id := record]];
      r := Ok(record.id);
    }

    /** `delete`: a soft delete, which keeps the record marked deleted and not synced. */
    method Delete(name: string, id: string) returns (r: Result<(), DbError>)
      requires Valid()
      modifies this
      ensures Valid() && open == old(open) && meta == old(meta)
      ensures !open ==> r == Err(NotInitialized) && stores == old(stores)
      ensures open && name !in DataStores ==> r == Err(NoSuchStore) && stores == old(stores)
      ensures open && name in DataStores ==> r.Ok? && stores == old(stores)[name := SoftDelete(old(stores)[name], id)]
    {
      if !open {
        return Err(NotInitialized);
      }
      if name !in stores {
        return Err(NoSuchStore);
      }
      stores := stores[name := SoftDelete(stores[name], id)];
      r := Ok(());
    }

    /** `hardDelete`: the record is removed. */
    method HardDelete(name: string, id: string) returns (r: Result<(), DbError>)
      requires Valid()
      modifies this
      ensures Valid() && open == old(open) && meta == old(meta)
      ensures !open ==> r == Err(NotInitialized) && stores == old(stores)
      ensures open && name !in DataStores ==> r == Err(NoSuchStore) && stores == old(stores)
      ensures open && name in DataStores ==> r.Ok? && stores == old(stores)[name := old(stores)[name] - {id}]
    {
      if !open {
        return Err(NotInitialized);
      }
      if name !in stores {
        return Err(NoSuchStore);
      }
      stores := stores[name := stores[name] - {id}];
      r := Ok(());
    }

    /** `getUnsynced` as intended: the records whose flag is not set. */
    method GetUnsynced(name: string) returns (r: Result<set<OfflineRecord>, DbError>)
      requires Valid()
      ensures !open ==> r == Err(NotInitialized)
      ensures open && name !in DataStores ==> r == Err(NoSuchStore)
      ensures open && name in DataStores ==> r == Ok(Unsynced(stores[name]))
    {
      if !open {
        return Err(NotInitialized);
      }
      if name !in stores {
        return Err(NoSuchStore);
      }
      r := Ok(Unsynced(stores[name]));
    }

    /** `getUnsynced` as written: the query `UnsyncedAsWritten` on the named store. */
    method GetUnsyncedAsWritten(name: string) returns (r: Result<set<OfflineRecord>, DbError>)
      requires Valid()
      ensures !open ==> r == Err(NotInitialized)
      ensures open && name !in DataStores ==> r == Err(NoSuchStore)
      ensures open && name in DataStores ==> r == UnsyncedAsWritten(stores[name])
    {
      if !open {
        return Err(NotInitialized);
      }
      if name !in stores {
        return Err(NoSuchStore);
      }
      r := UnsyncedAsWritten(stores[name]);
    }

    /** `markAsSynced`: the record's flag is set; an absent id changes nothing. */
    method MarkAsSynced(name: string, id: string) returns (r: Result<(), DbError>)
      requires Valid()
      modifies this
      ensures Valid() && open == old(open) && meta == old(meta)
      ensures !open ==> r == Err(NotInitialized) && stores == old(stores)
      ensures open && name !in DataStores ==> r == Err(NoSuchStore) && stores == old(stores)
      ensures open && name in DataStores ==> r.Ok? && stores == old(stores)[name := MarkSynced(old(stores)[name], id)]
    {
      if !open {
        return Err(NotInitialized);
      }
      if name !in stores {
        return Err(NoSuchStore);
      }
      stores := stores[name := MarkSynced(stores[name], id)];
      r := Ok(());
    }

    /** `clearStore`: each of the user's live records is deleted in turn; soft-deleted ones stay. */
    method ClearStore(name: string, userId: string) returns (r: Result<(), DbError>)
      requires Valid()
      modifies this
      ensures Valid() && open == old(open) && meta == old(meta)
      ensures !open ==> r == Err(NotInitialized) && stores == old(stores)
      ensures open && name !in DataStores ==> r == Err(NoSuchStore) && stores == old(stores)
      ensures open && name in DataStores ==> r.Ok? && stores == old(stores)[name := Cleared(old(stores)[name], userId)]
    {
      var items := GetAll(name, userId);
      if items.Err? {
        return Err(items.error);
      }
      ghost var m := stores[name];
      var s := DeleteEach(stores[name], items.value);
      assert s == Cleared(m, userId);
      stores := stores[name := s];
      r := Ok(());
    }

    /** `getSyncMeta`: the last value set for the key, or null. */
    method GetSyncMeta(key: string) returns (r: Result<Option<Value>, DbError>)
      requires Valid()
      ensures !open ==> r == Err(NotInitialized)
      ensures open ==> r == Ok(if key in meta then Some(meta[key]) else None)
    {
      if !open {
        return Err(NotInitialized);
      }
      r := Ok(if key in meta then Some(meta[key]) else None);
    }

    /** `setSyncMeta`: the key's value is replaced. */
    method SetSyncMeta(key: string, value: Value) returns (r: Result<(), DbError>)
      requires Valid()
      modifies this
      ensures Valid() && open == old(open) && stores == old(stores)
      ensures !open ==> r == Err(NotInitialized) && meta == old(meta)
      ensures open ==> r.Ok? && meta == old(meta)[key := value]
    {
      if !open {
        return Err(NotInitialized);
      }
      meta := meta[key := value];
      r := Ok(());
    }

    /** `close`: the handle is dropped; the stored data stays for the next `initialize`. */
    method Close()
      requires Valid()
      modifies this
      ensures Valid() && !open && stores == old(stores) && meta == old(meta)
    {
      open := false;
    }
  }

  /** What a put, a soft delete, a mark and a hard delete in a row leave behind for one id. */
  lemma PutDeleteSequence(m: Store, r: OfflineRecord)
    ensures var m1 := m[r.id := r];
      var m2 := SoftDelete(m1, r.id);
      m2[r.id] == r.(deleted := true, synced := false)
      && MarkSynced(m2, r.id)[r.id] == r.(deleted := true, synced := true)
      && r.id !in MarkSynced(m2, r.id) - {r.id}
  {
  }
}
