/**
 * The native SQLite service: the JavaScript values it binds, the SQL text its builders
 * produce with their bound values, and the availability guards around the connection.
 *
 * The SQL engine is outside the model: a query's rows are a parameter, and the service
 * keeps the log of the statements it ran.
 */
module SqliteDatabase {
  import opened Wrappers
  import opened JsText
  import opened Lists

  /** A JavaScript value as the SQLite layer passes it on: a JSON value. */
  datatype Json = JNull | JBool(b: bool) | JNumber(r: real) | JString(s: string) | JArray(items: seq<Json>) | JObject(entries: seq<Prop>)

  /** A property of a plain object. */
  datatype Prop = Prop(key: string, val: Json)

  /** A plain object: its own properties in enumeration order. */
  type Obj = seq<Prop>

  /** `Object.keys(o)`. */
  function Keys(o: Obj): (ks: seq<string>)
    ensures |ks| == |o| && forall i :: 0 <= i < |o| ==> ks[i] == o[i].key
  {
    seq(|o|, i requires 0 <= i < |o| => o[i].key)
  }

  /** `Object.values(o)`, in the order of the keys. */
  function Values(o: Obj): (vs: seq<Json>)
    ensures |vs| == |o| && forall i :: 0 <= i < |o| ==> vs[i] == o[i].val
  {
    seq(|o|, i requires 0 <= i < |o| => o[i].val)
  }

  /** `o[k]`: the value of the property, `None` when there is none. */
  function Get(o: Obj, k: string): Option<Json> {
    if o == [] then None
    else if o[0].key == k then Some(o[0].val)
    else Get(o[1..], k)
  }

  lemma {:induction false} GetFound(o: Obj, k: string)
    ensures Get(o, k).Some? <==> k in Keys(o)
    ensures Get(o, k).Some? ==> exists i :: 0 <= i < |o| && o[i] == Prop(k, Get(o, k).value)
  {
    if o != [] {
      GetFound(o[1..], k);
      assert forall i :: 0 <= i < |o[1..]| ==> o[1..][i] == o[i + 1];
      if Get(o[1..], k).Some? && o[0].key != k {
        var i :| 0 <= i < |o[1..]| && o[1..][i] == Prop(k, Get(o[1..], k).value);
        assert o[i + 1] == Prop(k, Get(o, k).value);
      }
    }
  }

  /**
   * `o[k] = v` on a copy: an existing property keeps its place and takes the value, a new
   * one comes last.
   */
  function Set(o: Obj, k: string, v: Json): Obj {
    if k in Keys(o) then seq(|o|, i requires 0 <= i < |o| => if o[i].key == k then Prop(k, v) else o[i])
    else o + [Prop(k, v)]
  }

  /** The keys keep their order, a new one comes last, and only the assigned property changes. */
  lemma SetShape(o: Obj, k: string, v: Json)
    ensures Keys(Set(o, k, v)) == if k in Keys(o) then Keys(o) else Keys(o) + [k]
    ensures forall i :: 0 <= i < |o| ==> Set(o, k, v)[i] == if o[i].key == k then Prop(k, v) else o[i]
  {
  }

  /** Two objects with the same keys in the same places, agreeing on the key's values, read the same for it. */
  lemma {:induction false} GetAgrees(o: Obj, r: Obj, key: string)
    requires |o| == |r|
    requires forall i :: 0 <= i < |o| ==> r[i].key == o[i].key && (o[i].key == key ==> r[i].val == o[i].val)
    ensures Get(r, key) == Get(o, key)
  {
    if o != [] {
      GetAgrees(o[1..], r[1..], key);
    }
  }

  /** A property added at the end does not change how the others read. */
  lemma {:induction false} GetSnoc(o: Obj, p: Prop, key: string)
    requires p.key != key
    ensures Get(o + [p], key) == Get(o, key)
  {
    if o != [] {
      assert (o + [p])[1..] == o[1..] + [p];
      GetSnoc(o[1..], p, key);
    }
  }

  /** After the assignment the property reads the new value, and every other property is as it was. */
  lemma SetThenGet(o: Obj, k: string, v: Json, other: string)
    ensures Get(Set(o, k, v), k) == Some(v)
    ensures other != k ==> Get(Set(o, k, v), other) == Get(o, other)
  {
    var r := Set(o, k, v);
    SetShape(o, k, v);
    assert k in Keys(r) by {
      if k !in Keys(o) {
        assert Keys(r)[|o|] == k;
      }
    }
    GetFound(r, k);
    var i :| 0 <= i < |r| && r[i] == Prop(k, Get(r, k).value);
    if i < |o| {
      assert r[i] == Prop(k, v) by {
        if o[i].key != k {
          assert r[i] == o[i];
        }
      }
    }
    if other != k {
      if k in Keys(o) {
        GetAgrees(o, r, other);
      } else {
        GetSnoc(o, Prop(k, v), other);
      }
    }
  }

  predicate KeyIsNot(k: string, p: Prop) {
    p.key != k
  }

  function Other(k: string): (Prop) -> bool {
    p => KeyIsNot(k, p)
  }

  /** `const { [k]: _, ...rest } = o`: the other properties, in order. */
  function Remove(o: Obj, k: string): (r: Obj)
    ensures forall i :: 0 <= i < |r| ==> r[i].key != k
  {
    Filter(o, Other(k))
  }

  /** The property is gone, and every other property is kept with its value, as often as it was there. */
  lemma RemoveDrops(o: Obj, k: string, p: Prop)
    ensures k !in Keys(Remove(o, k))
    ensures multiset(Remove(o, k))[p] == if p.key == k then 0 else multiset(o)[p]
  {
    FilterOccurrences(o, Other(k), p);
  }

  /** Reading a property of two objects put together: the first holder wins. */
  lemma {:induction false} GetAppend(a: Obj, b: Obj, key: string)
    ensures Get(a + b, key) == if Get(a, key).Some? then Get(a, key) else Get(b, key)
  {
    if a != [] {
      assert (a + b)[1..] == a[1..] + b;
      GetAppend(a[1..], b, key);
    } else {
      assert a + b == b;
    }
  }

  /** Removing a property leaves how every other one reads. */
  lemma {:induction false} RemoveKeeps(o: Obj, k: string, other: string)
    requires other != k
    ensures Get(Remove(o, k), other) == Get(o, other)
  {
    if o != [] {
      RemoveKeeps(o[1..], k, other);
      assert o == [o[0]] + o[1..];
      FilterAppend([o[0]], o[1..], Other(k));
      GetAppend(Filter([o[0]], Other(k)), Filter(o[1..], Other(k)), other);
      assert Filter([o[0]], Other(k)) == if o[0].key != k then [o[0]] else [] by {
        FilterSnoc([], o[0], Other(k));
        assert [] + [o[0]] == [o[0]];
      }
    }
  }

  // ---------------------------------------------------------------------------
  // SQL text

  /** How often the character occurs in the text. */
  function Count(s: string, c: char): nat {
    if s == [] then 0 else Count(s[..|s| - 1], c) + (if s[|s| - 1] == c then 1 else 0)
  }

  lemma {:induction false} CountAppend(a: string, b: string, c: char)
    ensures Count(a + b, c) == Count(a, c) + Count(b, c)
    decreases |b|
  {
    if b != [] {
      assert (a + b)[..|a + b| - 1] == a + b[..|b| - 1];
      CountAppend(a, b[..|b| - 1], c);
    } else {
      assert a + b == a;
    }
  }

  lemma {:induction false} CountAbsent(s: string, c: char)
    requires c !in s
    ensures Count(s, c) == 0
  {
    if s != [] {
      assert c !in s[..|s| - 1];
      CountAbsent(s[..|s| - 1], c);
    }
  }

  /** `parts.join(sep)`. */
  function Join(parts: seq<string>, sep: string): string {
    if |parts| == 0 then ""
    else if |parts| == 1 then parts[0]
    else Join(parts[..|parts| - 1], sep) + sep + parts[|parts| - 1]
  }

  /** The occurrences of the character over all the parts. */
  function CountAll(parts: seq<string>, c: char): nat {
    if parts == [] then 0 else CountAll(parts[..|parts| - 1], c) + Count(parts[|parts| - 1], c)
  }

  /** Joining with a separator that does not hold the character adds none. */
  lemma {:induction false} CountJoin(parts: seq<string>, sep: string, c: char)
    requires c !in sep
    ensures Count(Join(parts, sep), c) == CountAll(parts, c)
    decreases |parts|
  {
    if |parts| == 1 {
      assert parts[..0] == [];
    } else if |parts| > 1 {
      var front := parts[..|parts| - 1];
      CountJoin(front, sep, c);
      CountAppend(Join(front, sep), sep, c);
      CountAppend(Join(front, sep) + sep, parts[|parts| - 1], c);
      CountAbsent(sep, c);
    }
  }

  /** `keys.map(() => '?')`. */
  function Marks(n: nat): (ms: seq<string>)
    ensures |ms| == n && forall i :: 0 <= i < n ==> ms[i] == "?"
  {
    seq(n, i => "?")
  }

  lemma {:induction false} CountMarks(n: nat)
    ensures CountAll(Marks(n), '?') == n
  {
    if n > 0 {
      CountMarks(n - 1);
      assert Marks(n)[..n - 1] == Marks(n - 1);
    }
  }

  /** `keys.map(key => `${key} = ?`)`. */
  function Assignments(keys: seq<string>): (as_: seq<string>)
    ensures |as_| == |keys| && forall i :: 0 <= i < |keys| ==> as_[i] == keys[i] + " = ?"
  {
    seq(|keys|, i requires 0 <= i < |keys| => keys[i] + " = ?")
  }

  /** A table or column name that holds no placeholder mark. */
  predicate Plain(name: string) {
    '?' !in name
  }

  /** One mark per assignment, when no name holds a mark. */
  lemma {:induction false} CountAssignments(keys: seq<string>)
    requires forall i :: 0 <= i < |keys| ==> Plain(keys[i])
    ensures CountAll(Assignments(keys), '?') == |keys|
    decreases |keys|
  {
    if keys != [] {
      var k := keys[|keys| - 1];
      CountAssignments(keys[..|keys| - 1]);
      assert Assignments(keys)[..|keys| - 1] == Assignments(keys[..|keys| - 1]);
      CountAbsent(k, '?');
      CountAppend(k, " = ", '?');
      CountAbsent(" = ", '?');
      CountAppend(k + " = ", "?", '?');
      assert k + " = ?" == (k + " = ") + "?";
    }
  }

  /** The names, when none holds a mark, give a list without marks. */
  lemma {:induction false} CountPlain(names: seq<string>)
    requires forall i :: 0 <= i < |names| ==> Plain(names[i])
    ensures CountAll(names, '?') == 0
  {
    if names != [] {
      CountPlain(names[..|names| - 1]);
      CountAbsent(names[|names| - 1], '?');
    }
  }

  /** A statement and the values bound to its marks, in order. */
  datatype Statement = Statement(sql: string, values: seq<Json>)

  /** Every mark of the statement has a value, and every value a mark. */
  predicate FullyBound(st: Statement) {
    Count(st.sql, '?') == |st.values|
  }

  /** `insert`: the columns in key order, one mark per column, the values in the same order. */
  function InsertStatement(table: string, data: Obj): Statement {
    Statement("INSERT OR REPLACE INTO " + table + " (" + Join(Keys(data), ", ") + ") VALUES (" + Join(Marks(|data|), ", ") + ")", Values(data))
  }

  /** The insert binds each column's value to that column's mark. */
  lemma InsertBindsEachColumn(table: string, data: Obj)
    requires Plain(table) && forall i :: 0 <= i < |data| ==> Plain(data[i].key)
    ensures FullyBound(InsertStatement(table, data))
    ensures Count(InsertStatement(table, data).sql, '?') == |data|
    ensures forall i :: 0 <= i < |data| ==> InsertStatement(table, data).values[i] == data[i].val
  {
    var cols := Join(Keys(data), ", ");
    var marks := Join(Marks(|data|), ", ");
    CountJoin(Keys(data), ", ", '?');
    CountPlain(Keys(data));
    CountJoin(Marks(|data|), ", ", '?');
    CountMarks(|data|);
    CountAbsent(table, '?');
    CountSum5("INSERT OR REPLACE INTO ", table, " (", cols, ") VALUES (", marks, ")");
  }

  /** The marks of a text built from seven pieces, five of which hold none. */
  lemma CountSum5(a: string, table: string, b: string, cols: string, c: string, marks: string, d: string)
    requires Plain(a) && Plain(b) && Plain(c) && Plain(d)
    ensures Count(a + table + b + cols + c + marks + d, '?') == Count(table, '?') + Count(cols, '?') + Count(marks, '?')
  {
    CountAbsent(a, '?');
    CountAbsent(b, '?');
    CountAbsent(c, '?');
    CountAbsent(d, '?');
    CountAppend(a, table, '?');
    CountAppend(a + table, b, '?');
    CountAppend(a + table + b, cols, '?');
    CountAppend(a + table + b + cols, c, '?');
    CountAppend(a + table + b + cols + c, marks, '?');
    CountAppend(a + table + b + cols + c + marks, d, '?');
  }

  /** `update`: one `key = ?` per data key; the data values, then the where values. */
  function UpdateStatement(table: string, data: Obj, whereClause: string, whereValues: seq<Json>): Statement {
    Statement("UPDATE " + table + " SET " + Join(Assignments(Keys(data)), ", ") + " WHERE " + whereClause, Values(data) + whereValues)
  }

  /** The set clause has one mark per data key, so the update is fully bound exactly when its where clause is. */
  lemma UpdateBindsEachKey(table: string, data: Obj, whereClause: string, whereValues: seq<Json>)
    requires Plain(table) && forall i :: 0 <= i < |data| ==> Plain(data[i].key)
    ensures Count(UpdateStatement(table, data, whereClause, whereValues).sql, '?') == |data| + Count(whereClause, '?')
    ensures FullyBound(UpdateStatement(table, data, whereClause, whereValues)) <==> Count(whereClause, '?') == |whereValues|
    ensures forall i :: 0 <= i < |data| ==> UpdateStatement(table, data, whereClause, whereValues).values[i] == data[i].val
    ensures UpdateStatement(table, data, whereClause, whereValues).values[|data|..] == whereValues
  {
    var set_ := Join(Assignments(Keys(data)), ", ");
    CountJoin(Assignments(Keys(data)), ", ", '?');
    CountAssignments(Keys(data));
    CountAbsent(table, '?');
    CountSum5("UPDATE ", table, " SET ", set_, " WHERE ", whereClause, "");
    assert "UPDATE " + table + " SET " + set_ + " WHERE " + whereClause + "" == "UPDATE " + table + " SET " + set_ + " WHERE " + whereClause;
  }

  /** `delete`: the where values, and nothing else, are bound. */
  function DeleteStatement(table: string, whereClause: string, whereValues: seq<Json>): Statement {
    Statement("DELETE FROM " + table + " WHERE " + whereClause, whereValues)
  }

  lemma DeleteBindsWhere(table: string, whereClause: string, whereValues: seq<Json>)
    requires Plain(table)
    ensures DeleteStatement(table, whereClause, whereValues).values == whereValues
    ensures Count(DeleteStatement(table, whereClause, whereValues).sql, '?') == Count(whereClause, '?')
  {
    CountAbsent(table, '?');
    CountSum5("DELETE FROM ", table, " WHERE ", whereClause, "", "", "");
    assert "DELETE FROM " + table + " WHERE " + whereClause + "" + "" + "" == "DELETE FROM " + table + " WHERE " + whereClause;
  }

  /** A condition on columns: `col = ?` for each, joined by AND. */
  function Condition(cols: seq<string>): string {
    Join(Assignments(cols), " AND ")
  }

  /** A condition on one column is `col = ?`, as `id = ?` and `user_id = ?` are written out. */
  lemma ConditionOne(col: string)
    ensures Condition([col]) == col + " = ?"
  {
  }

  /** A condition on two columns, as `user_id = ? AND mes_referencia = ?` is written out. */
  lemma ConditionTwo(first: string, second: string)
    ensures Condition([first, second]) == first + " = ?" + " AND " + second + " = ?"
  {
    var as_ := Assignments([first, second]);
    assert as_[..1] == [first + " = ?"];
    assert Join(as_[..1], " AND ") == first + " = ?";
    assert Join(as_, " AND ") == (first + " = ?") + " AND " + (second + " = ?");
  }

  /** A condition has one mark per column, the i-th mark in the i-th column's `col = ?`. */
  lemma ConditionMarks(cols: seq<string>)
    requires forall i :: 0 <= i < |cols| ==> Plain(cols[i])
    ensures Count(Condition(cols), '?') == |cols|
  {
    CountJoin(Assignments(cols), " AND ", '?');
    CountAssignments(cols);
  }

  /** `SELECT * FROM table WHERE ...` on the columns, their values bound in column order. */
  function Select(table: string, cols: seq<string>, values: seq<Json>): Statement {
    Statement("SELECT * FROM " + table + " WHERE " + Condition(cols), values)
  }

  lemma SelectBinds(table: string, cols: seq<string>, values: seq<Json>)
    requires Plain(table) && forall i :: 0 <= i < |cols| ==> Plain(cols[i])
    ensures Count(Select(table, cols, values).sql, '?') == |cols|
    ensures FullyBound(Select(table, cols, values)) <==> |values| == |cols|
  {
    ConditionMarks(cols);
    CountAbsent(table, '?');
    CountSum5("SELECT * FROM ", table, " WHERE ", Condition(cols), "", "", "");
    assert "SELECT * FROM " + table + " WHERE " + Condition(cols) + "" + "" + "" == "SELECT * FROM " + table + " WHERE " + Condition(cols);
  }

  /** `getAll`: the user's rows. */
  function GetAllStatement(table: string, userId: string): Statement {
    Select(table, ["user_id"], [JString(userId)])
  }

  /** `getByMonth`: the user id for the first mark, the month for the second. */
  function GetByMonthStatement(table: string, userId: string, mesReferencia: string): Statement {
    Select(table, ["user_id", "mes_referencia"], [JString(userId), JString(mesReferencia)])
  }

  /** `getUnsynced`: no mark, no value. */
  function GetUnsyncedStatement(table: string): Statement {
    Statement("SELECT * FROM " + table + " WHERE synced = 0", [])
  }

  /** `markAsSynced`: the id for the one mark. */
  function MarkAsSyncedStatement(table: string, id: Json): Statement {
    Statement("UPDATE " + table + " SET synced = 1 WHERE " + Condition(["id"]), [id])
  }

  /** `clearTable`. */
  function ClearTableStatement(table: string, userId: string): Statement {
    DeleteStatement(table, Condition(["user_id"]), [JString(userId)])
  }

  /** The marks of `a + table + b + rest` are those of the table and the rest, when `a` and `b` hold none. */
  lemma CountAround(a: string, table: string, b: string, rest: string)
    requires Plain(a) && Plain(b)
    ensures Count(a + table + b + rest, '?') == Count(table, '?') + Count(rest, '?')
  {
    CountAbsent(a, '?');
    CountAbsent(b, '?');
    CountAppend(a, table, '?');
    CountAppend(a + table, b, '?');
    CountAppend(a + table + b, rest, '?');
  }

  /** `getAll` binds the user id to its one mark. */
  lemma GetAllBound(table: string, userId: string)
    requires Plain(table)
    ensures FullyBound(GetAllStatement(table, userId)) && GetAllStatement(table, userId).values == [JString(userId)]
  {
    SelectBinds(table, ["user_id"], [JString(userId)]);
  }

  /** `getByMonth` binds the user id to the first mark and the month to the second. */
  lemma GetByMonthBound(table: string, userId: string, mesReferencia: string)
    requires Plain(table)
    ensures FullyBound(GetByMonthStatement(table, userId, mesReferencia))
    ensures GetByMonthStatement(table, userId, mesReferencia).values == [JString(userId), JString(mesReferencia)]
  {
    SelectBinds(table, ["user_id", "mes_referencia"], [JString(userId), JString(mesReferencia)]);
  }

  /** `getUnsynced` has no mark and binds nothing. */
  lemma GetUnsyncedBound(table: string)
    requires Plain(table)
    ensures FullyBound(GetUnsyncedStatement(table))
  {
    assert Plain("SELECT * FROM ") && Plain(" WHERE synced = 0");
    CountAround("SELECT * FROM ", table, " WHERE synced = 0", "");
    CountAbsent(table, '?');
    assert "SELECT * FROM " + table + " WHERE synced = 0" + "" == "SELECT * FROM " + table + " WHERE synced = 0";
  }

  /** `markAsSynced` binds the id to its one mark. */
  lemma MarkAsSyncedBound(table: string, id: Json)
    requires Plain(table)
    ensures FullyBound(MarkAsSyncedStatement(table, id)) && MarkAsSyncedStatement(table, id).values == [id]
  {
    ConditionMarks(["id"]);
    assert Plain("UPDATE ") && Plain(" SET synced = 1 WHERE ");
    CountAround("UPDATE ", table, " SET synced = 1 WHERE ", Condition(["id"]));
    CountAbsent(table, '?');
  }

  /** `clearTable` binds the user id to its one mark. */
  lemma ClearTableBound(table: string, userId: string)
    requires Plain(table)
    ensures FullyBound(ClearTableStatement(table, userId)) && ClearTableStatement(table, userId).values == [JString(userId)]
  {
    ConditionMarks(["user_id"]);
    DeleteBindsWhere(table, Condition(["user_id"]), [JString(userId)]);
  }

  // ---------------------------------------------------------------------------
  // The service

  class SQLiteService {
    /** Is the app running on a native platform? */
    const isNative: bool
    /** Is a connection object held (`db !== null`)? */
    var handle: bool
    /** Does the held connection accept statements? */
    var open: bool
    /** The statements run on the database, in order. */
    var executed: seq<Statement>

    ghost predicate Valid()
      reads this
    {
      (handle ==> isNative) && (open ==> handle)
    }

    constructor (native: bool)
      ensures Valid() && isNative == native && !handle && !open && executed == []
    {
      isNative := native;
      handle := false;
      open := false;
      executed := [];
    }

    /** `isAvailable`: native, with a connection held. */
    predicate IsAvailable()
      reads this
    {
      isNative && handle
    }

    /**
     * `initialize`: nothing on the web. Otherwise `connects` says whether a connection
     * was retrieved or created and `opens` whether it then opened and took the tables;
     * a connection that fails to open is still held.
     */
    method Initialize(connects: bool, opens: bool) returns (ok: bool)
      requires Valid()
      modifies this
      ensures Valid() && executed == old(executed)
      ensures ok <==> isNative && connects && opens
      ensures !isNative || !connects ==> handle == old(handle) && open == old(open)
      ensures isNative && connects ==> handle && open == opens
    {
      if !isNative {
        return false;
      }
      if !connects {
        return false;
      }
      handle := true;
      open := opens;
      ok := opens;
    }

    /** `query`: no rows without a connection or when the statement fails; otherwise the engine's rows. */
    method Query(st: Statement, answer: seq<Obj>) returns (rows: seq<Obj>)
      requires Valid()
      ensures rows == if IsAvailable() && open then answer else []
    {
      if !handle || !isNative {
        return [];
      }
      if !open {
        return [];
      }
      rows := answer;
    }

    /** `run`: false without a connection or when the statement fails; otherwise it is run. */
    method Run(st: Statement) returns (ok: bool)
      requires Valid()
      modifies this
      ensures Valid() && handle == old(handle) && open == old(open)
      ensures ok <==> IsAvailable() && open
      ensures executed == old(executed) + (if ok then [st] else [])
    {
      if !handle || !isNative {
        return false;
      }
      if !open {
        return false;
      }
      executed := executed + [st];
      ok := true;
    }

    method Insert(table: string, data: Obj) returns (ok: bool)
      requires Valid()
      modifies this
      ensures Valid() && handle == old(handle) && open == old(open)
      ensures ok <==> IsAvailable() && open
      ensures executed == old(executed) + (if ok then [InsertStatement(table, data)] else [])
    {
      ok := Run(InsertStatement(table, data));
    }

    method Update(table: string, data: Obj, whereClause: string, whereValues: seq<Json>) returns (ok: bool)
      requires Valid()
      modifies this
      ensures Valid() && handle == old(handle) && open == old(open)
      ensures ok <==> IsAvailable() && open
      ensures executed == old(executed) + (if ok then [UpdateStatement(table, data, whereClause, whereValues)] else [])
    {
      ok := Run(UpdateStatement(table, data, whereClause, whereValues));
    }

    method Delete(table: string, whereClause: string, whereValues: seq<Json>) returns (ok: bool)
      requires Valid()
      modifies this
      ensures Valid() && handle == old(handle) && open == old(open)
      ensures ok <==> IsAvailable() && open
      ensures executed == old(executed) + (if ok then [DeleteStatement(table, whereClause, whereValues)] else [])
    {
      ok := Run(DeleteStatement(table, whereClause, whereValues));
    }

    method GetAll(table: string, userId: string, answer: seq<Obj>) returns (rows: seq<Obj>)
      requires Valid()
      ensures rows == if IsAvailable() && open then answer else []
    {
      rows := Query(GetAllStatement(table, userId), answer);
    }

    method GetByMonth(table: string, userId: string, mesReferencia: string, answer: seq<Obj>) returns (rows: seq<Obj>)
      requires Valid()
      ensures rows == if IsAvailable() && open then answer else []
    {
      rows := Query(GetByMonthStatement(table, userId, mesReferencia), answer);
    }

    method GetUnsynced(table: string, answer: seq<Obj>) returns (rows: seq<Obj>)
      requires Valid()
      ensures rows == if IsAvailable() && open then answer else []
    {
      rows := Query(GetUnsyncedStatement(table), answer);
    }

    method MarkAsSynced(table: string, id: Json) returns (ok: bool)
      requires Valid()
      modifies this
      ensures Valid() && handle == old(handle) && open == old(open)
      ensures ok <==> IsAvailable() && open
      ensures executed == old(executed) + (if ok then [MarkAsSyncedStatement(table, id)] else [])
    {
      ok := Run(MarkAsSyncedStatement(table, id));
    }

    method ClearTable(table: string, userId: string) returns (ok: bool)
      requires Valid()
      modifies this
      ensures Valid() && handle == old(handle) && open == old(open)
      ensures ok <==> IsAvailable() && open
      ensures executed == old(executed) + (if ok then [ClearTableStatement(table, userId)] else [])
    {
      ok := Run(ClearTableStatement(table, userId));
    }

    /** `close`: the connection is dropped, and the service is no longer available. */
    method Close()
      requires Valid()
      modifies this
      ensures Valid() && !handle && !open && !IsAvailable() && executed == old(executed)
    {
      if handle {
        handle := false;
        open := false;
      }
    }
  }
}
