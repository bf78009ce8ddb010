/**
 * The database the admin routes talk to, seen from the routes: a table of rows
 * that can be inserted into and selected from, and the append-only audit log.
 *
 * What the database itself decides (a NOT NULL or type violation, an unknown
 * column, a lost connection, the id it generates, the column defaults and
 * timestamps it fills in, the coercion of values to the column types) is not
 * visible in the routes' source, so each table carries it as a function of
 * its rows (`TableRules`), and every property proved here holds for every
 * choice of these functions. Two things are fixed: the primary key on `id`,
 * which the routes depend on, and an `id` the row was sent with, which is
 * stored as it was sent.
 */
module Store {
  import opened Wrappers
  import opened Json
  import opened Text
  import opened Sorting

  /** The signed-in administrator of a request (`session.user`). */
  datatype AdminUser = AdminUser(id: string)

  /** `audit_log.action`. */
  datatype AuditAction = Create | Update | Delete

  /** A row of `audit_log`; `created_at` and the row's own id are filled in by
      the database and are not modelled. */
  datatype AuditEntry = AuditEntry(
    adminUserId: string,
    tableName: string,
    recordId: Value,
    action: AuditAction,
    oldData: Option<Record>,
    newData: Option<Record>)

  /** The database's own behaviour for one table. */
  datatype TableRules = TableRules(
    name: string,
    /** The error, if any, the database reports for inserting a row that does
        not collide with an existing primary key. */
    rejectInsert: (seq<Record>, Record) -> Option<string>,
    /** The id the database generates for a row inserted without one. */
    defaultId: seq<Record> -> Value,
    /** The row the database stores for the row as sent, apart from its id:
        column defaults, generated timestamps and values coerced to the
        column types. */
    fill: (seq<Record>, Record) -> Record,
    /** The error, if any, the database reports for a query. */
    rejectSelect: seq<Record> -> Option<string>)

  function PrimaryKeyMessage(table: string): string {
    "duplicate key value violates unique constraint \"" + table + "_pkey\""
  }

  predicate HasId(rows: seq<Record>, id: Value) {
    exists k :: 0 <= k < |rows| && Column(rows[k], "id") == id
  }

  /** The id a row is stored under: the one it was sent with, or the one the
      database generates. */
  function StoredId(rules: TableRules, rows: seq<Record>, row: Record): Value {
    if "id" in row then row["id"] else rules.defaultId(rows)
  }

  /** The row as stored: what the database makes of the row, under its id. */
  function Stored(rules: TableRules, rows: seq<Record>, row: Record): Record {
    rules.fill(rows, row)["id" := StoredId(rules, rows, row)]
  }

  /** `.insert(row).select().single()`: the stored row, or the database's error.
      A row whose id is already taken is always refused with the primary-key
      message; a row that is accepted is stored under a fresh id, the one it
      was sent with if it had one. */
  function InsertOutcome(rules: TableRules, rows: seq<Record>, row: Record): (r: Result<Record, string>)
    ensures HasId(rows, StoredId(rules, rows, row)) ==> r == Err(PrimaryKeyMessage(rules.name))
    ensures r.Ok? ==> r.value == Stored(rules, rows, row) && !HasId(rows, Column(r.value, "id"))
    ensures r.Ok? ==> Column(r.value, "id") == StoredId(rules, rows, row)
    ensures r.Ok? && "id" in row ==> Column(r.value, "id") == row["id"]
  {
    var stored := Stored(rules, rows, row);
    if HasId(rows, Column(stored, "id")) then Err(PrimaryKeyMessage(rules.name))
    else match rules.rejectInsert(rows, stored)
      case Some(message) => Err(message)
      case None => Ok(stored)
  }

  /** `.select('id').in('id', ids)` reduced to the set of ids it returns; `None`
      when the query fails. */
  function IdsIn(rules: TableRules, rows: seq<Record>, ids: seq<Value>): (r: Option<set<Value>>)
    ensures r.Some? ==> forall v :: v in r.value <==> v in ids && HasId(rows, v)
    ensures r.None? <==> rules.rejectSelect(rows).Some?
  {
    if rules.rejectSelect(rows).Some? then None
    else
      var found := set k | 0 <= k < |rows| && Column(rows[k], "id") in ids :: Column(rows[k], "id");
      assert forall v :: v in ids && HasId(rows, v) ==> v in found by {
        forall v | v in ids && HasId(rows, v) ensures v in found {
          var k :| 0 <= k < |rows| && Column(rows[k], "id") == v;
        }
      }
      Some(found)
  }

  /** One table of the database. */
  class Table {
    const rules: TableRules
    var rows: seq<Record>

    constructor (rules: TableRules, rows: seq<Record>)
      ensures this.rules == rules && this.rows == rows
    {
      this.rules := rules;
      this.rows := rows;
    }

    /** Insert a row; on success the stored row is appended, on failure the
        table is unchanged. */
    method Insert(row: Record) returns (r: Result<Record, string>)
      modifies this
      ensures r == InsertOutcome(rules, old(rows), row)
      ensures rows == if r.Ok? then old(rows) + [r.value] else old(rows)
    {
      r := InsertOutcome(rules, rows, row);
      if r.Ok? {
        rows := rows + [r.value];
      }
    }

    /** `.select('*').order(...)`: every row exactly once, ascending by `le`,
        or the database's error. */
    method SelectOrdered(le: (Record, Record) -> bool) returns (r: Result<seq<Record>, string>)
      requires TotalPreorder(le)
      ensures r.Err? <==> rules.rejectSelect(rows).Some?
      ensures r.Err? ==> r.error == rules.rejectSelect(rows).value
      ensures r.Ok? ==> multiset(r.value) == multiset(rows) && SortedBy(r.value, le)
    {
      match rules.rejectSelect(rows)
      case Some(message) =>
        r := Err(message);
      case None =>
        SortByPermutation(rows, le);
        SortBySorted(rows, le);
        r := Ok(SortBy(rows, le));
    }
  }

  /** The audit log table. Its inserts are awaited but their result is never
      inspected by the routes, so the log is modelled as always accepting. */
  class AuditLog {
    var entries: seq<AuditEntry>

    constructor (entries: seq<AuditEntry>)
      ensures this.entries == entries
    {
      this.entries := entries;
    }

    method Append(e: AuditEntry)
      modifies this
      ensures entries == old(entries) + [e]
    {
      entries := entries + [e];
    }
  }

  /** The rank of a value under `ORDER BY ... ASC`: numbers, then text, then
      NULL (PostgreSQL puts NULLs last in ascending order). */
  function Rank(v: Value): nat {
    if v.Num? then 0 else if v.Str? then 1 else 2
  }

  /** `ORDER BY column ASC` on one column value. */
  predicate ValueLe(a: Value, b: Value) {
    if Rank(a) != Rank(b) then Rank(a) < Rank(b)
    else if a.Num? then a.n <= b.n
    else if a.Str? then StringLe(a.s, b.s)
    else true
  }

  lemma ValueLeTotal(a: Value, b: Value)
    ensures ValueLe(a, b) || ValueLe(b, a)
  {
    if a.Str? && b.Str? {
      StringLeTotal(a.s, b.s);
    }
  }

  lemma ValueLeTransitive(a: Value, b: Value, c: Value)
    requires ValueLe(a, b) && ValueLe(b, c)
    ensures ValueLe(a, c)
  {
    if a.Str? && b.Str? && c.Str? {
      StringLeTransitive(a.s, b.s, c.s);
    }
  }

  /** `.order('display_order', { ascending: true })`. */
  predicate ByDisplayOrder(a: Record, b: Record) {
    ValueLe(Column(a, "display_order"), Column(b, "display_order"))
  }

  /** `.order('category', { ascending: true }).order('display_order', { ascending: true })`. */
  predicate ByCategoryThenDisplayOrder(a: Record, b: Record) {
    var ca, cb := Column(a, "category"), Column(b, "category");
    if ValueLe(ca, cb) && ValueLe(cb, ca) then ByDisplayOrder(a, b) else ValueLe(ca, cb)
  }

  lemma {:induction false} ByDisplayOrderIsTotalPreorder()
    ensures TotalPreorder(ByDisplayOrder)
  {
    forall a, b ensures ByDisplayOrder(a, b) || ByDisplayOrder(b, a) {
      ValueLeTotal(Column(a, "display_order"), Column(b, "display_order"));
    }
    forall a, b, c | ByDisplayOrder(a, b) && ByDisplayOrder(b, c) ensures ByDisplayOrder(a, c) {
      ValueLeTransitive(Column(a, "display_order"), Column(b, "display_order"), Column(c, "display_order"));
    }
  }

  lemma {:induction false} ByCategoryThenDisplayOrderIsTotalPreorder()
    ensures TotalPreorder(ByCategoryThenDisplayOrder)
  {
    ByDisplayOrderIsTotalPreorder();
    forall a, b ensures ByCategoryThenDisplayOrder(a, b) || ByCategoryThenDisplayOrder(b, a) {
      ValueLeTotal(Column(a, "category"), Column(b, "category"));
    }
    forall a, b, c | ByCategoryThenDisplayOrder(a, b) && ByCategoryThenDisplayOrder(b, c)
      ensures ByCategoryThenDisplayOrder(a, c)
    {
      var ca, cb, cc := Column(a, "category"), Column(b, "category"), Column(c, "category");
      ValueLeTotal(ca, cb);
      ValueLeTotal(cb, cc);
      ValueLeTotal(ca, cc);
      forall x, y, z | x in {ca, cb, cc} && y in {ca, cb, cc} && z in {ca, cb, cc} && ValueLe(x, y) && ValueLe(y, z)
        ensures ValueLe(x, z)
      {
        ValueLeTransitive(x, y, z);
      }
    }
  }

  /** Rows ordered by category then display order are grouped by category: the
      categories alone are ascending, and display orders ascend within a
      category. */
  lemma CategoryThenDisplayOrderSorted(s: seq<Record>)
    requires SortedBy(s, ByCategoryThenDisplayOrder)
    ensures forall i, j :: 0 <= i < j < |s| ==> ValueLe(Column(s[i], "category"), Column(s[j], "category"))
    ensures forall i, j :: 0 <= i < j < |s| && Column(s[i], "category") == Column(s[j], "category") ==>
              ByDisplayOrder(s[i], s[j])
  {
    forall i, j | 0 <= i < j < |s| && Column(s[i], "category") == Column(s[j], "category")
      ensures ByDisplayOrder(s[i], s[j])
    {
      assert ByCategoryThenDisplayOrder(s[i], s[j]);
      ValueLeTotal(Column(s[i], "category"), Column(s[j], "category"));
    }
  }
}
