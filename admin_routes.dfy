/**
 * `GET` and `POST` of `/api/admin/certifications`, `/api/admin/experience`
 * and `/api/admin/skills`: list a table in display order, and create one row
 * from the request body after checking its required fields, with a CREATE row
 * in the audit log.
 */
module AdminRoutes {
  import opened Wrappers
  import opened Json
  import opened Lists
  import opened Sorting
  import opened Store
  import opened ImportCommon

  datatype Resource = Certifications | Experience | Skills

  /** The table the route reads and writes, also the `table_name` of its audit rows. */
  function TableName(r: Resource): string {
    match r
    case Certifications => "certifications"
    case Experience => "experience"
    case Skills => "skills"
  }

  /** `requiredFields` of the POST handler, in the order they are checked. */
  function RequiredFields(r: Resource): seq<string> {
    match r
    case Certifications => ["name", "issuer", "issue_date"]
    case Experience => ["company", "position", "start_date", "technologies"]
    case Skills => ["category", "skill_name"]
  }

  /** The `.order(...)` calls of the GET handler. */
  function Ordering(r: Resource): (Record, Record) -> bool {
    if r == Skills then ByCategoryThenDisplayOrder else ByDisplayOrder
  }

  lemma OrderingIsTotalPreorder(r: Resource)
    ensures TotalPreorder(Ordering(r))
  {
    ByDisplayOrderIsTotalPreorder();
    ByCategoryThenDisplayOrderIsTotalPreorder();
  }

  /** What a handler answers. */
  datatype RouteResponse =
    | Unauthorized
    | Failure(status: nat, message: string)
    | Listed(rows: seq<Record>)
    | Created(row: Record)

  function Status(resp: RouteResponse): nat {
    match resp
    case Unauthorized => 401
    case Failure(status, _) => status
    case Listed(_) => 200
    case Created(_) => 201
  }

  const InternalError := "Internal server error"

  /** The JSON each answer carries: `{ error }` for a refusal, the rows of a
      listing, the created row. */
  function ResponseBody(resp: RouteResponse): (v: Value)
    ensures resp.Unauthorized? ==> v.Obj? && Get(v, "error") == Str("Unauthorized")
    ensures resp.Failure? ==> v.Obj? && Get(v, "error") == Str(resp.message)
    ensures resp.Created? ==> v == Obj(resp.row)
    ensures resp.Listed? ==> v.Arr? && |v.items| == |resp.rows|
  {
    match resp
    case Unauthorized => Obj(map["error" := Str("Unauthorized")])
    case Failure(_, message) => Obj(map["error" := Str(message)])
    case Listed(rows) => Arr(seq(|rows|, i requires 0 <= i < |rows| => Obj(rows[i])))
    case Created(row) => Obj(row)
  }

  /** The field the loop `for (const field of requiredFields)` stops at: the
      first one whose value in `body` is falsy. */
  function FirstMissing(required: seq<string>, body: Value): (r: Option<string>)
    ensures r.None? <==> forall i :: 0 <= i < |required| ==> Truthy(Get(body, required[i]))
    ensures r.Some? ==> exists i :: 0 <= i < |required| && required[i] == r.value && !Truthy(Get(body, r.value))
                          && forall j :: 0 <= j < i ==> Truthy(Get(body, required[j]))
  {
    if required == [] then None
    else if !Truthy(Get(body, required[0])) then Some(required[0])
    else
      FirstMissing(required[1..], body)
  }

  /** The single-create check reports the first field the bulk import's
      `filter` would list. */
  lemma {:induction false} FirstMissingIsFirstOfMissing(required: seq<string>, body: Value)
    ensures var all := Missing(required, f => Get(body, f));
      FirstMissing(required, body) == if all == [] then None else Some(all[0])
    decreases |required|
  {
    if required != [] {
      FirstMissingIsFirstOfMissing(required[1..], body);
      assert Missing(required, f => Get(body, f)) == Keep(required, f => !Truthy((f => Get(body, f))(f)));
      assert required == [required[0]] + required[1..];
      MissingInOrder([required[0]], required[1..], f => Get(body, f));
    }
  }

  /** A body that passes a non-empty required-field check is a JSON object. */
  lemma PassedCheckIsObject(required: seq<string>, body: Value)
    requires required != [] && FirstMissing(required, body).None?
    ensures body.Obj?
  {
    assert Truthy(Get(body, required[0]));
  }

  /** The loop over the required fields. */
  method CheckRequired(required: seq<string>, body: Value) returns (missing: Option<string>)
    ensures missing == FirstMissing(required, body)
  {
    var i := 0;
    while i < |required|
      invariant 0 <= i <= |required|
      invariant FirstMissing(required, body) == FirstMissing(required[i..], body)
    {
      assert required[i..][1..] == required[i + 1..];
      if !Truthy(Get(body, required[i])) {
        return Some(required[i]);
      }
      i := i + 1;
    }
    assert required[i..] == [];
    missing := None;
  }

  /** The GET handler: every row of the table, in the route's order, or the
      database's error message with 500. */
  method HandleGet(resource: Resource, session: Option<AdminUser>, table: Table) returns (resp: RouteResponse)
    ensures session.None? ==> resp == Unauthorized
    ensures session.Some? && table.rules.rejectSelect(table.rows).Some? ==>
      resp == Failure(500, table.rules.rejectSelect(table.rows).value)
    ensures session.Some? && table.rules.rejectSelect(table.rows).None? ==>
      resp.Listed? && multiset(resp.rows) == multiset(table.rows) && SortedBy(resp.rows, Ordering(resource))
  {
    if session.None? {
      return Unauthorized;
    }
    OrderingIsTotalPreorder(resource);
    var r := table.SelectOrdered(Ordering(resource));
    match r {
      case Err(message) =>
        resp := Failure(500, message);
      case Ok(rows) =>
        resp := Listed(rows);
    }
  }

  /** The object handed to `.insert(body)`. */
  function RowOf(body: Value): Record {
    if body.Obj? then body.fields else map[]
  }

  /** The POST handler. `body` is `None` when `request.json()` throws; a
      `null` body throws at the first field read; both answer 500. */
  method HandlePost(resource: Resource, session: Option<AdminUser>, body: Option<Value>, table: Table, log: AuditLog)
    returns (resp: RouteResponse)
    requires table.rules.name == TableName(resource)
    modifies table, log
    ensures session.None? ==> resp == Unauthorized
    ensures session.Some? && (body.None? || Nullish(body.value)) ==> resp == Failure(500, InternalError)
    ensures session.Some? && body.Some? && !Nullish(body.value) && FirstMissing(RequiredFields(resource), body.value).Some? ==>
      resp == Failure(400, "Missing required field: " + FirstMissing(RequiredFields(resource), body.value).value)
    ensures session.Some? && body.Some? && !Nullish(body.value) && FirstMissing(RequiredFields(resource), body.value).None? ==>
      match InsertOutcome(table.rules, old(table.rows), RowOf(body.value))
      case Err(message) => resp == Failure(500, message)
      case Ok(stored) =>
        && resp == Created(stored)
        && table.rows == old(table.rows) + [stored]
        && log.entries == old(log.entries) +
             [AuditEntry(session.value.id, TableName(resource), Column(stored, "id"), Create, None, Some(stored))]
    ensures !resp.Created? ==> table.rows == old(table.rows) && log.entries == old(log.entries)
  {
    if session.None? {
      return Unauthorized;
    }
    if body.None? || Nullish(body.value) {
      return Failure(500, InternalError);
    }
    var b := body.value;
    var missing := CheckRequired(RequiredFields(resource), b);
    if missing.Some? {
      return Failure(400, "Missing required field: " + missing.value);
    }
    PassedCheckIsObject(RequiredFields(resource), b);
    var r := table.Insert(b.fields);
    match r {
      case Err(message) =>
        resp := Failure(500, message);
      case Ok(stored) =>
        log.Append(AuditEntry(session.value.id, TableName(resource), Column(stored, "id"), Create, None, Some(stored)));
        resp := Created(stored);
    }
  }

  /** A created row keeps the id it was posted with, so posting the same body
      again is refused by the primary key, whatever else the database filled
      in or coerced. */
  lemma RepostMeetsPrimaryKey(rules: TableRules, rows: seq<Record>, body: Value)
    requires body.Obj? && "id" in body.fields
    requires InsertOutcome(rules, rows, RowOf(body)).Ok?
    ensures var stored := InsertOutcome(rules, rows, RowOf(body)).value;
      && Column(stored, "id") == body.fields["id"]
      && InsertOutcome(rules, rows + [stored], RowOf(body)) == Err(PrimaryKeyMessage(rules.name))
  {
    var stored := InsertOutcome(rules, rows, RowOf(body)).value;
    var after := rows + [stored];
    assert Column(after[|rows|], "id") == body.fields["id"];
  }
}
