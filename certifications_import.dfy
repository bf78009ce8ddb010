/**
 * The certification-specific part of `POST /api/admin/certifications/import`:
 * `normalizeCertification`, the required fields, the per-record checks
 * (required fields, then duplicate id) and the inserted row.
 */
module CertificationsImport {
  import opened Wrappers
  import opened Json
  import opened ImportCommon

  /** The object `normalizeCertification` returns. */
  datatype Certification = Certification(
    id: Value,
    name: Value,
    issuer: Value,
    issueDate: Value,
    expiryDate: Value,
    credentialId: Value,
    credentialUrl: Value,
    description: Value,
    displayOrder: Value)

  function Normalize(raw: Value): Certification {
    Certification(
      id := Get(raw, "id"),
      name := Get(raw, "name"),
      issuer := Get(raw, "issuer"),
      issueDate := Aliased(raw, "issue_date", "issueDate"),
      expiryDate := Aliased(raw, "expiry_date", "expiryDate"),
      credentialId := Aliased(raw, "credential_id", "credentialId"),
      credentialUrl := Aliased(raw, "credential_url", "credentialUrl"),
      description := Get(raw, "description"),
      displayOrder := Or(Aliased(raw, "display_order", "displayOrder"), Num(0.0)))
  }

  /** `cert[field]` for the keys of the normalised object. */
  function Field(c: Certification, field: string): Value {
    match field
    case "id" => c.id
    case "name" => c.name
    case "issuer" => c.issuer
    case "issue_date" => c.issueDate
    case "expiry_date" => c.expiryDate
    case "credential_id" => c.credentialId
    case "credential_url" => c.credentialUrl
    case "description" => c.description
    case "display_order" => c.displayOrder
    case _ => Undefined
  }

  const Required: seq<string> := ["id", "name", "issuer", "issue_date"]

  function MissingOf(c: Certification): seq<string> {
    Missing(Required, f => Field(c, f))
  }

  /** The object passed to `.insert(...)`. */
  function InsertRow(c: Certification): Record {
    map[
      "id" := c.id,
      "name" := c.name,
      "issuer" := c.issuer,
      "issue_date" := c.issueDate,
      "expiry_date" := Or(c.expiryDate, Null),
      "credential_id" := Or(c.credentialId, Null),
      "credential_url" := Or(c.credentialUrl, Null),
      "description" := Or(c.description, Null),
      "display_order" := Or(c.displayOrder, Num(0.0))]
  }

  /** The loop body up to the insert: the required-field check, then the
      duplicate check against `existing`. */
  function Decide(raw: Value, existing: set<Value>, skip: bool): (d: Decision)
    ensures var c := Normalize(raw);
      d.verdict.Insert? <==>
        (forall f :: f in Required ==> Truthy(Field(c, f))) && (c.id in existing ==> !skip)
    ensures d.verdict.Insert? ==> d.verdict.row == InsertRow(Normalize(raw))
    ensures var c := Normalize(raw);
      MissingOf(c) != [] ==> d == Decision(None, Reject(MissingFields(MissingOf(c))))
    ensures var c := Normalize(raw);
      MissingOf(c) == [] ==> d.duplicate == (if c.id in existing then Some(c.id) else None)
    ensures var c := Normalize(raw);
      MissingOf(c) == [] && c.id in existing && skip ==> d.verdict == Reject(AlreadyExists(c.id))
  {
    var c := Normalize(raw);
    NoneMissing(Required, f => Field(c, f));
    var missing := MissingOf(c);
    if missing != [] then Decision(None, Reject(MissingFields(missing)))
    else
      var duplicate := if c.id in existing then Some(c.id) else None;
      if duplicate.Some? && skip then Decision(duplicate, Reject(AlreadyExists(c.id)))
      else Decision(duplicate, Insert(InsertRow(c)))
  }

  /** `issueDate` stands in for a falsy `issue_date` in the required check. */
  lemma IssueDateAlias(raw: Value)
    ensures "issue_date" in MissingOf(Normalize(raw)) <==>
              !Truthy(Get(raw, "issue_date")) && !Truthy(Get(raw, "issueDate"))
  {
    var c := Normalize(raw);
    assert Field(c, "issue_date") == c.issueDate;
    assert "issue_date" in Required;
  }

  /** Each required column of the inserted row holds the normalised field. */
  lemma RequiredColumns(c: Certification)
    ensures forall f :: f in Required ==> f in InsertRow(c) && InsertRow(c)[f] == Field(c, f)
  {
    assert InsertRow(c)["id"] == Field(c, "id");
    assert InsertRow(c)["name"] == Field(c, "name");
    assert InsertRow(c)["issuer"] == Field(c, "issuer");
    assert InsertRow(c)["issue_date"] == Field(c, "issue_date");
  }

  /** A row reaches the insert only after the checks: every required column
      is in it, truthy and equal to the normalised field (`issue_date` read
      from its alias when needed), and an existing id was not to be
      skipped. */
  lemma InsertedRowPassedChecks(raw: Value, existing: set<Value>, skip: bool)
    ensures var d := Decide(raw, existing, skip);
      d.verdict.Insert? ==>
        && (forall f :: f in Required ==> f in d.verdict.row && Truthy(d.verdict.row[f]) &&
                                          d.verdict.row[f] == Field(Normalize(raw), f))
        && (d.verdict.row["id"] in existing ==> !skip)
  {
    var c := Normalize(raw);
    RequiredColumns(c);
  }

  /** The optional columns are null when falsy, the aliases are read when the
      snake_case key is falsy. */
  lemma InsertedValues(raw: Value)
    ensures var row := InsertRow(Normalize(raw));
      && (Truthy(Get(raw, "issue_date")) ==> row["issue_date"] == Get(raw, "issue_date"))
      && (!Truthy(Get(raw, "issue_date")) ==> row["issue_date"] == Get(raw, "issueDate"))
      && (Truthy(Get(raw, "expiry_date")) ==> row["expiry_date"] == Get(raw, "expiry_date"))
      && (!Truthy(Get(raw, "expiry_date")) ==> row["expiry_date"] == Or(Get(raw, "expiryDate"), Null))
      && (Truthy(Get(raw, "credential_id")) ==> row["credential_id"] == Get(raw, "credential_id"))
      && (!Truthy(Get(raw, "credential_id")) ==> row["credential_id"] == Or(Get(raw, "credentialId"), Null))
      && (Truthy(Get(raw, "credential_url")) ==> row["credential_url"] == Get(raw, "credential_url"))
      && (!Truthy(Get(raw, "credential_url")) ==> row["credential_url"] == Or(Get(raw, "credentialUrl"), Null))
      && (!Truthy(Get(raw, "description")) ==> row["description"] == Null)
      && (Truthy(Get(raw, "display_order")) ==> row["display_order"] == Get(raw, "display_order"))
      && (!Truthy(Get(raw, "display_order")) ==> row["display_order"] == Or(Get(raw, "displayOrder"), Num(0.0)))
  {
  }
}
