/**
 * The experience-specific part of `POST /api/admin/experience/import`:
 * `normalizeExperience`, the required fields, the per-record checks
 * (required fields, then duplicate id) and the inserted row.
 */
module ExperienceImport {
  import opened Wrappers
  import opened Json
  import opened ImportCommon

  /** The object `normalizeExperience` returns; input `achievements` are not
      carried over. */
  datatype Experience = Experience(
    id: Value,
    company: Value,
    position: Value,
    startDate: Value,
    endDate: Value,
    current: Value,
    description: Value,
    responsibilities: Value,
    technologies: Value,
    location: Value,
    displayOrder: Value)

  function Normalize(raw: Value): Experience {
    Experience(
      id := Get(raw, "id"),
      company := Get(raw, "company"),
      position := Get(raw, "position"),
      startDate := Aliased(raw, "start_date", "startDate"),
      endDate := Aliased(raw, "end_date", "endDate"),
      current := Get(raw, "current"),
      description := Get(raw, "description"),
      responsibilities := Get(raw, "responsibilities"),
      technologies := Get(raw, "technologies"),
      location := Get(raw, "location"),
      displayOrder := Or(Aliased(raw, "display_order", "displayOrder"), Num(0.0)))
  }

  /** `experience[field]` for the keys of the normalised object. */
  function Field(e: Experience, field: string): Value {
    match field
    case "id" => e.id
    case "company" => e.company
    case "position" => e.position
    case "start_date" => e.startDate
    case "end_date" => e.endDate
    case "current" => e.current
    case "description" => e.description
    case "responsibilities" => e.responsibilities
    case "technologies" => e.technologies
    case "location" => e.location
    case "display_order" => e.displayOrder
    case _ => Undefined
  }

  const Required: seq<string> := ["id", "company", "position", "start_date", "description"]

  function MissingOf(e: Experience): seq<string> {
    Missing(Required, f => Field(e, f))
  }

  /** The object passed to `.insert(...)`. */
  function InsertRow(e: Experience): Record {
    map[
      "id" := e.id,
      "company" := e.company,
      "position" := e.position,
      "start_date" := e.startDate,
      "end_date" := if Truthy(e.current) then Null else Or(e.endDate, Null),
      "current" := Or(e.current, Bool(false)),
      "description" := e.description,
      "responsibilities" := Or(e.responsibilities, Arr([])),
      "technologies" := Or(e.technologies, Arr([])),
      "location" := Or(e.location, Null),
      "display_order" := Or(e.displayOrder, Num(0.0))]
  }

  /** The loop body up to the insert: the required-field check, then the
      duplicate check against `existing`; there is no technologies check. */
  function Decide(raw: Value, existing: set<Value>, skip: bool): (d: Decision)
    ensures var e := Normalize(raw);
      d.verdict.Insert? <==>
        (forall f :: f in Required ==> Truthy(Field(e, f))) && (e.id in existing ==> !skip)
    ensures d.verdict.Insert? ==> d.verdict.row == InsertRow(Normalize(raw))
    ensures var e := Normalize(raw);
      MissingOf(e) != [] ==> d == Decision(None, Reject(MissingFields(MissingOf(e))))
    ensures var e := Normalize(raw);
      MissingOf(e) == [] ==> d.duplicate == (if e.id in existing then Some(e.id) else None)
    ensures var e := Normalize(raw);
      MissingOf(e) == [] && e.id in existing && skip ==> d.verdict == Reject(AlreadyExists(e.id))
  {
    var e := Normalize(raw);
    NoneMissing(Required, f => Field(e, f));
    var missing := MissingOf(e);
    if missing != [] then Decision(None, Reject(MissingFields(missing)))
    else
      var duplicate := if e.id in existing then Some(e.id) else None;
      if duplicate.Some? && skip then Decision(duplicate, Reject(AlreadyExists(e.id)))
      else Decision(duplicate, Insert(InsertRow(e)))
  }

  /** Each required column of the inserted row holds the normalised field. */
  lemma RequiredColumns(e: Experience)
    ensures forall f :: f in Required ==> f in InsertRow(e) && InsertRow(e)[f] == Field(e, f)
  {
    assert InsertRow(e)["id"] == Field(e, "id");
    assert InsertRow(e)["company"] == Field(e, "company");
    assert InsertRow(e)["position"] == Field(e, "position");
    assert InsertRow(e)["start_date"] == Field(e, "start_date");
    assert InsertRow(e)["description"] == Field(e, "description");
  }

  /** A row reaches the insert only after the checks: every required column
      is in it, truthy and equal to the normalised field, and an existing id
      was not to be skipped. `achievements` is never inserted. */
  lemma InsertedRowPassedChecks(raw: Value, existing: set<Value>, skip: bool)
    ensures var d := Decide(raw, existing, skip);
      d.verdict.Insert? ==>
        && (forall f :: f in Required ==> f in d.verdict.row && Truthy(d.verdict.row[f]) &&
                                          d.verdict.row[f] == Field(Normalize(raw), f))
        && (d.verdict.row["id"] in existing ==> !skip)
        && "achievements" !in d.verdict.row
  {
    var e := Normalize(raw);
    RequiredColumns(e);
    NoAchievementsColumn(e);
  }

  lemma NoAchievementsColumn(e: Experience)
    ensures "achievements" !in InsertRow(e)
  {
    var m := InsertRow(e);
    forall k | k in m.Keys
      ensures k != "achievements"
    {
    }
  }

  /** The inserted values: `end_date` null for a current position, the aliases,
      and the defaults for the optional fields. */
  lemma InsertedValues(raw: Value)
    ensures var row := InsertRow(Normalize(raw));
      && (Truthy(Get(raw, "current")) ==> row["end_date"] == Null)
      && (!Truthy(Get(raw, "current")) ==>
            row["end_date"] == Or(Or(Get(raw, "end_date"), Get(raw, "endDate")), Null))
      && (Truthy(row["current"]) <==> Truthy(Get(raw, "current")))
      && (!Truthy(Get(raw, "current")) ==> row["current"] == Bool(false))
      && (Truthy(Get(raw, "start_date")) ==> row["start_date"] == Get(raw, "start_date"))
      && (!Truthy(Get(raw, "start_date")) ==> row["start_date"] == Get(raw, "startDate"))
      && (!Truthy(Get(raw, "responsibilities")) ==> row["responsibilities"] == Arr([]))
      && (Truthy(Get(raw, "technologies")) ==> row["technologies"] == Get(raw, "technologies"))
      && (!Truthy(Get(raw, "technologies")) ==> row["technologies"] == Arr([]))
      && (!Truthy(Get(raw, "location")) ==> row["location"] == Null)
      && (Truthy(Get(raw, "display_order")) ==> row["display_order"] == Get(raw, "display_order"))
      && (!Truthy(Get(raw, "display_order")) ==> row["display_order"] == Or(Get(raw, "displayOrder"), Num(0.0)))
  {
  }
}
