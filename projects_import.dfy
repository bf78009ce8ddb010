/**
 * The project-specific part of `POST /api/admin/projects/import`:
 * `normalizeProject`, the required fields, the per-record checks in their
 * order (required fields, duplicate id, technologies) and the inserted row.
 */
module ProjectsImport {
  import opened Wrappers
  import opened Json
  import opened ImportCommon

  /** The object `normalizeProject` returns. */
  datatype Project = Project(
    id: Value,
    name: Value,
    company: Value,
    description: Value,
    startDate: Value,
    endDate: Value,
    current: Value,
    technologies: Value,
    highlights: Value,
    demoUrl: Value,
    githubUrl: Value,
    displayOrder: Value,
    imageUrl: Value)

  function Normalize(raw: Value): Project {
    Project(
      id := Get(raw, "id"),
      name := Get(raw, "name"),
      company := Get(raw, "company"),
      description := Get(raw, "description"),
      startDate := Aliased(raw, "start_date", "startDate"),
      endDate := Aliased(raw, "end_date", "endDate"),
      current := Get(raw, "current"),
      technologies := Get(raw, "technologies"),
      highlights := Get(raw, "highlights"),
      demoUrl := Aliased(raw, "demo_url", "demoUrl"),
      githubUrl := Aliased(raw, "github_url", "githubUrl"),
      displayOrder := Or(Aliased(raw, "display_order", "displayOrder"), Num(0.0)),
      imageUrl := Aliased(raw, "image_url", "imageUrl"))
  }

  /** `project[field]` for the keys of the normalised object. */
  function Field(p: Project, field: string): Value {
    match field
    case "id" => p.id
    case "name" => p.name
    case "company" => p.company
    case "description" => p.description
    case "start_date" => p.startDate
    case "end_date" => p.endDate
    case "current" => p.current
    case "technologies" => p.technologies
    case "highlights" => p.highlights
    case "demo_url" => p.demoUrl
    case "github_url" => p.githubUrl
    case "display_order" => p.displayOrder
    case "image_url" => p.imageUrl
    case _ => Undefined
  }

  const Required: seq<string> := ["id", "name", "company", "description", "start_date", "technologies"]

  function MissingOf(p: Project): seq<string> {
    Missing(Required, f => Field(p, f))
  }

  /** The object passed to `.insert(...)`. */
  function InsertRow(p: Project): Record {
    map[
      "id" := p.id,
      "name" := p.name,
      "company" := p.company,
      "description" := p.description,
      "start_date" := p.startDate,
      "end_date" := if Truthy(p.current) then Null else Or(p.endDate, Null),
      "current" := Or(p.current, Bool(false)),
      "technologies" := p.technologies,
      "highlights" := Or(p.highlights, Arr([])),
      "demo_url" := Or(p.demoUrl, Null),
      "github_url" := Or(p.githubUrl, Null),
      "display_order" := Or(p.displayOrder, Num(0.0))]
  }

  /** The loop body up to the insert, for the record `raw`: the required-field
      check, then the duplicate check against `existing`, then the
      technologies check; `skip` is `body.skipDuplicates !== false`. */
  function Decide(raw: Value, existing: set<Value>, skip: bool): (d: Decision)
    ensures var p := Normalize(raw);
      d.verdict.Insert? <==>
        && (forall f :: f in Required ==> Truthy(Field(p, f)))
        && (p.id in existing ==> !skip)
        && IsNonEmptyArray(p.technologies)
    ensures d.verdict.Insert? ==> d.verdict.row == InsertRow(Normalize(raw))
    ensures var p := Normalize(raw);
      MissingOf(p) != [] ==> d == Decision(None, Reject(MissingFields(MissingOf(p))))
    ensures var p := Normalize(raw);
      MissingOf(p) == [] ==> d.duplicate == (if p.id in existing then Some(p.id) else None)
    ensures var p := Normalize(raw);
      MissingOf(p) == [] && p.id in existing && skip ==> d.verdict == Reject(AlreadyExists(p.id))
    ensures var p := Normalize(raw);
      MissingOf(p) == [] && (p.id in existing ==> !skip) && !IsNonEmptyArray(p.technologies) ==>
        d.verdict == Reject(TechnologiesNotArray)
  {
    var p := Normalize(raw);
    NoneMissing(Required, f => Field(p, f));
    var missing := MissingOf(p);
    if missing != [] then Decision(None, Reject(MissingFields(missing)))
    else
      var duplicate := if p.id in existing then Some(p.id) else None;
      if duplicate.Some? && skip then Decision(duplicate, Reject(AlreadyExists(p.id)))
      else if !IsNonEmptyArray(p.technologies) then Decision(duplicate, Reject(TechnologiesNotArray))
      else Decision(duplicate, Insert(InsertRow(p)))
  }

  /** Each required column of the inserted row holds the normalised field. */
  lemma RequiredColumns(p: Project)
    ensures forall f :: f in Required ==> f in InsertRow(p) && InsertRow(p)[f] == Field(p, f)
  {
    assert InsertRow(p)["id"] == Field(p, "id");
    assert InsertRow(p)["name"] == Field(p, "name");
    assert InsertRow(p)["company"] == Field(p, "company");
    assert InsertRow(p)["description"] == Field(p, "description");
    assert InsertRow(p)["start_date"] == Field(p, "start_date");
    assert InsertRow(p)["technologies"] == Field(p, "technologies");
  }

  /** A row reaches the insert only after the checks: every required column
      is in it, truthy and equal to the normalised field, `technologies` is a
      non-empty array, and an existing id was not to be skipped. `image_url`
      is normalised but never inserted. */
  lemma InsertedRowPassedChecks(raw: Value, existing: set<Value>, skip: bool)
    ensures var d := Decide(raw, existing, skip);
      d.verdict.Insert? ==>
        && (forall f :: f in Required ==> f in d.verdict.row && Truthy(d.verdict.row[f]) &&
                                          d.verdict.row[f] == Field(Normalize(raw), f))
        && IsNonEmptyArray(d.verdict.row["technologies"])
        && (d.verdict.row["id"] in existing ==> !skip)
        && "image_url" !in d.verdict.row
  {
    var p := Normalize(raw);
    RequiredColumns(p);
    NoImageColumn(p);
  }

  lemma NoImageColumn(p: Project)
    ensures InsertRow(p)["technologies"] == p.technologies
    ensures "image_url" !in InsertRow(p)
  {
    var m := InsertRow(p);
    forall k | k in m.Keys
      ensures k != "image_url"
    {
    }
  }

  /** The inserted values: `end_date` null for a current project, the
      snake_case keys winning over their camelCase aliases, and the defaults. */
  lemma InsertedValues(raw: Value)
    ensures var row := InsertRow(Normalize(raw));
      && (Truthy(Get(raw, "current")) ==> row["end_date"] == Null)
      && (!Truthy(Get(raw, "current")) ==>
            row["end_date"] == Or(Or(Get(raw, "end_date"), Get(raw, "endDate")), Null))
      && (Truthy(row["current"]) <==> Truthy(Get(raw, "current")))
      && (!Truthy(Get(raw, "current")) ==> row["current"] == Bool(false))
      && (!Truthy(Get(raw, "highlights")) ==> row["highlights"] == Arr([]))
      && (Truthy(Get(raw, "start_date")) ==> row["start_date"] == Get(raw, "start_date"))
      && (!Truthy(Get(raw, "start_date")) ==> row["start_date"] == Get(raw, "startDate"))
      && (Truthy(Get(raw, "demo_url")) ==> row["demo_url"] == Get(raw, "demo_url"))
      && (!Truthy(Get(raw, "demo_url")) ==> row["demo_url"] == Or(Get(raw, "demoUrl"), Null))
      && (Truthy(Get(raw, "github_url")) ==> row["github_url"] == Get(raw, "github_url"))
      && (!Truthy(Get(raw, "github_url")) ==> row["github_url"] == Or(Get(raw, "githubUrl"), Null))
      && (Truthy(Get(raw, "display_order")) ==> row["display_order"] == Get(raw, "display_order"))
      && (!Truthy(Get(raw, "display_order")) ==> row["display_order"] == Or(Get(raw, "displayOrder"), Num(0.0)))
  {
  }
}
