/**
 * The skill-specific part of `POST /api/admin/skills/import`:
 * `normalizeSkill`, the required fields, the per-record checks in their order
 * (required fields, proficiency range, duplicate id) and the inserted row.
 */
module SkillsImport {
  import opened Wrappers
  import opened Json
  import opened ImportCommon

  /** The object `normalizeSkill` returns. */
  datatype Skill = Skill(
    id: Value,
    name: Value,
    category: Value,
    proficiency: Value,
    yearsOfExperience: Value,
    description: Value,
    displayOrder: Value)

  function Normalize(raw: Value): Skill {
    Skill(
      id := Get(raw, "id"),
      name := Get(raw, "name"),
      category := Get(raw, "category"),
      proficiency := Get(raw, "proficiency"),
      yearsOfExperience := Aliased(raw, "years_of_experience", "yearsOfExperience"),
      description := Get(raw, "description"),
      displayOrder := Or(Aliased(raw, "display_order", "displayOrder"), Num(0.0)))
  }

  /** `skill[field]` for the keys of the normalised object. */
  function Field(s: Skill, field: string): Value {
    match field
    case "id" => s.id
    case "name" => s.name
    case "category" => s.category
    case "proficiency" => s.proficiency
    case "years_of_experience" => s.yearsOfExperience
    case "description" => s.description
    case "display_order" => s.displayOrder
    case _ => Undefined
  }

  const Required: seq<string> := ["id", "name", "category", "proficiency"]

  function MissingOf(s: Skill): seq<string> {
    Missing(Required, f => Field(s, f))
  }

  /** `typeof p === 'number' && p >= 0 && p <= 100`. */
  predicate ProficiencyInRange(p: Value) {
    p.Num? && 0.0 <= p.n <= 100.0
  }

  /** The object passed to `.insert(...)`. */
  function InsertRow(s: Skill): Record {
    map[
      "id" := s.id,
      "name" := s.name,
      "category" := s.category,
      "proficiency" := s.proficiency,
      "years_of_experience" := Or(s.yearsOfExperience, Null),
      "description" := Or(s.description, Null),
      "display_order" := Or(s.displayOrder, Num(0.0))]
  }

  /** The loop body up to the insert: the required-field check, then the
      proficiency range, then the duplicate check against `existing`. */
  function Decide(raw: Value, existing: set<Value>, skip: bool): (d: Decision)
    ensures var s := Normalize(raw);
      d.verdict.Insert? <==>
        && (forall f :: f in Required ==> Truthy(Field(s, f)))
        && ProficiencyInRange(s.proficiency)
        && (s.id in existing ==> !skip)
    ensures d.verdict.Insert? ==> d.verdict.row == InsertRow(Normalize(raw))
    ensures var s := Normalize(raw);
      MissingOf(s) != [] ==> d == Decision(None, Reject(MissingFields(MissingOf(s))))
    ensures var s := Normalize(raw);
      MissingOf(s) == [] && !ProficiencyInRange(s.proficiency) ==> d == Decision(None, Reject(ProficiencyOutOfRange))
    ensures var s := Normalize(raw);
      MissingOf(s) == [] && ProficiencyInRange(s.proficiency) ==>
        d.duplicate == (if s.id in existing then Some(s.id) else None)
    ensures var s := Normalize(raw);
      MissingOf(s) == [] && ProficiencyInRange(s.proficiency) && s.id in existing && skip ==>
        d.verdict == Reject(AlreadyExists(s.id))
  {
    var s := Normalize(raw);
    NoneMissing(Required, f => Field(s, f));
    var missing := MissingOf(s);
    if missing != [] then Decision(None, Reject(MissingFields(missing)))
    else if !ProficiencyInRange(s.proficiency) then Decision(None, Reject(ProficiencyOutOfRange))
    else
      var duplicate := if s.id in existing then Some(s.id) else None;
      if duplicate.Some? && skip then Decision(duplicate, Reject(AlreadyExists(s.id)))
      else Decision(duplicate, Insert(InsertRow(s)))
  }

  /** A proficiency of 0 is reported as a missing field, not as out of range:
      the required check is a truthiness test and runs first. */
  lemma ZeroProficiencyIsMissing(raw: Value, existing: set<Value>, skip: bool)
    requires Get(raw, "proficiency") == Num(0.0)
    ensures Decide(raw, existing, skip).verdict.Reject?
    ensures Decide(raw, existing, skip).verdict.error.MissingFields?
    ensures "proficiency" in Decide(raw, existing, skip).verdict.error.fields
  {
    var s := Normalize(raw);
    assert Field(s, "proficiency") == s.proficiency;
    assert "proficiency" in Required;
    assert "proficiency" in MissingOf(s);
  }

  /** Each required column of the inserted row holds the normalised field. */
  lemma RequiredColumns(s: Skill)
    ensures forall f :: f in Required ==> f in InsertRow(s) && InsertRow(s)[f] == Field(s, f)
  {
    assert InsertRow(s)["id"] == Field(s, "id");
    assert InsertRow(s)["name"] == Field(s, "name");
    assert InsertRow(s)["category"] == Field(s, "category");
    assert InsertRow(s)["proficiency"] == Field(s, "proficiency");
  }

  /** A row reaches the insert only after the checks: every required column
      is in it, truthy and equal to the normalised field, the proficiency is
      a number in (0, 100] (0 being falsy), and an existing id was not to be
      skipped. */
  lemma InsertedRowPassedChecks(raw: Value, existing: set<Value>, skip: bool)
    ensures var d := Decide(raw, existing, skip);
      d.verdict.Insert? ==>
        && (forall f :: f in Required ==> f in d.verdict.row && Truthy(d.verdict.row[f]) &&
                                          d.verdict.row[f] == Field(Normalize(raw), f))
        && d.verdict.row["proficiency"].Num?
        && 0.0 < d.verdict.row["proficiency"].n <= 100.0
        && (d.verdict.row["id"] in existing ==> !skip)
  {
    var s := Normalize(raw);
    RequiredColumns(s);
    if Decide(raw, existing, skip).verdict.Insert? {
      assert Truthy(Field(s, "proficiency"));
    }
  }

  /** The inserted values: the alias for `years_of_experience` and the defaults. */
  lemma InsertedValues(raw: Value)
    ensures var row := InsertRow(Normalize(raw));
      && (Truthy(Get(raw, "years_of_experience")) ==> row["years_of_experience"] == Get(raw, "years_of_experience"))
      && (!Truthy(Get(raw, "years_of_experience")) ==>
            row["years_of_experience"] == Or(Get(raw, "yearsOfExperience"), Null))
      && (!Truthy(Get(raw, "description")) ==> row["description"] == Null)
      && (Truthy(Get(raw, "display_order")) ==> row["display_order"] == Get(raw, "display_order"))
      && (!Truthy(Get(raw, "display_order")) ==> row["display_order"] == Or(Get(raw, "displayOrder"), Num(0.0)))
  {
  }
}
