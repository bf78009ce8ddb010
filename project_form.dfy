/**
 * The "new project" form: the id field that formats what is typed into a
 * slug, the `current` checkbox, and the body `handleSubmit` posts.
 */
module ProjectForm {
  import opened Json
  import opened Text
  import opened FormCommon

  /** `s.replace(/\s+/g, '-')`: every run of whitespace becomes one '-'. */
  function DashRuns(s: string): (r: string)
    ensures NoSpace(r)
    ensures forall c :: c in r ==> c == '-' || c in s
    ensures NoSpace(s) ==> r == s
    decreases |s|
  {
    if s == [] then []
    else if IsSpace(s[0]) then
      var n := LeadingSpaces(s);
      "-" + DashRuns(s[n..])
    else
      [s[0]] + DashRuns(s[1..])
  }

  predicate NoUpper(s: string) {
    forall i :: 0 <= i < |s| ==> !('A' <= s[i] <= 'Z')
  }

  lemma {:induction false} ToLowerNoUpper(s: string)
    ensures NoUpper(ToLower(s))
    ensures NoUpper(s) ==> ToLower(s) == s
    decreases |s|
  {
    if s != [] {
      ToLowerNoUpper(s[1..]);
    }
  }

  /** The id field's `onChange`: `value.toLowerCase().replace(/\s+/g, '-')`. */
  function Slug(value: string): (id: string)
    ensures NoSpace(id)
    ensures NoUpper(id)
  {
    ToLowerNoUpper(value);
    var r := DashRuns(ToLower(value));
    assert forall i :: 0 <= i < |r| ==> r[i] in r;
    r
  }

  /** Formatting an id that is already formatted leaves it unchanged. */
  lemma SlugIdempotent(value: string)
    ensures Slug(Slug(value)) == Slug(value)
  {
    ToLowerNoUpper(Slug(value));
  }

  datatype ProjectFormData = ProjectFormData(
    id: string,
    name: string,
    company: string,
    description: string,
    startDate: string,
    tenure: Tenure,
    technologies: seq<string>,
    highlights: seq<string>,
    demoUrl: string,
    githubUrl: string,
    displayOrder: real)

  /** The initial `formData`. */
  const InitialForm := ProjectFormData("", "", "", "", "", Tenure("", false), [], [], "", "", 0.0)

  function SetId(f: ProjectFormData, value: string): ProjectFormData {
    f.(id := Slug(value))
  }

  /** `{ ...formData, end_date: formData.current ? null : formData.end_date || null }`:
      only `end_date` is changed; `demo_url` and `github_url` are sent as typed. */
  function SubmitBody(f: ProjectFormData): (body: Record)
    ensures body.Keys == {"id", "name", "company", "description", "start_date", "end_date", "current",
                          "technologies", "highlights", "demo_url", "github_url", "display_order"}
    ensures body["end_date"] == Null <==> f.tenure.current || f.tenure.endDate == ""
    ensures body["end_date"] != Null ==> body["end_date"] == Str(f.tenure.endDate)
    ensures body["id"] == Str(f.id) && body["name"] == Str(f.name) && body["demo_url"] == Str(f.demoUrl)
    ensures body["current"] == Bool(f.tenure.current) && body["display_order"] == Num(f.displayOrder)
  {
    map[
      "id" := Str(f.id),
      "name" := Str(f.name),
      "company" := Str(f.company),
      "description" := Str(f.description),
      "start_date" := Str(f.startDate),
      "end_date" := SubmittedEndDate(f.tenure),
      "current" := Bool(f.tenure.current),
      "technologies" := Strings(f.technologies),
      "highlights" := Strings(f.highlights),
      "demo_url" := Str(f.demoUrl),
      "github_url" := Str(f.githubUrl),
      "display_order" := Num(f.displayOrder)]
  }

  /** An id typed through the id field never holds whitespace. */
  lemma SubmittedIdHasNoSpace(f: ProjectFormData, value: string)
    ensures var id := SubmitBody(SetId(f, value))["id"];
      id.Str? && NoSpace(id.s)
  {
  }
}
