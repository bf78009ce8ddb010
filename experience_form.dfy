/**
 * The "new experience" form, in its current version (`page.tsx`, whose list
 * fields are `ArrayInput`s) and its older one (`page_old.tsx`, which keeps
 * one input box per list itself). Both post the same body to
 * `POST /api/admin/experience`.
 */
module ExperienceForm {
  import opened Wrappers
  import opened Json
  import opened Text
  import opened Lists
  import opened FormCommon
  import opened ArrayInput
  import AdminRoutes

  datatype ExperienceFormData = ExperienceFormData(
    company: string,
    position: string,
    location: string,
    startDate: string,
    tenure: Tenure,
    description: string,
    responsibilities: seq<string>,
    technologies: seq<string>,
    achievements: seq<string>,
    displayOrder: real)

  /** The initial `formData`: nothing typed, not current, no list entries,
      display order 0. */
  const InitialForm := ExperienceFormData("", "", "", "", Tenure("", false), "", [], [], [], 0.0)

  /** `{ ...formData, end_date: formData.current ? null : formData.end_date || null }`. */
  function SubmitBody(f: ExperienceFormData): (body: Record)
    ensures body.Keys == {"company", "position", "location", "start_date", "end_date", "current", "description",
                          "responsibilities", "technologies", "achievements", "display_order"}
    ensures body["end_date"] == Null <==> f.tenure.current || f.tenure.endDate == ""
    ensures body["end_date"] != Null ==> body["end_date"] == Str(f.tenure.endDate)
    ensures body["company"] == Str(f.company) && body["position"] == Str(f.position)
    ensures body["technologies"] == Strings(f.technologies) && body["responsibilities"] == Strings(f.responsibilities)
  {
    map[
      "company" := Str(f.company),
      "position" := Str(f.position),
      "location" := Str(f.location),
      "start_date" := Str(f.startDate),
      "end_date" := SubmittedEndDate(f.tenure),
      "current" := Bool(f.tenure.current),
      "description" := Str(f.description),
      "responsibilities" := Strings(f.responsibilities),
      "technologies" := Strings(f.technologies),
      "achievements" := Strings(f.achievements),
      "display_order" := Num(f.displayOrder)]
  }

  /** The route accepts the form's body exactly when company, position and
      start date are filled in: `technologies` is an array, and even an empty
      array passes the route's check. Otherwise the route names the first
      empty one. */
  lemma SubmitBodyPassesRoute(f: ExperienceFormData)
    ensures var missing := AdminRoutes.FirstMissing(AdminRoutes.RequiredFields(AdminRoutes.Experience), Obj(SubmitBody(f)));
      && (missing.None? <==> f.company != "" && f.position != "" && f.startDate != "")
      && (f.company == "" ==> missing == Some("company"))
      && (f.company != "" && f.position == "" ==> missing == Some("position"))
      && (f.company != "" && f.position != "" && f.startDate == "" ==> missing == Some("start_date"))
  {
    var required := AdminRoutes.RequiredFields(AdminRoutes.Experience);
    var body := Obj(SubmitBody(f));
    assert required == ["company", "position", "start_date", "technologies"];
    assert Truthy(Get(body, "company")) <==> f.company != "";
    assert Truthy(Get(body, "position")) <==> f.position != "";
    assert Truthy(Get(body, "start_date")) <==> f.startDate != "";
    assert Truthy(Get(body, "technologies"));
    assert required[1..] == ["position", "start_date", "technologies"];
    assert required[1..][1..] == ["start_date", "technologies"];
    assert required[1..][1..][1..] == ["technologies"];
    var m3 := AdminRoutes.FirstMissing(required[1..][1..][1..], body);
    assert m3 == None;
    var m2 := AdminRoutes.FirstMissing(required[1..][1..], body);
    assert m2 == if f.startDate == "" then Some("start_date") else m3;
    var m1 := AdminRoutes.FirstMissing(required[1..], body);
    assert m1 == if f.position == "" then Some("position") else m2;
    assert AdminRoutes.FirstMissing(required, body) == if f.company == "" then Some("company") else m1;
  }

  /** The older form, with its own input box per list. */
  class OldExperiencePage {
    var form: ExperienceFormData
    var techInput: string
    var responsibilityInput: string
    var achievementInput: string
    var loading: bool

    constructor ()
      ensures form == InitialForm && techInput == "" && responsibilityInput == "" && achievementInput == ""
      ensures !loading
    {
      form := InitialForm;
      techInput := "";
      responsibilityInput := "";
      achievementInput := "";
      loading := false;
    }

    /** `addTechnology`: only `technologies` and, when the entry was added,
        the technology box change. */
    method AddTechnology()
      modifies this
      ensures form == old(form).(technologies := Added(old(form.technologies), old(techInput)))
      ensures techInput == if Accepts(old(form.technologies), old(techInput)) then "" else old(techInput)
      ensures responsibilityInput == old(responsibilityInput) && achievementInput == old(achievementInput)
      ensures loading == old(loading)
    {
      var entry := Trim(techInput);
      if entry != "" && entry !in form.technologies {
        form := form.(technologies := form.technologies + [entry]);
        techInput := "";
      }
    }

    method RemoveTechnology(tech: string)
      modifies this
      ensures form == old(form).(technologies := WithoutItem(old(form.technologies), tech))
      ensures techInput == old(techInput) && responsibilityInput == old(responsibilityInput)
      ensures achievementInput == old(achievementInput) && loading == old(loading)
    {
      form := form.(technologies := WithoutItem(form.technologies, tech));
    }

    method AddResponsibility()
      modifies this
      ensures form == old(form).(responsibilities := Added(old(form.responsibilities), old(responsibilityInput)))
      ensures responsibilityInput ==
                if Accepts(old(form.responsibilities), old(responsibilityInput)) then "" else old(responsibilityInput)
      ensures techInput == old(techInput) && achievementInput == old(achievementInput)
      ensures loading == old(loading)
    {
      var entry := Trim(responsibilityInput);
      if entry != "" && entry !in form.responsibilities {
        form := form.(responsibilities := form.responsibilities + [entry]);
        responsibilityInput := "";
      }
    }

    method RemoveResponsibility(item: string)
      modifies this
      ensures form == old(form).(responsibilities := WithoutItem(old(form.responsibilities), item))
      ensures techInput == old(techInput) && responsibilityInput == old(responsibilityInput)
      ensures achievementInput == old(achievementInput) && loading == old(loading)
    {
      form := form.(responsibilities := WithoutItem(form.responsibilities, item));
    }

    method AddAchievement()
      modifies this
      ensures form == old(form).(achievements := Added(old(form.achievements), old(achievementInput)))
      ensures achievementInput ==
                if Accepts(old(form.achievements), old(achievementInput)) then "" else old(achievementInput)
      ensures techInput == old(techInput) && responsibilityInput == old(responsibilityInput)
      ensures loading == old(loading)
    {
      var entry := Trim(achievementInput);
      if entry != "" && entry !in form.achievements {
        form := form.(achievements := form.achievements + [entry]);
        achievementInput := "";
      }
    }

    method RemoveAchievement(item: string)
      modifies this
      ensures form == old(form).(achievements := WithoutItem(old(form.achievements), item))
      ensures techInput == old(techInput) && responsibilityInput == old(responsibilityInput)
      ensures achievementInput == old(achievementInput) && loading == old(loading)
    {
      form := form.(achievements := WithoutItem(form.achievements, item));
    }

    /** The checkbox's `onChange`. */
    method SetCurrentChecked(checked: bool)
      modifies this
      ensures form == old(form).(tenure := SetCurrent(old(form.tenure), checked))
      ensures techInput == old(techInput) && responsibilityInput == old(responsibilityInput)
      ensures achievementInput == old(achievementInput) && loading == old(loading)
    {
      form := form.(tenure := SetCurrent(form.tenure, checked));
    }

    /** `disabled={loading || formData.technologies.length === 0}`, negated. */
    predicate CanSubmit()
      reads this
    {
      !loading && |form.technologies| > 0
    }
  }

  /** The older form can submit only after a technology was added, and an
      added technology makes it submittable when it is not loading. */
  lemma AddedTechnologyEnablesSubmit(technologies: seq<string>, input: string)
    ensures |Added(technologies, input)| > 0 <==> |technologies| > 0 || Trim(input) != ""
  {
  }
}
