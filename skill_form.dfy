/**
 * The "new skill" form: its two option tables, its initial state, and the
 * body `handleSubmit` posts, where the proficiency string is read back with
 * `parseInt` and a zero for years of experience is sent as `null`.
 */
module SkillForm {
  import opened Wrappers
  import opened Json
  import opened Text
  import AdminRoutes

  /** An entry of a select box. */
  datatype SelectOption = SelectOption(value: string, caption: string)

  const Categories := [
    SelectOption("frontend", "Frontend"),
    SelectOption("backend", "Backend"),
    SelectOption("database", "Database"),
    SelectOption("devops", "DevOps"),
    SelectOption("tools", "Tools"),
    SelectOption("other", "Other")]

  const ProficiencyLevels := [
    SelectOption("1", "1 - Beginner"),
    SelectOption("2", "2 - Novice"),
    SelectOption("3", "3 - Intermediate"),
    SelectOption("4", "4 - Advanced"),
    SelectOption("5", "5 - Expert")]

  predicate IsDigit(c: char) {
    '0' <= c <= '9'
  }

  /** How many decimal digits `s` starts with. */
  function DigitRun(s: string): (n: nat)
    ensures n <= |s|
    ensures forall i :: 0 <= i < n ==> IsDigit(s[i])
    ensures n < |s| ==> !IsDigit(s[n])
  {
    if s == [] || !IsDigit(s[0]) then 0 else 1 + DigitRun(s[1..])
  }

  /** The number a string of decimal digits denotes. */
  function DigitsValue(d: string): nat
    requires forall i :: 0 <= i < |d| ==> IsDigit(d[i])
  {
    if d == [] then 0
    else
      assert IsDigit(d[|d| - 1]);
      10 * DigitsValue(d[..|d| - 1]) + (d[|d| - 1] as int - '0' as int)
  }

  /** `parseInt(s)` with no radix, on decimal text: leading whitespace is
      skipped, one sign is read, then the longest run of digits; `None` is
      `NaN`, when no digit follows. */
  function ParseInt(s: string): (r: Option<int>)
    ensures var t := s[LeadingSpaces(s)..];
      var u := if t != [] && (t[0] == '-' || t[0] == '+') then t[1..] else t;
      r.None? <==> u == [] || !IsDigit(u[0])
  {
    var t := s[LeadingSpaces(s)..];
    var negative := t != [] && t[0] == '-';
    var u := if t != [] && (t[0] == '-' || t[0] == '+') then t[1..] else t;
    var n := DigitRun(u);
    if n == 0 then None
    else
      var v: int := DigitsValue(u[..n]);
      Some(if negative then -v else v)
  }

  /** The decimal text of a natural number, without leading zeros. */
  function DecimalText(n: nat): (s: string)
    ensures s != []
    ensures forall i :: 0 <= i < |s| ==> IsDigit(s[i])
  {
    if n < 10 then [('0' as int + n) as char]
    else DecimalText(n / 10) + [('0' as int + n % 10) as char]
  }

  /** The text of an integer, with a '-' when it is negative. */
  function IntText(n: int): string {
    if n < 0 then "-" + DecimalText(-n) else DecimalText(n)
  }

  lemma {:induction false} DigitsValueOfDecimalText(n: nat)
    ensures DigitsValue(DecimalText(n)) == n
    decreases n
  {
    if n >= 10 {
      DigitsValueOfDecimalText(n / 10);
      var s := DecimalText(n);
      assert s[..|s| - 1] == DecimalText(n / 10);
    }
  }

  /** `parseInt` reads back the text of every integer. */
  lemma ParseIntReadsIntText(n: int)
    ensures ParseInt(IntText(n)) == Some(n)
  {
    var s := IntText(n);
    var d := if n < 0 then DecimalText(-n) else DecimalText(n);
    assert !IsSpace(s[0]);
    assert s[LeadingSpaces(s)..] == s;
    var u := if n < 0 then s[1..] else s;
    assert u == d;
    assert DigitRun(u) == |d|;
    assert u[..|d|] == d;
    DigitsValueOfDecimalText(if n < 0 then -n else n);
  }

  /** Every proficiency option reads back as a level from 1 to 5, the one it
      is labelled with; the default is among them. */
  lemma ProficiencyLevelsParse()
    ensures forall i :: 0 <= i < |ProficiencyLevels| ==> ParseInt(ProficiencyLevels[i].value) == Some(i + 1)
    ensures exists i :: 0 <= i < |ProficiencyLevels| && ProficiencyLevels[i].value == InitialForm.proficiencyLevel
  {
    forall i | 0 <= i < |ProficiencyLevels|
      ensures ParseInt(ProficiencyLevels[i].value) == Some(i + 1)
    {
      assert ProficiencyLevels[i].value == IntText(i + 1);
      ParseIntReadsIntText(i + 1);
    }
    assert ProficiencyLevels[2].value == InitialForm.proficiencyLevel;
  }

  datatype SkillFormData = SkillFormData(
    category: string,
    skillName: string,
    proficiencyLevel: string,
    yearsExperience: real,
    displayOrder: real)

  /** No category chosen, no name, proficiency '3', no years, order 0. */
  const InitialForm := SkillFormData("", "", "3", 0.0, 0.0)

  /** `{ ...formData, proficiency_level: parseInt(...), years_experience: ... || null }`:
      a `NaN` level is serialised as `null`. */
  function SubmitBody(f: SkillFormData): (body: Record)
    ensures body.Keys == {"category", "skill_name", "proficiency_level", "years_experience", "display_order"}
    ensures body["category"] == Str(f.category) && body["skill_name"] == Str(f.skillName)
    ensures body["display_order"] == Num(f.displayOrder)
    ensures ParseInt(f.proficiencyLevel).Some? ==> body["proficiency_level"] == Num(ParseInt(f.proficiencyLevel).value as real)
    ensures ParseInt(f.proficiencyLevel).None? ==> body["proficiency_level"] == Null
    ensures body["years_experience"] == Null <==> f.yearsExperience == 0.0
    ensures f.yearsExperience != 0.0 ==> body["years_experience"] == Num(f.yearsExperience)
  {
    map[
      "category" := Str(f.category),
      "skill_name" := Str(f.skillName),
      "proficiency_level" := (match ParseInt(f.proficiencyLevel) case None => Null case Some(n) => Num(n as real)),
      "years_experience" := (if f.yearsExperience == 0.0 then Null else Num(f.yearsExperience)),
      "display_order" := Num(f.displayOrder)]
  }

  /** A level picked from the options is sent as the number 1 to 5 it names. */
  lemma PickedLevelIsSent(f: SkillFormData, i: int)
    requires 0 <= i < |ProficiencyLevels| && f.proficiencyLevel == ProficiencyLevels[i].value
    ensures SubmitBody(f)["proficiency_level"] == Num((i + 1) as real)
  {
    ProficiencyLevelsParse();
  }

  /** The route accepts the form's body exactly when a category is chosen
      and a name typed, and otherwise names the first empty one. */
  lemma SubmitBodyPassesRoute(f: SkillFormData)
    ensures var missing := AdminRoutes.FirstMissing(AdminRoutes.RequiredFields(AdminRoutes.Skills), Obj(SubmitBody(f)));
      && (missing.None? <==> f.category != "" && f.skillName != "")
      && (f.category == "" ==> missing == Some("category"))
      && (f.category != "" && f.skillName == "" ==> missing == Some("skill_name"))
  {
    var required := AdminRoutes.RequiredFields(AdminRoutes.Skills);
    var body := Obj(SubmitBody(f));
    assert required == ["category", "skill_name"];
    assert Truthy(Get(body, "category")) <==> f.category != "";
    assert Truthy(Get(body, "skill_name")) <==> f.skillName != "";
    assert required[1..] == ["skill_name"];
    assert required[1..][1..] == [];
    var m1 := AdminRoutes.FirstMissing(required[1..], body);
    assert m1 == if f.skillName == "" then Some("skill_name") else None;
    assert AdminRoutes.FirstMissing(required, body) == if f.category == "" then Some("category") else m1;
  }

  /** Every category option is a non-empty value, so a chosen category always
      passes the route's check. */
  lemma CategoriesAreNonEmpty()
    ensures forall i :: 0 <= i < |Categories| ==> Categories[i].value != ""
    ensures forall i, j :: 0 <= i < j < |Categories| ==> Categories[i].value != Categories[j].value
  {
  }
}
