/**
 * `getPageHeaderConfig`: the header (title, description, back link and
 * buttons) the admin layout shows for a path, or none.
 */
module PageHeader {
  import opened Wrappers
  import opened Text

  datatype Icon = UploadIcon | PlusIcon
  datatype Variant = Primary | Secondary

  datatype ActionButton = ActionButton(href: string, caption: string, icon: Icon, variant: Variant)
  datatype HeaderAction = HeaderAction(href: string, caption: string)

  datatype HeaderConfig = HeaderConfig(
    title: string,
    description: Option<string>,
    backHref: Option<string>,
    backLabel: Option<string>,
    action: Option<HeaderAction>,
    actions: seq<ActionButton>)

  /** A page with a title and a back link only. */
  function BackTo(title: string, href: string, backLabel: string): HeaderConfig {
    HeaderConfig(title, None, Some(href), Some(backLabel), None, [])
  }

  function Listing(title: string, description: string, action: HeaderAction): HeaderConfig {
    HeaderConfig(title, Some(description), None, None, Some(action), [])
  }

  /** The if-chain of `getPageHeaderConfig`; `userName` is `None` when absent. */
  function GetPageHeaderConfig(pathname: string, userName: Option<string>): Option<HeaderConfig> {
    if pathname == "/admin" then
      var greeting := if userName.Some? && userName.value != "" then ", " + userName.value else "";
      Some(HeaderConfig("Welcome back" + greeting + "!", Some("Here's an overview of your portfolio data"),
                        None, None, None, []))
    else if pathname == "/admin/projects" then
      Some(HeaderConfig("Projects", Some("Manage your portfolio projects"), None, None, None,
        [ActionButton("/admin/projects/import", "Import JSON", UploadIcon, Secondary),
         ActionButton("/admin/projects/new", "Add Project", PlusIcon, Primary)]))
    else if pathname == "/admin/projects/new" then
      Some(BackTo("Add New Project", "/admin/projects", "Back to Projects"))
    else if pathname == "/admin/projects/import" then
      Some(HeaderConfig("Import Projects from JSON",
                        Some("Upload a JSON file or paste JSON data to bulk import projects"),
                        Some("/admin/projects"), Some("Back to Projects"), None, []))
    else if StartsWith(pathname, "/admin/projects/") && pathname != "/admin/projects/new" && pathname != "/admin/projects/import" then
      Some(BackTo("Edit Project", "/admin/projects", "Back to Projects"))
    else if pathname == "/admin/experience" then
      Some(Listing("Experience", "Manage your work experience", HeaderAction("/admin/experience/new", "Add Experience")))
    else if pathname == "/admin/experience/new" then
      Some(BackTo("Add New Experience", "/admin/experience", "Back to Experience"))
    else if StartsWith(pathname, "/admin/experience/") && pathname != "/admin/experience/new" then
      Some(BackTo("Edit Experience", "/admin/experience", "Back to Experience"))
    else if pathname == "/admin/skills" then
      Some(Listing("Skills", "Manage your technical skills and proficiency levels", HeaderAction("/admin/skills/new", "Add Skill")))
    else if pathname == "/admin/skills/new" then
      Some(BackTo("Add New Skill", "/admin/skills", "Back to Skills"))
    else if StartsWith(pathname, "/admin/skills/") && pathname != "/admin/skills/new" then
      Some(BackTo("Edit Skill", "/admin/skills", "Back to Skills"))
    else if pathname == "/admin/certifications" then
      Some(Listing("Certifications", "Manage your professional certifications and credentials",
                   HeaderAction("/admin/certifications/new", "Add Certification")))
    else if pathname == "/admin/certifications/new" then
      Some(BackTo("Add New Certification", "/admin/certifications", "Back to Certifications"))
    else if StartsWith(pathname, "/admin/certifications/") && pathname != "/admin/certifications/new" then
      Some(BackTo("Edit Certification", "/admin/certifications", "Back to Certifications"))
    else None
  }

  /** The four sections of the admin area. */
  datatype Section = Projects | Experience | Skills | Certifications

  function Base(s: Section): string {
    match s
    case Projects => "/admin/projects"
    case Experience => "/admin/experience"
    case Skills => "/admin/skills"
    case Certifications => "/admin/certifications"
  }

  /** The section's name as its list page's title. */
  function ListTitle(s: Section): string {
    match s
    case Projects => "Projects"
    case Experience => "Experience"
    case Skills => "Skills"
    case Certifications => "Certifications"
  }

  function NewTitle(s: Section): string {
    match s
    case Projects => "Add New Project"
    case Experience => "Add New Experience"
    case Skills => "Add New Skill"
    case Certifications => "Add New Certification"
  }

  function EditTitle(s: Section): string {
    match s
    case Projects => "Edit Project"
    case Experience => "Edit Experience"
    case Skills => "Edit Skill"
    case Certifications => "Edit Certification"
  }

  function BackLabel(s: Section): string {
    match s
    case Projects => "Back to Projects"
    case Experience => "Back to Experience"
    case Skills => "Back to Skills"
    case Certifications => "Back to Certifications"
  }

  /** The paths below a section's own list page. */
  predicate Below(path: string, s: Section) {
    StartsWith(path, Base(s) + "/")
  }

  lemma PrefixChar(path: string, prefix: string, i: nat)
    requires i < |prefix|
    ensures StartsWith(path, prefix) ==> i < |path| && path[i] == prefix[i]
  {
    if StartsWith(path, prefix) {
      assert path[..|prefix|][i] == path[i];
    }
  }

  /** The sections' paths as the if-chain spells them. */
  lemma SectionPaths()
    ensures Base(Projects) + "/" == "/admin/projects/" && Base(Projects) + "/new" == "/admin/projects/new"
    ensures Base(Projects) + "/import" == "/admin/projects/import"
    ensures Base(Experience) + "/" == "/admin/experience/" && Base(Experience) + "/new" == "/admin/experience/new"
    ensures Base(Skills) + "/" == "/admin/skills/" && Base(Skills) + "/new" == "/admin/skills/new"
    ensures Base(Certifications) + "/" == "/admin/certifications/"
    ensures Base(Certifications) + "/new" == "/admin/certifications/new"
  {
  }

  /** A path below one section is below no other one and is no section's
      list, "new" or import page: the sections differ at their eighth
      character. */
  lemma BelowOneSection(path: string, s: Section, t: Section)
    requires Below(path, s)
    ensures t != s ==> !Below(path, t) && path != Base(t) + "/new" && path != Base(t) + "/import"
    ensures path != "/admin" && path != Base(t)
  {
    PrefixChar(path, Base(s) + "/", 7);
    PrefixChar(path, Base(t) + "/", 7);
    assert (Base(t) + "/new")[7] == Base(t)[7];
    assert (Base(t) + "/import")[7] == Base(t)[7];
    assert |path| >= |Base(s)| + 1;
  }

  /** A section's pages lie in the admin panel, and their eighth character
      is the section's. */
  lemma SectionPagesAreAdmin(path: string, s: Section)
    requires path == Base(s) || Below(path, s)
    ensures StartsWith(path, "/admin") && |path| > 7 && path[7] == Base(s)[7] && path[7] in "pesc"
  {
    var b := Base(s) + "/";
    assert Base(s)[7] in "pesc";
    assert b[..6] == "/admin" && |b| > 7 && b[7] == Base(s)[7];
    if path == Base(s) {
      assert path[..6] == b[..6];
    } else {
      StartsWithTransitive(path, b, "/admin");
      PrefixChar(path, b, 7);
    }
  }

  /** Each section's own pages: its list, its "new" page (and the projects'
      import page), and an edit page for every other path below it. */
  lemma SectionHeaders(path: string, userName: Option<string>, s: Section)
    ensures path == Base(s) ==>
      (GetPageHeaderConfig(path, userName).Some? && GetPageHeaderConfig(path, userName).value.title == ListTitle(s))
    ensures path == Base(s) + "/new" ==>
      GetPageHeaderConfig(path, userName) == Some(BackTo(NewTitle(s), Base(s), BackLabel(s)))
    ensures Below(path, s) && path != Base(s) + "/new" && (s == Projects ==> path != Base(s) + "/import") ==>
      GetPageHeaderConfig(path, userName) == Some(BackTo(EditTitle(s), Base(s), BackLabel(s)))
  {
    if path == Base(s) {
      ListPageHeader(userName, s);
    }
    if path == Base(s) + "/new" {
      NewPageHeader(userName, s);
    }
    if Below(path, s) && path != Base(s) + "/new" && (s == Projects ==> path != Base(s) + "/import") {
      EditPageHeader(path, userName, s);
    }
  }

  lemma ListPageHeader(userName: Option<string>, s: Section)
    ensures GetPageHeaderConfig(Base(s), userName).Some?
    ensures GetPageHeaderConfig(Base(s), userName).value.title == ListTitle(s)
  {
    match s
    case Projects =>
    case Experience =>
      PrefixChar("/admin/experience", "/admin/projects/", 7);
    case Skills =>
      SkillsListHeader(userName);
    case Certifications =>
      CertificationsListHeader(userName);
  }

  lemma SkillsListHeader(userName: Option<string>)
    ensures GetPageHeaderConfig("/admin/skills", userName).Some?
    ensures GetPageHeaderConfig("/admin/skills", userName).value.title == "Skills"
  {
    PrefixChar("/admin/skills", "/admin/projects/", 7);
    PrefixChar("/admin/skills", "/admin/experience/", 7);
  }

  lemma CertificationsListHeader(userName: Option<string>)
    ensures GetPageHeaderConfig("/admin/certifications", userName).Some?
    ensures GetPageHeaderConfig("/admin/certifications", userName).value.title == "Certifications"
  {
    PrefixChar("/admin/certifications", "/admin/projects/", 7);
    PrefixChar("/admin/certifications", "/admin/experience/", 7);
    PrefixChar("/admin/certifications", "/admin/skills/", 7);
  }

  lemma NewPageHeader(userName: Option<string>, s: Section)
    ensures GetPageHeaderConfig(Base(s) + "/new", userName) == Some(BackTo(NewTitle(s), Base(s), BackLabel(s)))
  {
    var path := Base(s) + "/new";
    SectionPaths();
    PrefixChar(path, "/admin/projects/", 7);
    PrefixChar(path, "/admin/experience/", 7);
    PrefixChar(path, "/admin/skills/", 7);
    PrefixChar(path, "/admin/certifications/", 7);
    assert path[7] == Base(s)[7];
  }

  lemma EditPageHeader(path: string, userName: Option<string>, s: Section)
    requires Below(path, s) && path != Base(s) + "/new" && (s == Projects ==> path != Base(s) + "/import")
    ensures GetPageHeaderConfig(path, userName) == Some(BackTo(EditTitle(s), Base(s), BackLabel(s)))
  {
    SectionPaths();
    PrefixChar(path, "/admin/projects/", 7);
    PrefixChar(path, "/admin/experience/", 7);
    PrefixChar(path, "/admin/skills/", 7);
    PrefixChar(path, "/admin/certifications/", 7);
    BelowOneSection(path, s, Projects);
    BelowOneSection(path, s, Experience);
    BelowOneSection(path, s, Skills);
    BelowOneSection(path, s, Certifications);
  }

  /** The dashboard greets the user by name when there is one. */
  lemma DashboardGreeting(userName: Option<string>)
    ensures GetPageHeaderConfig("/admin", userName).Some?
    ensures userName.Some? && userName.value != "" ==>
      GetPageHeaderConfig("/admin", userName).value.title == "Welcome back, " + userName.value + "!"
    ensures (userName.None? || userName.value == "") ==>
      GetPageHeaderConfig("/admin", userName).value.title == "Welcome back!"
  {
  }

  /** The projects list offers import, as a secondary button, before adding. */
  lemma ProjectsListActions(userName: Option<string>)
    ensures var h := GetPageHeaderConfig("/admin/projects", userName);
      && h.Some? && |h.value.actions| == 2
      && h.value.actions[0].caption == "Import JSON" && h.value.actions[0].variant == Secondary
      && h.value.actions[1].caption == "Add Project" && h.value.actions[1].variant == Primary
  {
  }

  /** There is a header exactly for the dashboard and the four sections. */
  lemma HeaderExactlyOnAdminSections(path: string, userName: Option<string>)
    ensures GetPageHeaderConfig(path, userName).None? <==>
      path != "/admin" && forall s: Section :: path != Base(s) && !Below(path, s)
  {
    SectionPaths();
    forall s: Section {
      SectionHeaders(path, userName, s);
    }
  }
}
