/**
 * The "new certification" form: every optional field that was left empty is
 * sent as `null`, the rest as typed.
 */
module CertificationForm {
  import opened Wrappers
  import opened Json
  import opened FormCommon
  import AdminRoutes

  datatype CertificationFormData = CertificationFormData(
    name: string,
    issuer: string,
    issueDate: string,
    expiryDate: string,
    credentialId: string,
    credentialUrl: string,
    description: string,
    displayOrder: real)

  /** The initial `formData`: nothing typed, display order 0. */
  const InitialForm := CertificationFormData("", "", "", "", "", "", "", 0.0)

  /** `{ ...formData, expiry_date: formData.expiry_date || null, ... }`. */
  function SubmitBody(f: CertificationFormData): (body: Record)
    ensures body.Keys == {"name", "issuer", "issue_date", "expiry_date", "credential_id", "credential_url",
                          "description", "display_order"}
    ensures body["name"] == Str(f.name) && body["issuer"] == Str(f.issuer) && body["issue_date"] == Str(f.issueDate)
    ensures body["display_order"] == Num(f.displayOrder)
    ensures body["expiry_date"] == (if f.expiryDate == "" then Null else Str(f.expiryDate))
    ensures body["credential_id"] == (if f.credentialId == "" then Null else Str(f.credentialId))
    ensures body["credential_url"] == (if f.credentialUrl == "" then Null else Str(f.credentialUrl))
    ensures body["description"] == (if f.description == "" then Null else Str(f.description))
  {
    map[
      "name" := Str(f.name),
      "issuer" := Str(f.issuer),
      "issue_date" := Str(f.issueDate),
      "expiry_date" := NullIfEmpty(f.expiryDate),
      "credential_id" := NullIfEmpty(f.credentialId),
      "credential_url" := NullIfEmpty(f.credentialUrl),
      "description" := NullIfEmpty(f.description),
      "display_order" := Num(f.displayOrder)]
  }

  /** No submitted field is an empty string: each optional one is either
      its text or null. */
  lemma SubmitBodyHasNoEmptyOptional(f: CertificationFormData)
    ensures forall k :: k in SubmitBody(f) && k !in {"name", "issuer", "issue_date"} ==> SubmitBody(f)[k] != Str("")
  {
  }

  /** The route accepts the form's body exactly when name, issuer and issue
      date are filled in, and otherwise names the first empty one. */
  lemma SubmitBodyPassesRoute(f: CertificationFormData)
    ensures var missing := AdminRoutes.FirstMissing(AdminRoutes.RequiredFields(AdminRoutes.Certifications), Obj(SubmitBody(f)));
      && (missing.None? <==> f.name != "" && f.issuer != "" && f.issueDate != "")
      && (f.name == "" ==> missing == Some("name"))
      && (f.name != "" && f.issuer == "" ==> missing == Some("issuer"))
      && (f.name != "" && f.issuer != "" && f.issueDate == "" ==> missing == Some("issue_date"))
  {
    var required := AdminRoutes.RequiredFields(AdminRoutes.Certifications);
    var body := Obj(SubmitBody(f));
    assert required == ["name", "issuer", "issue_date"];
    assert Truthy(Get(body, "name")) <==> f.name != "";
    assert Truthy(Get(body, "issuer")) <==> f.issuer != "";
    assert Truthy(Get(body, "issue_date")) <==> f.issueDate != "";
    assert required[1..] == ["issuer", "issue_date"];
    assert required[1..][1..] == ["issue_date"];
    assert required[1..][1..][1..] == [];
    var m2 := AdminRoutes.FirstMissing(required[1..][1..], body);
    assert m2 == if f.issueDate == "" then Some("issue_date") else None;
    var m1 := AdminRoutes.FirstMissing(required[1..], body);
    assert m1 == if f.issuer == "" then Some("issuer") else m2;
    assert AdminRoutes.FirstMissing(required, body) == if f.name == "" then Some("name") else m1;
  }
}
