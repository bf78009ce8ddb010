/**
 * The submit-body rules the admin "new" forms share: `x || null` on a text
 * field, the `end_date` of a role or project that is still current, and the
 * `current` checkbox that empties `end_date`.
 */
module FormCommon {
  import opened Wrappers
  import opened Json
  import ImportCommon
  import ImportPage
  import AdminRoutes

  /** `s || null` for a text field. */
  function NullIfEmpty(s: string): (v: Value)
    ensures Truthy(v) <==> s != ""
    ensures v == Null || v == Str(s)
  {
    if s == "" then Null else Str(s)
  }

  /** `current ? null : end_date || null`. */
  function EndDateValue(current: bool, endDate: string): (v: Value)
    ensures v == Null <==> current || endDate == ""
    ensures v != Null ==> v == Str(endDate)
  {
    if current then Null else NullIfEmpty(endDate)
  }

  /** The `end_date` field and the `current` checkbox, which the project and
      experience forms both keep. */
  datatype Tenure = Tenure(endDate: string, current: bool)

  /** The checkbox's `onChange`, the same on both forms:
      `{ ...formData, current: checked, end_date: checked ? '' : formData.end_date }`. */
  function SetCurrent(t: Tenure, checked: bool): (u: Tenure)
    ensures u.current == checked
    ensures checked ==> u.endDate == ""
    ensures !checked ==> u.endDate == t.endDate
  {
    Tenure(if checked then "" else t.endDate, checked)
  }

  /** What the form submits for `end_date`. */
  function SubmittedEndDate(t: Tenure): Value {
    EndDateValue(t.current, t.endDate)
  }

  /** Once the box is checked, the submitted `end_date` is null whatever the
      box does afterwards until the date is typed again; unchecking submits
      the date that was there before. */
  lemma CheckedThenSubmittedIsNull(t: Tenure, checkedAgain: bool)
    ensures SubmittedEndDate(SetCurrent(t, true)) == Null
    ensures SubmittedEndDate(SetCurrent(SetCurrent(t, true), checkedAgain)) == Null
    ensures SubmittedEndDate(SetCurrent(t, false)) == NullIfEmpty(t.endDate)
  {
  }

  /** A list of strings as JSON. */
  function Strings(xs: seq<string>): (v: Value)
    ensures v.Arr? && |v.items| == |xs|
    ensures forall i :: 0 <= i < |xs| ==> v.items[i] == Str(xs[i])
  {
    Arr(seq(|xs|, i requires 0 <= i < |xs| => Str(xs[i])))
  }

  /** The message `handleSubmit` shows for the server's answer, `None` when
      `res.ok` and the page moves on to the list. A non-OK answer throws
      `new Error(data.error || failure)`; `thrown` is the message of the
      error raised when `fetch` or `res.json()` throws or `data` is null. */
  function SubmitError(reply: ImportPage.HttpReply, failure: string, thrown: string, numText: real -> string): (r: Option<string>)
    ensures r.None? <==> reply.Answered? && ImportPage.IsOk(reply.status)
    ensures reply.Answered? && !ImportPage.IsOk(reply.status) && reply.body.Some? && !Nullish(reply.body.value) ==>
      && (!Truthy(Get(reply.body.value, "error")) ==> r == Some(failure))
      && (Get(reply.body.value, "error").Str? && Get(reply.body.value, "error").s != "" ==>
            r == Some(Get(reply.body.value, "error").s))
    ensures reply.Answered? && !ImportPage.IsOk(reply.status) && (reply.body.None? || Nullish(reply.body.value)) ==>
      r == Some(thrown)
  {
    match reply
    case Unreachable => Some(thrown)
    case Answered(status, body) =>
      if ImportPage.IsOk(status) then None
      else if body.None? || Nullish(body.value) then Some(thrown)
      else Some(ImportCommon.ValueText(Or(Get(body.value, "error"), Str(failure)), numText))
  }

  /** Against the create route, the form moves on exactly when the row was
      created, and otherwise shows the route's own message. */
  lemma SubmitShowsRouteMessage(resp: AdminRoutes.RouteResponse, failure: string, thrown: string, numText: real -> string)
    requires !resp.Listed?
    requires resp.Failure? ==> resp.status >= 400 && resp.message != ""
    ensures var r := SubmitError(ImportPage.Answered(AdminRoutes.Status(resp), Some(AdminRoutes.ResponseBody(resp))),
                                 failure, thrown, numText);
      && (r.None? <==> resp.Created?)
      && (resp.Unauthorized? ==> r == Some("Unauthorized"))
      && (resp.Failure? ==> r == Some(resp.message))
  {
  }

  /** The state `handleSubmit` of each "new" form drives: the loading flag,
      the error line, and the list page it navigates to. */
  class Submission {
    var loading: bool
    var error: string
    var navigated: Option<string>

    constructor ()
      ensures !loading && error == "" && navigated == None
    {
      loading := false;
      error := "";
      navigated := None;
    }

    /** `handleSubmit`: on success the page stays in its loading state while
        the router moves on to `listPath`. */
    method HandleSubmit(reply: ImportPage.HttpReply, failure: string, listPath: string, thrown: string, numText: real -> string)
      modifies this
      ensures match SubmitError(reply, failure, thrown, numText)
        case None => loading && error == "" && navigated == Some(listPath)
        case Some(message) => !loading && error == message && navigated == old(navigated)
    {
      loading := true;
      error := "";
      var outcome := SubmitError(reply, failure, thrown, numText);
      match outcome {
        case None =>
          navigated := Some(listPath);
        case Some(message) =>
          error := message;
          loading := false;
      }
    }
  }
}
