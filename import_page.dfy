/**
 * `JsonImportPage`, the client page in front of the four import routes: it
 * reads JSON from a text box or a file, shapes it into the body the route
 * expects, sends it, and shows the result or an error. JSON parsing and the
 * server are given to `HandleImport` as functions.
 */
module ImportPage {
  import opened Wrappers
  import opened Json
  import opened Text
  import ImportCommon
  import ImportPipeline

  const InvalidJson := "Invalid JSON format. Please check your input."

  function InvalidFormat(plural: string): string {
    "Invalid format. Expected an array of " + plural + " or { " + plural + ": [...] }"
  }

  /** The body `handleImport` sends for the parsed input (`None` when
      `JSON.parse` throws): a top-level array is wrapped as `{ <plural>: [...] }`,
      an object holding a `<plural>` array is sent as it is, and either way
      `skipDuplicates` is set from the checkbox. `thrown` is the message of
      the TypeError raised by reading a property of `null`. */
  function ShapePayload(parsed: Option<Value>, plural: string, skip: bool, thrown: string): (r: Result<Value, string>)
    ensures parsed.None? ==> r == Err(InvalidJson)
    ensures parsed.Some? && Nullish(parsed.value) ==> r == Err(thrown)
    ensures parsed.Some? && parsed.value.Arr? ==>
      r == Ok(Obj(map[plural := parsed.value, "skipDuplicates" := Bool(skip)]))
    ensures parsed.Some? && parsed.value.Obj? ==>
      (Get(parsed.value, plural).Arr? <==> r.Ok?)
    ensures parsed.Some? && parsed.value.Obj? && Get(parsed.value, plural).Arr? ==>
      r == Ok(Obj(parsed.value.fields["skipDuplicates" := Bool(skip)]))
    ensures parsed.Some? && !Nullish(parsed.value) && !parsed.value.Arr? && !Get(parsed.value, plural).Arr? ==>
      r == Err(InvalidFormat(plural))
    ensures r.Ok? ==> r.value.Obj? && Get(r.value, "skipDuplicates") == Bool(skip)
  {
    match parsed
    case None => Err(InvalidJson)
    case Some(v) =>
      if v.Arr? then Ok(Obj(map[plural := v]["skipDuplicates" := Bool(skip)]))
      else if Nullish(v) then Err(thrown)
      else if Truthy(Get(v, plural)) && Get(v, plural).Arr? then Ok(Obj(v.fields["skipDuplicates" := Bool(skip)]))
      else Err(InvalidFormat(plural))
  }

  /** Every body the page sends passes the route's shape check, carries the
      records the user gave, and sets the route's `skipDuplicates` to the
      checkbox. */
  lemma ShapedPayloadAccepted(parsed: Option<Value>, kind: ImportPipeline.Kind, skip: bool, thrown: string)
    requires ImportPipeline.Plural(kind) != "skipDuplicates"
    ensures var r := ShapePayload(parsed, ImportPipeline.Plural(kind), skip, thrown);
      r.Ok? ==>
        && ImportPipeline.HasRecordArray(r.value, kind)
        && ImportPipeline.SkipDuplicates(r.value) == skip
        && (parsed.value.Arr? ==> Get(r.value, ImportPipeline.Plural(kind)) == parsed.value)
        && (parsed.value.Obj? ==> Get(r.value, ImportPipeline.Plural(kind)) == Get(parsed.value, ImportPipeline.Plural(kind)))
  {
  }

  /** `res.ok`. */
  predicate IsOk(status: int) {
    200 <= status <= 299
  }

  /** What `fetch` gave the page: it threw, or a status with the body,
      `None` when `res.json()` throws. */
  datatype HttpReply = Unreachable | Answered(status: int, body: Option<Value>)

  /** The import result the page shows, or the message it shows instead.
      A `null` body is first stored as the result and then throws at
      `data.success`, so the page ends with no result and that error. */
  function ReadReply(plural: string, reply: HttpReply, thrown: string, numText: real -> string): (r: Result<Value, string>)
    ensures r.Ok? <==> reply.Answered? && reply.body.Some? && IsOk(reply.status) && !Nullish(reply.body.value)
    ensures r.Ok? ==> r.value == reply.body.value
    ensures reply.Answered? && reply.body.Some? && Nullish(reply.body.value) ==> r == Err(thrown)
    ensures reply.Answered? && reply.body.Some? && !IsOk(reply.status) && !Nullish(reply.body.value) &&
            !Truthy(Get(reply.body.value, "error")) ==>
      r == Err("Failed to import " + plural)
    ensures reply.Answered? && reply.body.Some? && !IsOk(reply.status) && Get(reply.body.value, "error").Str? &&
            Get(reply.body.value, "error").s != "" ==>
      r == Err(Get(reply.body.value, "error").s)
  {
    match reply
    case Unreachable => Err(thrown)
    case Answered(status, body) =>
      if body.None? then Err(thrown)
      else if !IsOk(status) && status != 207 then
        if Nullish(body.value) then Err(thrown)
        else Err(ImportCommon.ValueText(Or(Get(body.value, "error"), Str("Failed to import " + plural)), numText))
      else if Nullish(body.value) then Err(thrown)
      else Ok(body.value)
  }

  /** Against the route, the page shows the result for a finished import
      (201 and 207) and the route's own message for every other answer
      (401 and 400). */
  lemma RouteAnswersRead(kind: ImportPipeline.Kind, resp: ImportPipeline.ImportResponse, details: string,
                         thrown: string, numText: real -> string)
    ensures var r := ReadReply(ImportPipeline.Plural(kind),
                               Answered(ImportPipeline.Status(resp), Some(ImportPipeline.ResponseJson(kind, resp, details, numText))),
                               thrown, numText);
      && (r.Ok? <==> resp.Imported?)
      && (resp.Imported? ==> r.value == ImportPipeline.ResultJson(kind, resp.result, numText))
      && (resp == ImportPipeline.Unauthorized ==> r == Err("Unauthorized"))
      && (resp == ImportPipeline.ParseFailure ==> r == Err("Failed to parse import data"))
      && (resp.InvalidFormat? && resp.message != "" ==> r == Err(resp.message))
  {
  }

  /** `v > 0` in JavaScript: the value is converted to a number first.
      `stringToNumber` is JavaScript's string-to-number conversion (`None`
      for `NaN`); an array converts through its `join(",")` text, and an
      object through "[object Object]", which is `NaN`. */
  predicate GreaterThanZero(v: Value, stringToNumber: string -> Option<real>, numText: real -> string) {
    match v
    case Undefined => false
    case Null => false
    case Bool(b) => b
    case Num(n) => n > 0.0
    case Str(s) => stringToNumber(s).Some? && stringToNumber(s).value > 0.0
    case Arr(_) =>
      var t := ImportCommon.ValueText(v, numText);
      stringToNumber(t).Some? && stringToNumber(t).value > 0.0
    case Obj(_) => false
  }

  /** `data.success && data.imported > 0`. */
  predicate ShouldRedirect(data: Value, stringToNumber: string -> Option<real>, numText: real -> string) {
    Truthy(Get(data, "success")) && GreaterThanZero(Get(data, "imported"), stringToNumber, numText)
  }

  /** The page moves on to the list exactly when the import had no failure
      and inserted at least one record. */
  lemma RedirectExactlyOnCleanImport(kind: ImportPipeline.Kind, r: ImportPipeline.ImportResult,
                                     stringToNumber: string -> Option<real>, numText: real -> string)
    ensures ShouldRedirect(ImportPipeline.ResultJson(kind, ImportPipeline.Finish(r), numText), stringToNumber, numText)
            <==> r.failed == 0 && r.imported > 0
  {
  }

  /** A file chosen in the file input: its MIME type and its text. */
  datatype File = File(mime: string, content: string)

  /** The label of the import button. */
  function ImportLabel(loading: bool, plural: string): (s: string)
    ensures loading ==> s == "Importing..."
    ensures !loading ==> |s| == 7 + |plural|
    ensures !loading && plural != "" ==> s[..7] == "Import " && s[7] == UpperChar(plural[0]) && s[8..] == plural[1..]
  {
    if loading then "Importing..." else "Import " + Capitalize(plural)
  }

  class Page {
    const plural: string
    const redirectPath: string
    var loading: bool
    var jsonInput: string
    var result: Option<Value>
    var error: string
    var skipDuplicates: bool
    /** The path of the redirect `setTimeout` has scheduled, if any. */
    var redirect: Option<string>

    constructor (plural: string, redirectPath: string)
      ensures this.plural == plural && this.redirectPath == redirectPath
      ensures !loading && jsonInput == "" && result == None && error == "" && skipDuplicates && redirect == None
    {
      this.plural := plural;
      this.redirectPath := redirectPath;
      loading := false;
      jsonInput := "";
      result := None;
      error := "";
      skipDuplicates := true;
      redirect := None;
    }

    /** `disabled={loading || !jsonInput}` of the import button, negated. */
    predicate CanImport()
      reads this
    {
      !loading && jsonInput != ""
    }

    /** `handleFileUpload`, with the reader's load taken as immediate. */
    method HandleFileUpload(file: Option<File>)
      modifies this
      ensures file.None? ==> jsonInput == old(jsonInput) && error == old(error)
      ensures file.Some? && file.value.mime != "application/json" ==>
        jsonInput == old(jsonInput) && error == "Please upload a valid JSON file"
      ensures file.Some? && file.value.mime == "application/json" ==>
        jsonInput == file.value.content && error == ""
      ensures loading == old(loading) && result == old(result) && skipDuplicates == old(skipDuplicates) && redirect == old(redirect)
    {
      if file.None? {
        return;
      }
      if file.value.mime != "application/json" {
        error := "Please upload a valid JSON file";
        return;
      }
      jsonInput := file.value.content;
      error := "";
    }

    /** `handleImport`. `parse` is `JSON.parse` (`None` when it throws),
        `send` the server's answer to a body, `stringToNumber` the conversion
        `data.imported > 0` applies to text. */
    method HandleImport(parse: string -> Option<Value>, send: Value -> HttpReply, thrown: string,
                        stringToNumber: string -> Option<real>, numText: real -> string)
      modifies this
      ensures !loading
      ensures jsonInput == old(jsonInput) && skipDuplicates == old(skipDuplicates)
      ensures match ShapePayload(parse(jsonInput), plural, skipDuplicates, thrown)
        case Err(message) => error == message && result == None && redirect == old(redirect)
        case Ok(payload) =>
          match ReadReply(plural, send(payload), thrown, numText)
          case Err(message) => error == message && result == None && redirect == old(redirect)
          case Ok(data) =>
            && error == "" && result == Some(data)
            && redirect == if ShouldRedirect(data, stringToNumber, numText) then Some(redirectPath) else old(redirect)
    {
      loading := true;
      error := "";
      result := None;
      var shaped := ShapePayload(parse(jsonInput), plural, skipDuplicates, thrown);
      match shaped {
        case Err(message) =>
          error := message;
        case Ok(payload) =>
          var read := ReadReply(plural, send(payload), thrown, numText);
          match read {
            case Err(message) =>
              error := message;
            case Ok(data) =>
              result := Some(data);
              if ShouldRedirect(data, stringToNumber, numText) {
                redirect := Some(redirectPath);
              }
          }
      }
      loading := false;
    }
  }
}
