/**
 * What the four bulk-import routes share: the per-record verdict, the
 * required-field filter and the text of the per-record error messages.
 */
module ImportCommon {
  import opened Wrappers
  import opened Json
  import opened Text
  import opened Lists

  /** Why one record of an import was not inserted. */
  datatype RecordError =
    | MissingFields(fields: seq<string>)
    | AlreadyExists(id: Value)
    | TechnologiesNotArray
    | ProficiencyOutOfRange
    | StoreFailure(message: string)

  datatype Verdict = Reject(error: RecordError) | Insert(row: Record)

  /** What the loop body decides for one record before touching the store:
      the id to append to `duplicates`, if any, and whether to insert. */
  datatype Decision = Decision(duplicate: Option<Value>, verdict: Verdict)

  /** `requiredFields.filter((field) => !record[field])`. */
  function Missing(required: seq<string>, field: string -> Value): (r: seq<string>)
    ensures forall f :: f in r <==> f in required && !Truthy(field(f))
  {
    Keep(required, f => !Truthy(field(f)))
  }

  /** Nothing is missing exactly when every required field is truthy. */
  lemma NoneMissing(required: seq<string>, field: string -> Value)
    ensures Missing(required, field) == [] <==> forall f :: f in required ==> Truthy(field(f))
  {
    var r := Missing(required, field);
    if r != [] {
      assert r[0] in r;
    }
  }

  /** `record[key] || record[alias]`: the snake_case key wins whenever it is
      truthy, and the camelCase alias is read otherwise. */
  function Aliased(raw: Value, key: string, alias: string): (v: Value)
    ensures Truthy(Get(raw, key)) ==> v == Get(raw, key)
    ensures !Truthy(Get(raw, key)) ==> v == Get(raw, alias)
  {
    Or(Get(raw, key), Get(raw, alias))
  }

  /** The missing fields come in the order of the required list. */
  lemma MissingInOrder(required: seq<string>, more: seq<string>, field: string -> Value)
    ensures Missing(required + more, field) == Missing(required, field) + Missing(more, field)
  {
    KeepAppend(required, more, f => !Truthy(field(f)));
  }

  /** `String(v)` as a template literal renders it. Number formatting is
      JavaScript's own algorithm and is taken as the parameter `numText`. */
  function ValueText(v: Value, numText: real -> string): string
    decreases v, 1
  {
    match v
    case Undefined => "undefined"
    case Null => "null"
    case Bool(b) => if b then "true" else "false"
    case Num(n) => numText(n)
    case Str(s) => s
    case Arr(items) => Join(ElementTexts(v, items, numText), ",")
    case Obj(_) => "[object Object]"
  }

  /** The elements of an array as `Array.prototype.join` renders them:
      `null` and `undefined` become the empty string. */
  function ElementTexts(whole: Value, items: seq<Value>, numText: real -> string): (r: seq<string>)
    requires forall i :: 0 <= i < |items| ==> items[i] < whole
    ensures |r| == |items|
    decreases whole, 0, |items|
  {
    if items == [] then []
    else
      (if Nullish(items[0]) then [""] else [ValueText(items[0], numText)])
      + ElementTexts(whole, items[1..], numText)
  }

  /** The `error` string of an error entry, for the entity name of the route
      (`Project`, `Experience`, `Skill`, `Certification`). */
  function ErrorText(e: RecordError, entity: string, numText: real -> string): string {
    match e
    case MissingFields(fields) => "Missing required fields: " + Join(fields, ", ")
    case AlreadyExists(id) => entity + " with ID '" + ValueText(id, numText) + "' already exists"
    case TechnologiesNotArray => "Technologies must be a non-empty array"
    case ProficiencyOutOfRange => "Proficiency must be a number between 0 and 100"
    case StoreFailure(message) => message
  }
}
