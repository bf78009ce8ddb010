/**
 * Untyped JSON as the route handlers and client pages see it, with JavaScript's
 * notion of truthiness, so that `!x` and `x || y` in the source read as
 * `!Truthy(x)` and `Or(x, y)` here.
 */
module Json {

  /** A JavaScript value that can come out of `JSON.parse`, plus `undefined`
      (the value of a missing property). Numbers are reals: JSON payloads carry
      fractional values such as `years_of_experience: 5.5`. */
  datatype Value =
    | Undefined
    | Null
    | Bool(b: bool)
    | Num(n: real)
    | Str(s: string)
    | Arr(items: seq<Value>)
    | Obj(fields: map<string, Value>)

  /** A row as sent to or returned by the database: a JSON object. */
  type Record = map<string, Value>

  /** JavaScript truthiness: `0`, `''`, `null`, `undefined` and `false` are falsy;
      every array and object, even an empty one, is truthy. */
  predicate Truthy(v: Value) {
    match v
    case Undefined => false
    case Null => false
    case Bool(b) => b
    case Num(n) => n != 0.0
    case Str(s) => s != ""
    case Arr(_) => true
    case Obj(_) => true
  }

  /** `a || b`. */
  function Or(a: Value, b: Value): Value {
    if Truthy(a) then a else b
  }

  /** `null` or `undefined`: reading a property of such a value throws a TypeError. */
  predicate Nullish(v: Value) {
    v.Undefined? || v.Null?
  }

  /** The property read `v.key` on a value that is not nullish: the field of an
      object, and `undefined` for a missing key or for any other kind of value. */
  function Get(v: Value, key: string): Value {
    if v.Obj? && key in v.fields then v.fields[key] else Undefined
  }

  /** `Array.isArray(v) && v.length > 0`. */
  predicate IsNonEmptyArray(v: Value) {
    v.Arr? && |v.items| > 0
  }

  /** The value of a column of a row, `undefined` when the row lacks it. */
  function Column(r: Record, key: string): Value {
    if key in r then r[key] else Undefined
  }

  lemma OrProperties(a: Value, b: Value)
    ensures Truthy(Or(a, b)) <==> Truthy(a) || Truthy(b)
    ensures Truthy(a) ==> Or(a, b) == a
    ensures !Truthy(a) ==> Or(a, b) == b
  {
  }
}
