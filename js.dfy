/**
 * The JavaScript values the dispatch pipeline observes: request parameters,
 * parsed reflect replies and function results.
 */
module Js {
  import opened Wrappers

  type Bytes = seq<bv8>

  /** A JavaScript value. Numbers are integers here; `Function` stands for any callable. */
  datatype JsValue =
    | Undefined
    | Null
    | Bool(b: bool)
    | Num(n: int)
    | Str(s: string)
    | Buffer(bytes: Bytes)
    | Function
    | Array(items: seq<JsValue>)
    | Object(fields: map<string, JsValue>)

  /** The `typeof` operator: `null`, Buffers, arrays and plain objects all report "object". */
  function TypeOf(v: JsValue): (t: string)
    ensures t == "object" <==> v.Null? || v.Buffer? || v.Array? || v.Object?
  {
    match v
    case Undefined => "undefined"
    case Bool(_) => "boolean"
    case Num(_) => "number"
    case Str(_) => "string"
    case Function => "function"
    case _ => "object"
  }

  /**
   * Property access `v.key`, reading own data properties only.
   * None means the access throws a TypeError (`undefined.key`, `null.key`).
   */
  function GetProperty(v: JsValue, key: string): (r: Option<JsValue>)
    ensures r.None? <==> v.Undefined? || v.Null?
    ensures r.Some? && r.value != Undefined ==> v.Object? && key in v.fields && r.value == v.fields[key]
    ensures v.Object? && key in v.fields ==> r == Some(v.fields[key])
  {
    match v
    case Undefined => None
    case Null => None
    case Object(fields) => Some(if key in fields then fields[key] else Undefined)
    case _ => Some(Undefined)
  }

  /** Truthiness of a string-valued field that may be absent. */
  predicate Given(s: Option<string>) {
    s.Some? && s.value != ""
  }

  /** The expression `s || fallback` for a string-valued field that may be absent. */
  function Or(s: Option<string>, fallback: string): string {
    if Given(s) then s.value else fallback
  }
}
