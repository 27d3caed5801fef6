/** The JavaScript values the resolver inspects: parsed JSON documents, template
    inputs and raw module specifications. Only the operations the resolver applies
    to them are modelled: property reads, truthiness and conversion to a string
    inside a template literal. */
module Json {
  import opened Wrappers
  import Strings

  /** A JSON value. Numbers are integers (see README, "Left out"). */
  datatype Json =
    | JNull
    | JBool(b: bool)
    | JNum(n: int)
    | JStr(s: string)
    | JArr(items: seq<Json>)
    | JObj(fields: map<string, Json>)

  /** `obj.key` on a plain object: its own member, or `undefined` (None). */
  function Get(obj: map<string, Json>, key: string): Option<Json> {
    if key in obj then Some(obj[key]) else None
  }

  /** `v?.key`: an object's own member; `undefined` (None) for a missing key, for
      null and for every non-object, because none of the keys the resolver reads
      ("type", "name", "path", "configPath") is a property of strings, numbers,
      booleans, arrays or `Object.prototype`. A plain `v.key` differs only on null,
      where it throws. */
  function Member(v: Json, key: string): (r: Option<Json>)
    ensures r.Some? <==> v.JObj? && key in v.fields
    ensures r.Some? ==> r.value == v.fields[key]
  {
    match v
    case JObj(fields) => Get(fields, key)
    case _ => None
  }

  /** JavaScript truthiness: false, 0, "" and null are falsy; arrays and objects never are. */
  predicate Truthy(v: Json) {
    match v
    case JNull => false
    case JBool(b) => b
    case JNum(n) => n != 0
    case JStr(s) => s != ""
    case JArr(_) => true
    case JObj(_) => true
  }

  /** Truthiness of a value that may be `undefined`. */
  predicate TruthyOption(v: Option<Json>) {
    v.Some? && Truthy(v.value)
  }

  /** Truthiness of an optional string field: `undefined` and "" are falsy. */
  predicate TruthyString(s: Option<string>) {
    s.Some? && s.value != ""
  }

  /** `${v}` in a template literal: `String(v)`. An array renders its elements
      joined by ",", with null elements rendered as "". */
  function ToJsString(v: Json): string
    decreases v
  {
    match v
    case JNull => "null"
    case JBool(b) => if b then "true" else "false"
    case JNum(n) => Strings.IntToString(n)
    case JStr(s) => s
    case JArr(items) =>
      Strings.Join(seq(|items|, i requires 0 <= i < |items| =>
                         if items[i].JNull? then "" else ToJsString(items[i])), ",")
    case JObj(_) => "[object Object]"
  }

  /** `${v}` for a value that may be `undefined`. */
  function OptionToJsString(v: Option<Json>): string {
    match v
    case None => "undefined"
    case Some(x) => ToJsString(x)
  }
}
