/** Value shapes shared by the whole model: optional values, the JavaScript
    distinction between an omitted and a null property, and the JSON values a
    request body can carry. */
module Values {
  import Text

  datatype Option<+T> = None | Some(value: T) {
    function GetOr(default: T): T {
      match this
      case Some(v) => v
      case None => default
    }
  }

  datatype Result<+R, +E> = Ok(value: R) | Err(error: E)

  /** A JavaScript property that may be left out (`undefined`), set to `null`,
      or set to a value. The ORM skips `undefined` in an update and writes
      NULL for `null`. */
  datatype Maybe<+T> = Undefined | Null | Value(value: T)

  /** A JSON value as a request body delivers it; a key that is absent reads as
      JUndefined. Numbers are integers in this model. */
  datatype Json =
    | JUndefined
    | JNull
    | JBool(b: bool)
    | JNumber(n: int)
    | JString(s: string)
    | JArray(items: seq<Json>)
    | JObject(members: map<string, Json>)

  /** JavaScript truthiness of a JSON value. */
  predicate Truthy(j: Json) {
    match j
    case JUndefined => false
    case JNull => false
    case JBool(b) => b
    case JNumber(n) => n != 0
    case JString(s) => s != ""
    case JArray(_) => true
    case JObject(_) => true
  }

  /** `a || b` when `a` is a possibly empty string. */
  function OrElse(a: Option<string>, b: string): (r: string)
    ensures a.Some? && a.value != "" ==> r == a.value
    ensures (a.None? || a.value == "") ==> r == b
  {
    if a.Some? && a.value != "" then a.value else b
  }

  /** `String(j)`: the text a template literal interpolates for a JSON value.
      Array elements that are null or undefined render as empty strings. */
  function JsString(j: Json): (r: string)
    ensures j.JString? ==> r == j.s
    ensures j.JUndefined? ==> r == "undefined"
    ensures j.JNull? ==> r == "null"
  {
    match j
    case JUndefined => "undefined"
    case JNull => "null"
    case JBool(b) => if b then "true" else "false"
    case JNumber(n) => Text.IntToString(n)
    case JString(s) => s
    case JArray(items) =>
      Text.Join(seq(|items|, i requires 0 <= i < |items| =>
                      if items[i].JUndefined? || items[i].JNull? then "" else JsString(items[i])), ',')
    case JObject(_) => "[object Object]"
  }

  /** What a handler's `await request.json()` and destructuring meet: a body
      that does not parse (the call throws), the JSON `null` (destructuring it
      throws), or the named properties of what was parsed. A body that is
      not an object has no named properties. */
  datatype RequestBody = Unparsable | NullBody | Fields(fields: map<string, Json>)

  /** A destructured property: JUndefined when it is absent. */
  function Field(fields: map<string, Json>, name: string): (j: Json)
    ensures name !in fields ==> j == JUndefined
    ensures name in fields ==> j == fields[name]
  {
    if name in fields then fields[name] else JUndefined
  }

  /** `j?.name`: a property of an object; anything else has none. */
  function Member(j: Json, name: string): (r: Json)
    ensures !j.JObject? ==> r == JUndefined
    ensures j.JObject? ==> r == Field(j.members, name)
  {
    if j.JObject? then Field(j.members, name) else JUndefined
  }

  /** `v?.trim()` for an optional text property: absent and null give no
      value, a string gives its trimmed form, and anything else has no `trim`
      method, so the call throws (Err). */
  function OptionalTrim(v: Json): (r: Result<Option<string>, ()>)
    ensures (v.JUndefined? || v.JNull?) <==> r == Ok(None)
    ensures v.JString? <==> r.Ok? && r.value.Some?
    ensures v.JString? ==> r == Ok(Some(Text.Trim(v.s)))
  {
    match v
    case JUndefined => Ok(None)
    case JNull => Ok(None)
    case JString(s) => Ok(Some(Text.Trim(s)))
    case _ => Err(())
  }
}
