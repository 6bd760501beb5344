/** Values shared by every part of the storefront model: optional values,
    results, JSON documents as `JSON.parse` produces them, JavaScript
    truthiness and JavaScript property lookup. */
module Values {

  /** `undefined` (None) or a defined value. */
  datatype Option<+T> = None | Some(value: T)

  /** The outcome of a step that either yields a value or fails. */
  datatype Result<+T, +E> = Ok(value: T) | Err(error: E)

  /** A JSON document. `JSON.parse` never yields NaN or an infinity, so a
      number is an exact real. */
  datatype Json =
    | JNull
    | JBool(b: bool)
    | JNum(n: real)
    | JStr(s: string)
    | JArr(items: seq<Json>)
    | JObj(fields: map<string, Json>)

  /** JavaScript truthiness of a defined JSON value: `null`, `false`, `0` and
      `""` are falsy, every array and object is truthy. */
  predicate Truthy(v: Json) {
    match v
    case JNull => false
    case JBool(b) => b
    case JNum(n) => n != 0.0
    case JStr(s) => |s| > 0
    case JArr(_) => true
    case JObj(_) => true
  }

  /** Truthiness of a value that may be `undefined` (which is falsy). */
  predicate Present(v: Option<Json>) {
    v.Some? && Truthy(v.value)
  }

  /** The body `{ error: message }` that every route uses for its errors. */
  function ErrorBody(message: string): Json {
    JObj(map["error" := JStr(message)])
  }

  /** What `v[key]` evaluates to in JavaScript when `v` may be `undefined`:
      `undefined`, a value, or a thrown TypeError. */
  datatype Lookup = Undefined | Found(v: Json) | TypeError {
    /** The looked-up value as an optional value, when nothing was thrown. */
    function AsOption(): Option<Json>
      requires !TypeError?
    {
      if Found? then Some(v) else None
    }
  }

  /** `v[key]` for a defined JSON value: reading a property of `null` throws;
      an object yields its field or `undefined`; the model gives the other
      values no named properties. */
  function Member(v: Json, key: string): (r: Lookup)
    ensures r.TypeError? <==> v.JNull?
    ensures r.Found? <==> v.JObj? && key in v.fields
    ensures r.Found? ==> r.v == v.fields[key]
  {
    match v
    case JNull => TypeError
    case JObj(fields) => if key in fields then Found(fields[key]) else Undefined
    case _ => Undefined
  }

  /** `v[key]` is defined and truthy. */
  predicate TruthyMember(v: Json, key: string) {
    Member(v, key).Found? && Truthy(Member(v, key).v)
  }

  /** `l[key]` where `l` is itself the result of a lookup: reading a property
      of `undefined` throws, and a thrown error propagates. */
  function MemberOf(l: Lookup, key: string): (r: Lookup)
    ensures r.Found? <==> l.Found? && l.v.JObj? && key in l.v.fields
    ensures !l.Found? ==> r.TypeError?
  {
    match l
    case Found(v) => Member(v, key)
    case _ => TypeError
  }

  /** A string that is set and non-empty, which is what `!s` rejects for an
      optional string such as an environment variable or a header. */
  predicate NonEmpty(s: Option<string>) {
    s.Some? && |s.value| > 0
  }
}
