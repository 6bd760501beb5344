/** `GET /api/flex/price-mapping`: serve the stored name → price-id mapping
    to the browser, with notes and unusable values removed. */
module PriceMappingRoute {
  import opened Values
  import opened Http

  /** The state of `src/data/price-mapping.json` as the route finds it: not
      there, there but unreadable or not JSON, or there with JSON content. */
  datatype MappingFile = Absent | Unreadable | Stored(content: Json)

  const NotFoundMessage := "Price mapping not found. Run /api/flex/init first."
  const LoadFailedMessage := "Failed to load price mapping"

  /** An entry the route keeps: not the `note` key, and a non-empty string. */
  predicate Keeps(key: string, value: Json) {
    key != "note" && value.JStr? && |value.s| > 0
  }

  /** `cleanMapping`: the entries of the parsed mapping whose key is not
      `note` and whose value is a non-empty string. */
  function Clean(m: map<string, Json>): (r: map<string, string>)
    ensures "note" !in r
    ensures forall k :: k in r ==> |r[k]| > 0
    ensures forall k :: k in r ==> k in m && m[k] == JStr(r[k])
    ensures forall k :: k in m && Keeps(k, m[k]) ==> k in r
  {
    map k | k in m && Keeps(k, m[k]) :: m[k].s
  }

  /** A string-valued mapping as the JSON object it is sent as. */
  function AsJson(m: map<string, string>): (j: map<string, Json>)
    ensures j.Keys == m.Keys
    ensures forall k :: k in m ==> j[k] == JStr(m[k])
  {
    map k | k in m :: JStr(m[k])
  }

  /** `Object.entries(priceMapping)` as a map. `Object.entries(null)` throws
      (None); the model gives values other than objects no entries. */
  function Entries(v: Json): (r: Option<map<string, Json>>)
    ensures r.None? <==> v.JNull?
    ensures v.JObj? ==> r == Some(v.fields)
  {
    match v
    case JNull => None
    case JObj(fields) => Some(fields)
    case _ => Some(map[])
  }

  /** The route: 404 when the file is absent, 500 when it cannot be read,
      parsed or enumerated, otherwise 200 with the cleaned mapping. */
  function GetPriceMapping(file: MappingFile): (r: Response)
    ensures file.Absent? <==> r == ErrorResponse(404, NotFoundMessage)
    ensures r.status == 500 <==> r == ErrorResponse(500, LoadFailedMessage)
    ensures r.status == 500 <==> file.Unreadable? || file == Stored(JNull)
    ensures file.Stored? && file.content.JObj? ==>
      r == Response(200, JObj(AsJson(Clean(file.content.fields))))
    ensures r.status in {200, 404, 500}
  {
    match file
    case Absent => ErrorResponse(404, NotFoundMessage)
    case Unreadable => ErrorResponse(500, LoadFailedMessage)
    case Stored(content) =>
      match Entries(content)
      case None => ErrorResponse(500, LoadFailedMessage)
      case Some(m) => Response(200, JObj(AsJson(Clean(m))))
  }

  /** Cleaning is idempotent: cleaning the served mapping changes nothing. */
  lemma CleanIdempotent(m: map<string, Json>)
    ensures Clean(AsJson(Clean(m))) == Clean(m)
  {
  }

  /** A mapping that already holds only non-empty strings under keys other
      than `note` is served unchanged. */
  lemma CleanKeepsWellFormed(m: map<string, string>)
    requires "note" !in m
    requires forall k :: k in m ==> |m[k]| > 0
    ensures Clean(AsJson(m)) == m
  {
  }

  /** Served mappings contain exactly the usable entries: a key is served
      iff it is not `note` and the file stores a non-empty string for it. */
  lemma ServedKeys(m: map<string, Json>, key: string)
    ensures var r := GetPriceMapping(Stored(JObj(m)));
      r.status == 200 && r.body.JObj?
      && (key in r.body.fields <==> key in m && Keeps(key, m[key]))
  {
  }
}
