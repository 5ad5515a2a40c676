/** What a probe observes: the outcome of one `requests` call, and the
    Python operations the scripts apply to a parsed JSON body. The network
    itself is not modelled; an outcome is an input. */
module Http {
  import opened Wrappers
  import Text

  /** A parsed JSON document. */
  datatype Json =
    | JNull
    | JBool(b: bool)
    | JNumber(n: int)
    | JString(s: string)
    | JList(items: seq<Json>)
    | JObject(fields: map<string, Json>)

  /** A received response: status code, headers (names in lower case, as
      `requests` looks them up case-insensitively), the text body, and what
      `response.json()` yields (None when the body is not JSON). */
  datatype Response = Response(status: nat, headers: map<string, string>, text: string, json: Option<Json>)

  /** One `requests` call: a response, or a raised RequestException
      (connection refused, timeout, ...) with its message. */
  datatype Outcome = Responded(response: Response) | Raised(error: string)

  const OK: nat := 200
  const NOT_FOUND: nat := 404
  const TOO_MANY_REQUESTS: nat := 429

  /** The call returned a response with the given status code. */
  predicate HasStatus(o: Outcome, code: nat) {
    o.Responded? && o.response.status == code
  }

  /** `response.headers.get(name)`. */
  function Header(r: Response, name: string): Option<string> {
    if name in r.headers then Some(r.headers[name]) else None
  }

  /** `response.headers.get('content-type', '')`. */
  function ContentType(r: Response): string {
    Header(r, "content-type").GetOr("")
  }

  /** Python `key in value` for a parsed JSON value; None when Python raises
      TypeError (numbers, booleans, null). */
  function Member(key: string, value: Json): (r: Option<bool>)
    ensures r.None? <==> value.JNull? || value.JBool? || value.JNumber?
    ensures value.JList? ==> (r == Some(true) <==> exists i :: 0 <= i < |value.items| && value.items[i] == JString(key))
  {
    match value
    case JObject(fields) => Some(key in fields)
    case JList(items) => Some(JString(key) in items)
    case JString(s) => Some(Text.Contains(s, key))
    case _ => None
  }

  /** Python `value.get(key, default)`; None when `value` is not a dict
      (AttributeError). */
  function GetOr(value: Json, key: string, default: Json): (r: Option<Json>)
    ensures r.None? <==> !value.JObject?
    ensures Index(value, key).Some? ==> r == Index(value, key)
    ensures value.JObject? && Index(value, key).None? ==> r == Some(default)
  {
    if value.JObject? then Some(if key in value.fields then value.fields[key] else default)
    else None
  }

  /** Python `value[key]` with a string key; None when it raises (KeyError
      on a dict without the key, TypeError on anything else). */
  function Index(value: Json, key: string): (r: Option<Json>)
    ensures r.Some? <==> value.JObject? && Member(key, value) == Some(true)
    ensures r.Some? ==> r.value in value.fields.Values
  {
    if value.JObject? && key in value.fields then Some(value.fields[key]) else None
  }

  /** Python `len(value)`; None when it raises TypeError. */
  function Len(value: Json): (r: Option<nat>)
    ensures r.None? <==> value.JNull? || value.JBool? || value.JNumber?
    ensures value.JObject? ==> r == Some(|value.fields.Keys|)
  {
    match value
    case JString(s) => Some(|s|)
    case JList(items) => Some(|items|)
    case JObject(fields) => Some(|fields|)
    case _ => None
  }

  /** The body parsed as JSON into a dict that has `key`. */
  predicate HasField(r: Response, key: string) {
    r.json.Some? && r.json.value.JObject? && key in r.json.value.fields
  }
}
