/** Parsed URLs and JSON values. Parsing itself (`new URL(s)`, `JSON.parse(s)`) is not
    modelled: the components take the parser as a function parameter, so that every
    property proved here holds whatever the parser returns. */
module Web {
  import opened Strings

  /** The parts of a WHATWG URL record the source reads. `scheme` is `url.protocol`
      (with its colon, as in "https:"), `path` is `url.pathname`, `query` is
      `url.search` and `fragment` is `url.hash`; `port` is empty for a default port. */
  datatype Url = Url(scheme: string, hostname: string, port: string, path: string,
                     query: string, fragment: string)

  /** The parser every component is given: `None` where `new URL(s)` throws. */
  type UrlParser = string -> Option<Url>

  /** `url.host`: the host name with its port, if any. */
  function HostPort(u: Url): string
  {
    if u.port == "" then u.hostname else u.hostname + ":" + u.port
  }

  /** `h.replace(/^www\./, '')` */
  function StripWww(h: string): (r: string)
    ensures !StartsWith(h, "www.") ==> r == h
    ensures StartsWith(h, "www.") ==> h == "www." + r
  {
    if StartsWith(h, "www.") then h[4..] else h
  }

  /** `hostOf(u)`: the host name without a leading "www.", or null when `u` does not parse. */
  function HostOf(parse: UrlParser, raw: string): Option<string>
  {
    match parse(raw)
    case None => None
    case Some(u) => Some(StripWww(u.hostname))
  }

  /** `${u.protocol}//${u.host}`: the key the aggregator gives a non-social URL. */
  function OriginKey(u: Url): string
  {
    u.scheme + "//" + HostPort(u)
  }

  /** `${u.protocol}//${u.host}${u.pathname}`: the URL with its query and fragment dropped. */
  function PathKey(u: Url): string
  {
    OriginKey(u) + u.path
  }

  /** The URL with query and fragment dropped, an empty path read as "/", and a trailing
      slash added when missing (the website exclusion and target de-duplication key). */
  function SlashKey(u: Url): (r: string)
    ensures EndsWith(r, "/")
  {
    var s := OriginKey(u) + (if u.path == "" then "/" else u.path);
    if EndsWith(s, "/") then s else s + "/"
  }

  /** A JSON value as `JSON.parse` returns it; numbers are kept as integers. */
  datatype Json =
    | JNull
    | JBool(b: bool)
    | JNum(n: int)
    | JStr(s: string)
    | JArr(items: seq<Json>)
    | JObj(fields: map<string, Json>)

  /** JavaScript falsiness of a JSON value (`!v`). */
  predicate Falsy(j: Json)
  {
    j.JNull? || j == JBool(false) || j == JNum(0) || j == JStr("")
  }

  /** `{ ...v }` on a stored column that passed the `v && typeof v === 'object'` test:
      an object's own fields, an array's items under the keys "0", "1", …; any other
      value gives `{}`. */
  function Spread(v: Json): (r: map<string, Json>)
    ensures v.JObj? ==> r == v.fields
    ensures v.JArr? ==> forall i :: 0 <= i < |v.items| ==> NatToString(i) in r && r[NatToString(i)] == v.items[i]
    ensures v.JArr? ==> forall k :: k in r ==> exists i :: 0 <= i < |v.items| && k == NatToString(i)
    ensures !v.JObj? && !v.JArr? ==> r == map[]
  {
    match v
    case JObj(fields) => fields
    case JArr(items) =>
      SpreadKeysDistinct(items);
      map i | 0 <= i < |items| :: NatToString(i) := items[i]
    case _ => map[]
  }

  lemma SpreadKeysDistinct(items: seq<Json>)
    ensures forall i, j :: 0 <= i < |items| && 0 <= j < |items| && NatToString(i) == NatToString(j) ==> i == j
  {
    forall i, j | 0 <= i < |items| && 0 <= j < |items| && NatToString(i) == NatToString(j)
      ensures i == j
    {
      if i != j {
        NatToStringInjective(i, j);
      }
    }
  }

  /** The answer of a `.single()` row lookup: the row, and the error the database client
      reported (a missing row comes back as an error with its own message). */
  datatype SingleRow<T> = SingleRow(row: Option<T>, error: Option<string>)

  /** `bpErr || !bp` */
  predicate RowMissing<T>(a: SingleRow<T>)
  {
    a.error.Some? || a.row.None?
  }

  /** `bpErr?.message || 'Business not found'`: the client's message when it is not empty. */
  function NotFoundMessage<T>(a: SingleRow<T>): (m: string)
    ensures m != ""
    ensures a.error.Some? && a.error.value != "" ==> m == a.error.value
    ensures a.error.None? || a.error.value == "" ==> m == "Business not found"
  {
    if a.error.Some? && a.error.value != "" then a.error.value else "Business not found"
  }

  /** The JSON parser the components are given: `None` where `JSON.parse(s)` throws. */
  type JsonParser = string -> Option<Json>
}
