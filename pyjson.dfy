/** The Python values `json.loads` produces, with the two operations the
    handler applies to them: `dict.get` with a default and truthiness. */
module PyJson {

  datatype Option<T> = None | Some(value: T)

  /** A decoded JSON document. Objects are dictionaries; their key order
      plays no part in the handler (see `SongElements`). */
  datatype Json =
    | JNull
    | JBool(b: bool)
    | JNum(n: real)
    | JStr(str: string)
    | JArr(items: seq<Json>)
    | JObj(fields: map<string, Json>)

  /** `d.get(key, default)` on a dictionary. */
  function Get(fields: map<string, Json>, key: string, default: Json): (r: Json)
    ensures key in fields ==> r == fields[key]
    ensures key !in fields ==> r == default
  {
    if key in fields then fields[key] else default
  }

  /** Python truthiness: `None`, `False`, zero and empty containers are
      false, everything else is true. */
  predicate Truthy(j: Json) {
    match j
    case JNull => false
    case JBool(b) => b
    case JNum(n) => n != 0.0
    case JStr(s) => s != []
    case JArr(xs) => xs != []
    case JObj(m) => m != map[]
  }

  /** What `for song in v` runs over, or None when iterating `v` fails
      before any element is used as a dictionary. A list yields its
      elements. An empty string or empty dictionary yields nothing. A
      non-empty string or dictionary yields strings (characters, keys) whose
      first one makes `song.get` raise, which the handler treats exactly as
      a value that cannot be iterated at all. */
  function SongElements(v: Json): (r: Option<seq<Json>>)
    ensures v.JArr? ==> r == Some(v.items)
    ensures r.Some? && !v.JArr? ==> r == Some([])
    ensures r.Some? <==> v.JArr? || ((v.JStr? || v.JObj?) && !Truthy(v))
  {
    match v
    case JArr(xs) => Some(xs)
    case JStr(s) => if s == [] then Some([]) else None
    case JObj(m) => if m == map[] then Some([]) else None
    case _ => None
  }
}
