/** JSON records as the Notion client returns them (Python dicts, lists,
    strings, numbers, booleans and None), and the Python operations the core
    applies to them, each with the exception it raises on a record of the
    wrong shape. */
module PyJson {

  import opened Wrappers
  import PyStr

  /** A decoded JSON value; `JNull` is Python's `None`. */
  datatype Json =
    | JObj(fields: map<string, Json>)
    | JArr(items: seq<Json>)
    | JStr(s: string)
    | JNum(n: real)
    | JBool(b: bool)
    | JNull

  /** The `{}` used as a default in `.get(key, {})`. */
  const EmptyObj: Json := JObj(map[])

  /** Python truthiness: `None`, `False`, zero and empty containers are false. */
  predicate Truthy(j: Json) {
    match j
    case JObj(m) => m != map[]
    case JArr(a) => a != []
    case JStr(s) => s != ""
    case JNum(n) => n != 0.0
    case JBool(b) => b
    case JNull => false
  }

  /** `j[key]` with a string key. */
  function Index(j: Json, key: string): Result<Json> {
    match j
    case JObj(m) => if key in m then Ok(m[key]) else Err(KeyError)
    case _ => Err(TypeError)
  }

  /** `j.get(key, default)`; only dicts have `.get`. */
  function Get(j: Json, key: string, default: Json): Result<Json> {
    match j
    case JObj(m) => Ok(if key in m then m[key] else default)
    case _ => Err(AttributeError)
  }

  /** The dict behind `j`, for a chain of `.get` calls on it; a `.get` on
      anything else raises AttributeError. */
  function AsDict(j: Json): Result<map<string, Json>> {
    match j
    case JObj(m) => Ok(m)
    case _ => Err(AttributeError)
  }

  /** `d.get(key, default)` on a known dict. */
  function Lookup(m: map<string, Json>, key: string, default: Json): Json {
    if key in m then m[key] else default
  }

  /** `j[i]` with an integer index: a list element, a one-character string,
      or a KeyError on a dict whose keys are strings. */
  function At(j: Json, i: nat): Result<Json> {
    match j
    case JArr(a) => if i < |a| then Ok(a[i]) else Err(IndexError)
    case JStr(s) => if i < |s| then Ok(JStr([s[i]])) else Err(IndexError)
    case JObj(_) => Err(KeyError)
    case _ => Err(TypeError)
  }

  /** Python's `key in j` for a string `key`. */
  function HasKey(j: Json, key: string): Result<bool> {
    match j
    case JObj(m) => Ok(key in m)
    case JArr(a) => Ok(JStr(key) in a)
    case JStr(s) => Ok(PyStr.Contains(s, key))
    case _ => Err(TypeError)
  }

  /** `j.replace("-", "")`; only strings have `.replace`. */
  function RemoveDashes(j: Json): Result<string> {
    match j
    case JStr(s) => Ok(PyStr.RemoveDashes(s))
    case _ => Err(AttributeError)
  }

  /** `j.lower()`; only strings have `.lower`. */
  function Lower(j: Json): Result<string> {
    match j
    case JStr(s) => Ok(PyStr.Lower(s))
    case _ => Err(AttributeError)
  }

  /** Values Python accepts as dict keys. */
  predicate Hashable(j: Json) {
    !j.JObj? && !j.JArr?
  }

  /** Python's `int(j)`. */
  function IntOf(j: Json): Result<int> {
    match j
    case JNum(n) => Ok(PyStr.Truncate(n))
    case JBool(b) => Ok(if b then 1 else 0)
    case JStr(s) => PyStr.ParseInt(s)
    case _ => Err(TypeError)
  }
}
