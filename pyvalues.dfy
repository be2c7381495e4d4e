/** Python values as the migration scripts see them: decoded JSON, the three
    states of a dictionary entry (missing, null, present), truthiness, and the
    exceptions that escape a call. */
module PyValues {

  /** A decoded JSON document, as `resp.json()` returns it. */
  datatype Json =
    | JNull
    | JBool(b: bool)
    | JInt(i: int)
    | JStr(s: string)
    | JList(items: seq<Json>)
    | JObj(fields: map<string, Json>)

  /** Python truthiness of a decoded JSON value (`if x:`). */
  predicate Truthy(j: Json) {
    match j
    case JNull => false
    case JBool(b) => b
    case JInt(i) => i != 0
    case JStr(s) => s != ""
    case JList(xs) => xs != []
    case JObj(m) => m != map[]
  }

  datatype Option<+T> = None | Some(value: T)

  /** A Python `str | None` as it is written into a JSON request body. */
  function StrOrNull(o: Option<string>): (j: Json)
    ensures o.None? <==> j == JNull
    ensures o.Some? ==> j == JStr(o.value)
  {
    match o
    case None => JNull
    case Some(s) => JStr(s)
  }

  /** One entry of a JSON object the source reads with `d.get(k)`, `d.get(k, default)`
      or `d[k]`: the key may be missing, present with null, or present with a value. */
  datatype Field<+T> = Absent | Null | Present(value: T)

  /** `d.get(k)`: a missing key and a null value both read as None. */
  function Get<T>(f: Field<T>): Option<T> {
    match f
    case Present(v) => Some(v)
    case _ => None
  }

  /** `d.get(k, default)`: only a missing key reads as the default; null stays None. */
  function GetOr<T>(f: Field<T>, default: T): Option<T> {
    match f
    case Absent => Some(default)
    case Null => None
    case Present(v) => Some(v)
  }

  /** Kinds of Python exception that the source does not catch. */
  datatype Uncaught = KeyError | TypeError | AttributeError | ValueError | IndexError

  /** Every way a call in the migration can fail: the two typed remote errors, carrying
      the operation and the remote message, and an uncaught Python exception. */
  datatype Failure =
    | BitrixApiError(op: string, message: Json)
    | JiraApiError(path: string, message: Json)
    | Raised(kind: Uncaught)

  datatype Result<+T> = Ok(value: T) | Err(error: Failure) {
    predicate IsFailure() {
      Err?
    }

    function PropagateFailure<U>(): Result<U>
      requires Err?
    {
      Err(error)
    }

    function Extract(): T
      requires Ok?
    {
      value
    }
  }

  /** `d[k]` on an entry: a missing key raises KeyError, null reads as None. */
  function Index<T>(f: Field<T>): (r: Result<Option<T>>)
    ensures r.Err? <==> f.Absent?
    ensures r.Err? ==> r.error == Raised(KeyError)
    ensures r.Ok? ==> r.value == Get(f)
  {
    match f
    case Absent => Err(Raised(KeyError))
    case Null => Ok(None)
    case Present(v) => Ok(Some(v))
  }

  /** `j[k]` on a decoded JSON value: only an object can be indexed by a string key. */
  function Subscript(j: Json, k: string): (r: Result<Json>)
    ensures r.Ok? <==> j.JObj? && k in j.fields
    ensures r.Ok? ==> r.value == j.fields[k]
    ensures j.JObj? && k !in j.fields ==> r == Err(Raised(KeyError))
    ensures !j.JObj? ==> r == Err(Raised(TypeError))
  {
    match j
    case JObj(m) => if k in m then Ok(m[k]) else Err(Raised(KeyError))
    case _ => Err(Raised(TypeError))
  }

  /** `d.get(k, default)` on a decoded JSON object `d`. */
  function JGetOr(m: map<string, Json>, k: string, default: Json): Json {
    if k in m then m[k] else default
  }
}
