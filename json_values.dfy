/** Decoded JSON values and the few Python operations the core applies to them:
    `key in v`, `v[key]`, `v.get(key, default)` and truthiness. Each operation
    fails exactly where Python raises for the value's runtime type. */
module JsonValues {
  import opened Wrappers
  import opened Text

  /** A value produced by json.loads. Numbers are integers here (floats are not modelled). */
  datatype Json =
    | JNull
    | JBool(b: bool)
    | JNum(n: int)
    | JStr(s: string)
    | JArr(items: seq<Json>)
    | JObj(fields: map<string, Json>)

  const EmptyObject: Json := JObj(map[])

  /** The exception a Python operation on a JSON value raises. */
  datatype Fault =
    | NotIterable        // TypeError: `key in v` for null, a boolean or a number
    | NotSubscriptable   // TypeError: `v[key]` for null, a boolean or a number
    | IndexNotInteger    // TypeError: `v[key]` with a string key on a list or a string
    | KeyMissing         // KeyError: `v[key]` on an object without that key
    | NoGet              // AttributeError: `v.get(...)` on anything but an object

  /** json.loads (None stands for JSONDecodeError) and json.dumps, as parameters of the model. */
  datatype Codec = Codec(loads: string -> Option<Json>, dumps: Json -> string)

  /** What the core relies on from the codec: every dumped value loads back to itself,
      and json.dumps writes one line: never the empty string, no surrounding whitespace and no
      line terminator (the cache file is read back line by line). */
  ghost predicate Lawful(c: Codec) {
    forall x :: c.loads(c.dumps(x)) == Some(x) && c.dumps(x) != [] && Unpadded(c.dumps(x))
              && '\n' !in c.dumps(x) && '\r' !in c.dumps(x)
  }

  /** Python truthiness of a JSON value. */
  predicate Truthy(v: Json)
    ensures !Truthy(v) <==> v == JNull || v == JBool(false) || v == JNum(0) || v == JStr([])
                             || v == JArr([]) || v == JObj(map[])
  {
    match v
    case JNull => false
    case JBool(b) => b
    case JNum(n) => n != 0
    case JStr(s) => s != []
    case JArr(items) => items != []
    case JObj(fields) => fields != map[]
  }

  /** Python's `key in v`: key membership for an object, element membership for a list,
      substring test for a string; a TypeError for anything else. */
  function HasKey(v: Json, key: string): (r: Result<bool, Fault>)
    ensures r.Failure? <==> (v.JNull? || v.JBool? || v.JNum?)
    ensures v.JObj? ==> r == Success(key in v.fields)
  {
    match v
    case JObj(fields) => Success(key in fields)
    case JArr(items) => Success(JStr(key) in items)
    case JStr(s) => Success(IsSubstring(key, s))
    case _ => Failure(NotIterable)
  }

  /** Python's `v[key]` with a string key: only an object holding the key yields a value. */
  function Subscript(v: Json, key: string): (r: Result<Json, Fault>)
    ensures r.Success? <==> (v.JObj? && key in v.fields)
    ensures r.Success? ==> r.value == v.fields[key]
  {
    match v
    case JObj(fields) => if key in fields then Success(fields[key]) else Failure(KeyMissing)
    case JArr(_) => Failure(IndexNotInteger)
    case JStr(_) => Failure(IndexNotInteger)
    case _ => Failure(NotSubscriptable)
  }

  /** Python's `v.get(key, default)`: defined on objects only. */
  function Get(v: Json, key: string, default: Json): (r: Result<Json, Fault>)
    ensures r.Success? <==> v.JObj?
    ensures r.Success? && key in v.fields ==> r.value == v.fields[key]
    ensures r.Success? && key !in v.fields ==> r.value == default
  {
    match v
    case JObj(fields) => Success(if key in fields then fields[key] else default)
    case _ => Failure(NoGet)
  }
}
