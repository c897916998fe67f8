/** The Python values the pipeline passes around: JSON-shaped data as the
    generation service and the record store see it, the exceptions the
    core raises, and the foreign JSON helpers it calls. */
module Values {
  import opened Wrappers
  import opened Text

  /** A JSON-shaped Python value: None, bool, number, str, list or dict.
      Floats are not distinguished from integers. */
  datatype Json =
    | JNull
    | JBool(b: bool)
    | JNum(n: int)
    | JStr(s: string)
    | JArr(items: seq<Json>)
    | JObj(fields: map<string, Json>)

  /** Python truthiness of a value (`if x:`). */
  predicate Truthy(j: Json)
  {
    match j
    case JNull => false
    case JBool(b) => b
    case JNum(n) => n != 0
    case JStr(s) => s != []
    case JArr(xs) => xs != []
    case JObj(m) => m != map[]
  }

  /** Exceptions that can leave a core operation. */
  datatype Exception =
    | TypeError
    | KeyError(key: string)
    | ValueError(message: string)
    | StoppedByUser
    | ImageDecodeError
    | ExifToolError

  /** The foreign helpers the core calls: `json.dumps`, `json.loads`
      (None stands for JSONDecodeError), `repair_json`, and `str()` of a
      value that is not a string. Their behaviour is not modelled. */
  datatype JsonLib = JsonLib(
    dumps: Json -> string,
    loads: string -> Option<Json>,
    repair: string -> string,
    render: Json -> string)

  /** `f"{x}"`: the text of a string is itself, anything else goes through `str()`. */
  function Str(lib: JsonLib, j: Json): string
  {
    if j.JStr? then j.s else lib.render(j)
  }

  /** `key in container` for a string key: a dict tests its keys, a str
      its substrings, a list its elements; None, numbers and booleans
      are not containers and raise TypeError. */
  function PyIn(key: string, container: Json): (r: Result<bool, Exception>)
    ensures r.Err? <==> container.JNull? || container.JBool? || container.JNum?
    ensures container.JObj? ==> r == Ok(key in container.fields)
    ensures container.JArr? ==> r == Ok(JStr(key) in container.items)
    ensures container.JStr? ==> r == Ok(Contains(container.s, key))
  {
    match container
    case JObj(m) => Ok(key in m)
    case JStr(s) => Ok(Contains(s, key))
    case JArr(xs) => Ok(JStr(key) in xs)
    case _ => Err(TypeError)
  }

  /** `container[key]` for a string key: only a dict holding the key gives
      a value; a dict without it raises KeyError, and a list or a str
      indexed by a string raises TypeError. */
  function PyGetItem(container: Json, key: string): (r: Result<Json, Exception>)
    ensures r.Ok? <==> container.JObj? && key in container.fields
    ensures r.Ok? ==> r.value == container.fields[key]
    ensures container.JObj? && key !in container.fields ==> r == Err(KeyError(key))
    ensures !container.JObj? ==> r == Err(TypeError)
  {
    match container
    case JObj(m) => if key in m then Ok(m[key]) else Err(KeyError(key))
    case _ => Err(TypeError)
  }
}
