/** Values shared by every component: an optional value, and the JSON-like payloads
    (preference values, task parameters and results, provider results, event metadata)
    that the assistant passes around as Python dictionaries. JSON encoding and decoding
    are the identity here: a payload is stored and read back as the same Value. */
module Values {

  datatype Option<+T> = None | Some(value: T) {
    function GetOr(default: T): T
    {
      match this
      case Some(v) => v
      case None => default
    }
  }

  /** A dynamically typed payload, the model of a JSON-serialisable Python value. */
  datatype Value =
    | VNull
    | VBool(b: bool)
    | VInt(i: int)
    | VReal(r: real)
    | VStr(s: string)
    | VList(items: seq<Value>)
    | VObj(fields: map<string, Value>)

  /** Python truthiness: None, False, 0, 0.0, "", [] and {} are false, everything else true. */
  predicate Truthy(v: Value)
  {
    match v
    case VNull => false
    case VBool(b) => b
    case VInt(i) => i != 0
    case VReal(r) => r != 0.0
    case VStr(s) => |s| > 0
    case VList(items) => |items| > 0
    case VObj(fields) => |fields| > 0
  }

  /** The outcome of a dictionary access on a payload that may not be a dictionary. */
  datatype Access<+T> = Found(value: T) | TypeError {
    predicate IsFailure() { TypeError? }
    function PropagateFailure<U>(): Access<U>
      requires TypeError?
    {
      TypeError
    }
    function Extract(): T
      requires Found?
    {
      value
    }
  }

  /** Python's `d.get(key, default)`: fails when `d` is not a dictionary. */
  function Get(d: Value, key: string, default: Value): (r: Access<Value>)
    ensures r.Found? <==> d.VObj?
    ensures d.VObj? && key in d.fields ==> r == Found(d.fields[key])
    ensures d.VObj? && key !in d.fields ==> r == Found(default)
  {
    match d
    case VObj(fields) => Found(if key in fields then fields[key] else default)
    case _ => TypeError
  }

  /** Python's `d[key]`: fails when `d` is not a dictionary or lacks the key. */
  function Index(d: Value, key: string): (r: Access<Value>)
    ensures r.Found? <==> d.VObj? && key in d.fields
    ensures r.Found? ==> r.value == d.fields[key]
  {
    if d.VObj? && key in d.fields then Found(d.fields[key]) else TypeError
  }

  /** What a call into external code did: returned a value or raised an exception. */
  datatype Outcome = Returned(value: Value) | Raised(message: string)

  /** An object with a single string field, such as the `{"error": message}` slot. */
  function Single(key: string, v: Value): Value
  {
    VObj(map[key := v])
  }
}
