/** JSON documents as Python's `json` decoder hands them to the program, and the
    few Python operations the program applies to them: truth testing, `dict.get`
    with a default, `x[0]`, and use as a dictionary key.
 */
module Json {
  import opened Outcomes

  /** A decoded JSON value. An integer literal decodes to a Python `int`; any other
      number decodes to a `float`, kept here as its value and the text Python's
      `str()` spells it with (the model does no arithmetic on it). */
  datatype Json =
    | Null
    | Bool(b: bool)
    | Int(i: int)
    | Float(value: real, text: string)
    | Str(s: string)
    | Arr(items: seq<Json>)
    | Obj(fields: map<string, Json>)

  /** Python's `bool(v)`: None, False, zero and empty containers are false. */
  predicate Truthy(v: Json) {
    match v
    case Null => false
    case Bool(b) => b
    case Int(i) => i != 0
    case Float(x, _) => x != 0.0
    case Str(s) => |s| > 0
    case Arr(items) => |items| > 0
    case Obj(fields) => |fields| > 0
  }

  /** `d.get(key, default)` on a dict: the stored value when the key is present,
      even when that value is null; the default only when it is absent. */
  function Lookup(fields: map<string, Json>, key: string, default: Json): Json {
    if key in fields then fields[key] else default
  }

  /** `v.get(key, default)` on any value: only a dict has `.get`. */
  function Get(v: Json, key: string, default: Json): (r: Result<Json>)
    ensures v.Obj? ==> r == Ok(Lookup(v.fields, key, default))
    ensures !v.Obj? ==> r == Crash(AttributeError)
  {
    match v
    case Obj(fields) => Ok(Lookup(fields, key, default))
    case _ => Crash(AttributeError)
  }

  /** `v[0]`. A dict decoded from JSON has only string keys, so `d[0]` is a KeyError;
      indexing a string yields its first character as a string. */
  function First(v: Json): (r: Result<Json>)
    ensures !r.Fail?
    ensures r.Ok? <==> (v.Arr? || v.Str?) && Truthy(v)
    ensures r.Ok? ==> r.value == if v.Arr? then v.items[0] else Str([v.s[0]])
    ensures (v.Arr? || v.Str?) && !Truthy(v) ==> r == Crash(IndexError)
    ensures v.Obj? ==> r == Crash(KeyError)
    ensures !v.Arr? && !v.Str? && !v.Obj? ==> r == Crash(TypeError)
  {
    match v
    case Arr(items) => if |items| > 0 then Ok(items[0]) else Crash(IndexError)
    case Str(s) => if |s| > 0 then Ok(Str([s[0]])) else Crash(IndexError)
    case Obj(_) => Crash(KeyError)
    case _ => Crash(TypeError)
  }

  /** Whether Python can use `v` as a dictionary key: lists and dicts cannot. */
  predicate Hashable(v: Json) {
    !v.Arr? && !v.Obj?
  }
}
