/** Decoded JSON documents, as the HTTP layer hands them to the library (`r.json()`). */
module Json {
  import opened Wrappers

  /** A JSON value; `Obj` is what Python sees as a `collections.abc.Mapping`. */
  datatype Value =
    | Null
    | Bool(b: bool)
    | Num(n: int)
    | Str(s: string)
    | Arr(items: seq<Value>)
    | Obj(fields: map<string, Value>)

  /** `j[key]` on a decoded document: fails unless `j` is an object holding `key`. */
  function Field(j: Value, key: string): (r: Option<Value>)
    ensures r.Some? <==> j.Obj? && key in j.fields
    ensures r.Some? ==> r.value == j.fields[key]
  {
    if j.Obj? && key in j.fields then Some(j.fields[key]) else None
  }

  /** `j[key]` where the program uses the member as a string (an id, a name, a link). */
  function StrField(j: Value, key: string): (r: Option<string>)
    ensures r.Some? <==> j.Obj? && key in j.fields && j.fields[key].Str?
    ensures r.Some? ==> j.fields[key] == Str(r.value)
  {
    match Field(j, key)
    case Some(Str(s)) => Some(s)
    case _ => None
  }

  /** Python truthiness of a decoded value (`if json_input:`). */
  predicate Truthy(j: Value) {
    match j
    case Null => false
    case Bool(b) => b
    case Num(n) => n != 0
    case Str(s) => s != ""
    case Arr(items) => items != []
    case Obj(fields) => fields != map[]
  }

  /** An object whose every member is a string (the body `annotate` sends). */
  function Strings(m: map<string, string>): (r: Value)
    ensures r.Obj? && r.fields.Keys == m.Keys
    ensures forall k :: k in m ==> r.fields[k] == Str(m[k])
  {
    Obj(map k | k in m :: Str(m[k]))
  }
}
