/**
 * The slice of Kubernetes' `unstructured` package the core reads through:
 * an object is a map from field names to JSON-like values, and the nested
 * accessors walk a path of field names through it. A lookup distinguishes
 * a value that was found, a path that is missing (also through a null), and
 * a value of the wrong type (the accessor's error).
 */
module Unstructured {

  /** A JSON-like value: a string, a nested object, null, or anything else. */
  datatype Value = Str(s: string) | Obj(fields: map<string, Value>) | Null | Other

  /** The outcome of a nested lookup: Go's `(value, found, err)`. */
  datatype Lookup<+T> = Found(value: T) | Missing | WrongType

  /** `NestedFieldNoCopy`: follow `path` from the object `obj`. */
  function NestedField(obj: map<string, Value>, path: seq<string>): (r: Lookup<Value>)
    ensures |path| == 1 ==> r == if path[0] in obj then Found(obj[path[0]]) else Missing
    decreases |path|
  {
    if path == [] then Found(Obj(obj))
    else if path[0] !in obj then Missing
    else if |path| == 1 then Found(obj[path[0]])
    else match obj[path[0]]
      case Obj(inner) => NestedField(inner, path[1..])
      case Null => Missing
      case _ => WrongType
  }

  /** `NestedString`: found only when the value there is a string. */
  function NestedString(obj: map<string, Value>, path: seq<string>): (r: Lookup<string>)
    ensures r.Found? <==> NestedField(obj, path).Found? && NestedField(obj, path).value.Str?
    ensures r.Found? ==> NestedField(obj, path) == Found(Str(r.value))
  {
    match NestedField(obj, path)
    case Found(Str(s)) => Found(s)
    case Found(_) => WrongType
    case Missing => Missing
    case WrongType => WrongType
  }

  /** `NestedMap`: found only when the value there is an object. */
  function NestedMap(obj: map<string, Value>, path: seq<string>): (r: Lookup<map<string, Value>>)
    ensures r.Found? <==> NestedField(obj, path).Found? && NestedField(obj, path).value.Obj?
  {
    match NestedField(obj, path)
    case Found(Obj(m)) => Found(m)
    case Found(_) => WrongType
    case Missing => Missing
    case WrongType => WrongType
  }

  /** The string the getters (`GetAPIVersion`, `GetKind`, `GetName`) read: "" unless a string is found. */
  function StringOrEmpty(obj: map<string, Value>, path: seq<string>): string
  {
    match NestedString(obj, path)
    case Found(s) => s
    case _ => ""
  }

  /** A two-step lookup is a lookup in the nested object. */
  lemma NestedStringInSpec(obj: map<string, Value>, spec: map<string, Value>, key: string)
    requires "spec" in obj && obj["spec"] == Obj(spec)
    ensures NestedString(obj, ["spec", key]) == NestedString(spec, [key])
  {
    assert ["spec", key][1..] == [key];
  }
}
