/** The generic ("unstructured") document a manifest decodes to: a JSON-like tree
    whose top level is a map from keys to values, and the few accessors of the
    unstructured helpers that the loader reads it through. */
module Objects {
  import opened Wrappers

  /** A decoded JSON/YAML value. Numbers are integers only. */
  datatype Json =
    | Null
    | Bool(b: bool)
    | Number(n: int)
    | Str(s: string)
    | List(items: seq<Json>)
    | Object(fields: JsonMap)

  type JsonMap = map<string, Json>

  /** `unstructured.Unstructured`: a holder of a top-level map that the loader
      edits in place. */
  class Unstructured {
    var Object: JsonMap

    constructor (m: JsonMap)
      ensures Object == m
    {
      Object := m;
    }
  }

  /** The string at `path` (each step but the last must be a map), if there is one. */
  function NestedString(m: JsonMap, path: seq<string>): (r: Option<string>)
    requires |path| >= 1
    decreases |path|
  {
    if path[0] !in m then None
    else if |path| == 1 then
      (match m[path[0]] case Str(s) => Some(s) case _ => None)
    else
      (match m[path[0]] case Object(inner) => NestedString(inner, path[1..]) case _ => None)
  }

  /** The string accessors of `Unstructured` read the empty string when the
      field is absent or of the wrong type. */
  function GetNestedString(m: JsonMap, path: seq<string>): string
    requires |path| >= 1
  {
    match NestedString(m, path)
    case Some(s) => s
    case None => ""
  }

  function GetAPIVersion(m: JsonMap): string { GetNestedString(m, ["apiVersion"]) }
  function GetKind(m: JsonMap): string { GetNestedString(m, ["kind"]) }
  function GetNamespace(m: JsonMap): string { GetNestedString(m, ["metadata", "namespace"]) }
  function GetName(m: JsonMap): string { GetNestedString(m, ["metadata", "name"]) }

  /** `unstructured.NestedMap(m, "status")`: the status map, which is found only
      when the key is present and holds a map (a null status is not a map). */
  function StatusMap(m: JsonMap): (r: Option<JsonMap>)
    ensures r.Some? <==> "status" in m && m["status"].Object?
    ensures r.Some? ==> m["status"] == Object(r.value)
  {
    if "status" in m && m["status"].Object? then Some(m["status"].fields) else None
  }
}
