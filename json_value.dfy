/**
 * The values PHP's `json_decode` (without `assoc`) produces, as far as
 * the SDK looks at them: JSON objects become objects whose properties
 * are read with `->`, JSON arrays become lists, and a body that is not
 * JSON decodes to `null`.
 */
module JsonValue {

  datatype Json =
    | JNull
    | JBool(b: bool)
    | JNumber(n: int)
    | JString(s: string)
    | JArray(items: seq<Json>)
    | JObject(fields: map<string, Json>)

  /** `$v->name`: the property of an object; `null` for a missing property or a non-object. */
  function Property(v: Json, name: string): (r: Json)
    ensures v.JObject? && name in v.fields ==> r == v.fields[name]
    ensures !(v.JObject? && name in v.fields) ==> r == JNull
  {
    if v.JObject? && name in v.fields then v.fields[name] else JNull
  }

  /**
   * `isset($v->p1->p2->...)`: every step is a property of an object and
   * the last one is not `null`.
   */
  predicate IsSetPath(v: Json, path: seq<string>)
  {
    if |path| == 0 then v != JNull
    else v.JObject? && path[0] in v.fields && IsSetPath(v.fields[path[0]], path[1..])
  }

  /** The value `$v->p1->p2->...` reads. */
  function PathValue(v: Json, path: seq<string>): (r: Json)
    requires IsSetPath(v, path)
    ensures r != JNull
  {
    if |path| == 0 then v else PathValue(v.fields[path[0]], path[1..])
  }

  /** One step of a property path. */
  lemma PathStep(v: Json, name: string, rest: seq<string>)
    ensures IsSetPath(v, [name] + rest) <==> v.JObject? && name in v.fields && IsSetPath(v.fields[name], rest)
    ensures IsSetPath(v, [name] + rest) ==> PathValue(v, [name] + rest) == PathValue(v.fields[name], rest)
  {
  }
}
