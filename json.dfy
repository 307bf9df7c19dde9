/**
 * JSON values as the relay sees them once `json.loads` has produced them, together with
 * the two Python operations the relay applies to them: subscripting a dictionary
 * (`d[key]`, which raises unless `d` is an object that holds `key`) and truthiness
 * (`resp.get('delta')` used as a condition).
 */
module JsonValue {
  import opened Wrappers

  /**
   * A JSON number is kept as a decimal `mantissa * 10^exponent`, so that constants such
   * as 0.6 can be written down exactly without modelling floating point.
   */
  datatype Json =
    | JNull
    | JBool(b: bool)
    | JNum(mantissa: int, exponent: int)
    | JStr(s: string)
    | JArr(items: seq<Json>)
    | JObj(fields: map<string, Json>)

  /** `v[key]`: `None` stands for the KeyError or TypeError Python raises. */
  function Get(v: Json, key: string): (r: Option<Json>)
    ensures r.Some? <==> v.JObj? && key in v.fields
    ensures r.Some? ==> r.value == v.fields[key]
  {
    if v.JObj? && key in v.fields then Some(v.fields[key]) else None
  }

  /** `v[k0][k1]...`: every subscript on the path has to succeed. */
  function At(v: Json, path: seq<string>): (r: Option<Json>)
    ensures path == [] ==> r == Some(v)
    ensures |path| == 1 ==> r == Get(v, path[0])
    ensures path != [] && !v.JObj? ==> r == None
    ensures r.Some? && path != [] ==> Get(v, path[0]).Some?
    ensures |path| == 2 ==> r == (match Get(v, path[0]) case None => None case Some(w) => Get(w, path[1]))
    decreases |path|
  {
    if path == [] then Some(v)
    else
      match Get(v, path[0])
      case None => None
      case Some(w) => At(w, path[1..])
  }

  /** Subscripting along `p + q` is subscripting along `p`, then along `q` from there. */
  lemma {:induction false} AtConcat(v: Json, p: seq<string>, q: seq<string>)
    ensures At(v, p + q) == (match At(v, p) case None => None case Some(w) => At(w, q))
    decreases |p|
  {
    if p == [] {
      assert p + q == q;
    } else {
      assert (p + q)[0] == p[0];
      assert (p + q)[1..] == p[1..] + q;
      match Get(v, p[0])
      case None =>
      case Some(w) => AtConcat(w, p[1..], q);
    }
  }

  /** `d.get(key)`: the value of `key` in the object `d`, or `None` (JSON null) when absent. */
  function GetOrNull(fields: map<string, Json>, key: string): (r: Json)
    ensures Get(JObj(fields), key) == Some(r) || (Get(JObj(fields), key) == None && r == JNull)
    ensures Truthy(r) ==> Get(JObj(fields), key) == Some(r)
  {
    if key in fields then fields[key] else JNull
  }

  /** Python truthiness of a decoded JSON value. */
  predicate Truthy(v: Json)
    ensures !Truthy(v) <==> v == JNull || v == JBool(false) || (v.JNum? && v.mantissa == 0)
                            || v == JStr("") || v == JArr([]) || v == JObj(map[])
  {
    match v
    case JNull => false
    case JBool(b) => b
    case JNum(m, _) => m != 0
    case JStr(s) => s != ""
    case JArr(items) => items != []
    case JObj(fields) => fields != map[]
  }
}
