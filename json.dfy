/** A JSON document as Python's `json` module produces it (objects as `dict`). */
module JsonValue {
  import opened Wrappers

  datatype Json =
    | JNull
    | JBool(b: bool)
    | JNum(n: int)
    | JStr(s: string)
    | JArr(items: seq<Json>)
    | JObj(fields: map<string, Json>)

  /** Python truthiness of the decoded value. */
  predicate Truthy(j: Json) {
    match j
    case JNull => false
    case JBool(b) => b
    case JNum(n) => n != 0
    case JStr(s) => s != ""
    case JArr(items) => items != []
    case JObj(fields) => fields != map[]
  }

  /** `d.get(key)`: `None` for a missing key. */
  function Get(d: map<string, Json>, key: string): Option<Json> {
    if key in d then Some(d[key]) else None
  }

  /** `None`, encoded as `null`, for an absent optional string. */
  function OptStr(s: Option<string>): Json {
    match s
    case None => JNull
    case Some(v) => JStr(v)
  }

  function OptObj(m: Option<map<string, Json>>): Json {
    match m
    case None => JNull
    case Some(v) => JObj(v)
  }

  /**
    The position of the first key in `keys` whose value in `d` is truthy
    (`for key in keys: if d.get(key): ...`), `|keys|` when there is none.
   */
  function FirstTruthyKey(d: map<string, Json>, keys: seq<string>): (i: nat)
    ensures i <= |keys|
    ensures i < |keys| ==> keys[i] in d && Truthy(d[keys[i]])
    ensures forall j :: 0 <= j < i ==> !(keys[j] in d && Truthy(d[keys[j]]))
  {
    if keys == [] then 0
    else if keys[0] in d && Truthy(d[keys[0]]) then 0
    else 1 + FirstTruthyKey(d, keys[1..])
  }

  /** `d.get(k1) or d.get(k2) or ...`, `None` when no value is truthy. */
  function FirstTruthy(d: map<string, Json>, keys: seq<string>): (r: Option<Json>)
    ensures r.Some? ==> Truthy(r.value)
    ensures r.None? <==> forall j :: 0 <= j < |keys| ==> !(keys[j] in d && Truthy(d[keys[j]]))
  {
    var i := FirstTruthyKey(d, keys);
    if i < |keys| then Some(d[keys[i]]) else None
  }
}
