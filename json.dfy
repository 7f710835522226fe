/** JSON-like Python values as the pipeline handles them: what `json.loads`
    produces from a queue message, what is written to and read from the
    result table, and the label records exchanged between the worker and the
    bot. A dict is kept as its list of (key, value) pairs in insertion order,
    as Python dicts are. */
module JsonValue {
  import opened Base

  /** A Python float. Only its identity matters here, so it is kept as the
      text it was read from; float arithmetic and rounding are not modelled. */
  datatype FloatToken = FloatToken(text: string)

  datatype Json =
    | JNull
    | JBool(b: bool)
    | JInt(i: int)
    | JString(s: string)
    | JFloat(f: FloatToken)
      /** `Decimal(str(x))` for the float `x`: the token identifies `x`, and
          `JDec(t)` stands for the decimal of `str(x)`. */
    | JDec(d: FloatToken)
    | JArray(elems: seq<Json>)
    | JObject(fields: seq<(string, Json)>)

  function Keys(fields: seq<(string, Json)>): (r: seq<string>)
    ensures |r| == |fields|
  {
    seq(|fields|, i requires 0 <= i < |fields| => fields[i].0)
  }

  /** `d.get(k)` on a dict given by its fields. */
  function Get(fields: seq<(string, Json)>, k: string): (r: Option<Json>)
    ensures r.Some? <==> k in Keys(fields)
    ensures r.Some? ==> (k, r.value) in fields
  {
    if fields == [] then None
    else
      assert Keys(fields) == [fields[0].0] + Keys(fields[1..]);
      if fields[0].0 == k then Some(fields[0].1) else Get(fields[1..], k)
  }

  /** `v[k]`: defined when `v` is a dict holding `k`; otherwise Python raises
      (TypeError for a non-dict, KeyError for a missing key). */
  function Field(v: Json, k: string): (r: Option<Json>)
    ensures r.Some? <==> v.JObject? && k in Keys(v.fields)
  {
    if v.JObject? then Get(v.fields, k) else None
  }

  /** `for x in v`: a list yields its elements, a dict its keys and a string
      its characters; any other value is not iterable (TypeError). */
  function Iterate(v: Json): (r: Option<seq<Json>>)
    ensures r.Some? <==> (v.JArray? || v.JObject? || v.JString?)
    ensures v.JArray? ==> r == Some(v.elems)
  {
    match v
    case JArray(es) => Some(es)
    case JObject(fs) => Some(seq(|fs|, i requires 0 <= i < |fs| => JString(fs[i].0)))
    case JString(s) => Some(seq(|s|, i requires 0 <= i < |s| => JString([s[i]])))
    case _ => None
  }
}
