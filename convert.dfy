/** `convert_floats_to_decimal` (yolo5/app.py): before a prediction summary
    is written to the result table, every float in it is replaced by the
    decimal of that float's `str`, walking through dicts and lists; everything
    else is left as it is. */
module FloatConversion {
  import opened Base
  import opened JsonValue

  /** No float leaf anywhere in `v`. */
  predicate NoFloats(v: Json)
  {
    match v
    case JFloat(_) => false
    case JArray(es) => forall i :: 0 <= i < |es| ==> NoFloats(es[i])
    case JObject(fs) => forall i :: 0 <= i < |fs| ==> NoFloats(fs[i].1)
    case _ => true
  }

  /** `w` is `v` with some (or all, or none) of its float leaves replaced by
      decimals of their token: the same dict keys in the same order, lists
      of the same length, every other leaf unchanged. */
  predicate Agrees(v: Json, w: Json)
  {
    match v
    case JFloat(t) => w == JFloat(t) || w == JDec(t)
    case JArray(es) =>
      && w.JArray? && |w.elems| == |es|
      && forall i :: 0 <= i < |es| ==> Agrees(es[i], w.elems[i])
    case JObject(fs) =>
      && w.JObject? && |w.fields| == |fs|
      && forall i :: 0 <= i < |fs| ==> w.fields[i].0 == fs[i].0 && Agrees(fs[i].1, w.fields[i].1)
    case _ => w == v
  }

  function ConvertFloats(v: Json): (r: Json)
    ensures NoFloats(r)
    ensures v.JObject? <==> r.JObject?
    ensures v.JObject? ==> Keys(r.fields) == Keys(v.fields)
    ensures v.JArray? <==> r.JArray?
    ensures v.JArray? ==> |r.elems| == |v.elems|
    ensures !v.JFloat? && !v.JObject? && !v.JArray? ==> r == v
    ensures v.JFloat? ==> r == JDec(v.f)
  {
    match v
    case JFloat(t) => JDec(t)
    case JObject(fs) => JObject(seq(|fs|, i requires 0 <= i < |fs| => (fs[i].0, ConvertFloats(fs[i].1))))
    case JArray(es) => JArray(seq(|es|, i requires 0 <= i < |es| => ConvertFloats(es[i])))
    case _ => v
  }

  /** Every value agrees with itself. */
  lemma {:induction false} AgreesReflexive(v: Json)
    ensures Agrees(v, v)
  {
    match v
    case JArray(es) =>
      forall i | 0 <= i < |es| ensures Agrees(es[i], es[i]) { AgreesReflexive(es[i]); }
    case JObject(fs) =>
      forall i | 0 <= i < |fs| ensures Agrees(fs[i].1, fs[i].1) { AgreesReflexive(fs[i].1); }
    case _ =>
  }

  /** The conversion keeps the shape: same keys in the same order, same list
      lengths and element order, floats turned into decimals of their token. */
  lemma {:induction false} ConvertAgrees(v: Json)
    ensures Agrees(v, ConvertFloats(v))
  {
    match v
    case JArray(es) =>
      forall i | 0 <= i < |es| ensures Agrees(es[i], ConvertFloats(v).elems[i]) { ConvertAgrees(es[i]); }
    case JObject(fs) =>
      forall i | 0 <= i < |fs| ensures Agrees(fs[i].1, ConvertFloats(v).fields[i].1) { ConvertAgrees(fs[i].1); }
    case _ =>
  }

  /** The conversion is the only float-free value of that shape. */
  lemma {:induction false} ConvertUnique(v: Json, w: Json)
    requires Agrees(v, w) && NoFloats(w)
    ensures w == ConvertFloats(v)
  {
    match v
    case JArray(es) =>
      var r := ConvertFloats(v);
      forall i | 0 <= i < |es| ensures w.elems[i] == r.elems[i] { ConvertUnique(es[i], w.elems[i]); }
      assert w.elems == r.elems;
    case JObject(fs) =>
      var r := ConvertFloats(v);
      forall i | 0 <= i < |fs| ensures w.fields[i] == r.fields[i] { ConvertUnique(fs[i].1, w.fields[i].1); }
      assert w.fields == r.fields;
    case _ =>
  }

  /** The conversion changes a value exactly when the value holds a float. */
  lemma ConvertFixedIff(v: Json)
    ensures ConvertFloats(v) == v <==> NoFloats(v)
  {
    if NoFloats(v) {
      AgreesReflexive(v);
      ConvertUnique(v, v);
    }
  }

  /** Converting twice is converting once. */
  lemma ConvertIdempotent(v: Json)
    ensures ConvertFloats(ConvertFloats(v)) == ConvertFloats(v)
  {
    ConvertFixedIff(ConvertFloats(v));
  }

  /** Looking a key up in a converted dict finds the converted value. */
  lemma {:induction false} GetConverted(fs: seq<(string, Json)>, k: string)
    ensures Get(ConvertFloats(JObject(fs)).fields, k)
         == (match Get(fs, k) case None => None case Some(x) => Some(ConvertFloats(x)))
  {
    var cs := ConvertFloats(JObject(fs)).fields;
    if fs != [] && fs[0].0 != k {
      GetConverted(fs[1..], k);
      assert cs[1..] == ConvertFloats(JObject(fs[1..])).fields;
    }
  }
}
