/** The shape of the records the worker stores and the bot reads back: one
    label dict per detection, the prediction summary that holds them, and
    `label['class']` read from a list of label dicts. */
module Items {
  import opened Base
  import opened JsonValue
  import opened FloatConversion
  import opened Labels

  /** `{'class': ..., 'cx': ..., 'cy': ..., 'width': ..., 'height': ...}`. */
  function LabelItem(d: Detection): Json
  {
    JObject([("class", JString(d.cls)), ("cx", JFloat(d.cx)), ("cy", JFloat(d.cy)),
             ("width", JFloat(d.width)), ("height", JFloat(d.height))])
  }

  function LabelItems(ds: seq<Detection>): (r: seq<Json>)
    ensures |r| == |ds|
  {
    seq(|ds|, i requires 0 <= i < |ds| => LabelItem(ds[i]))
  }

  /** The prediction summary, before its floats are converted. */
  function SummaryItem(predictionId: string, chatId: Json, originalImgPath: string,
                       predictedImgPath: string, labels: seq<Detection>, time: FloatToken): Json
  {
    JObject([("prediction_id", JString(predictionId)),
             ("chat_id", chatId),
             ("original_img_path", JString(originalImgPath)),
             ("predicted_img_path", JString(predictedImgPath)),
             ("labels", JArray(LabelItems(labels))),
             ("time", JFloat(time))])
  }

  /** `label['class']` when it is a string; Python raises for a label that
      is not a dict or has no 'class', and `'\n'.join` for a non-string. */
  function ClassOf(entry: Json): Option<string>
  {
    match Field(entry, "class")
    case Some(JString(c)) => Some(c)
    case _ => None
  }

  /** `[label['class'] for label in labels]`, read front to back. */
  function ClassNames(labels: seq<Json>): (r: Option<seq<string>>)
    ensures r.Some? <==> forall i :: 0 <= i < |labels| ==> ClassOf(labels[i]).Some?
    ensures r.Some? ==> |r.value| == |labels|
    ensures r.Some? ==> forall i :: 0 <= i < |labels| ==> r.value[i] == ClassOf(labels[i]).value
  {
    if labels == [] then Some([])
    else
      var init := labels[..|labels| - 1];
      assert forall i :: 0 <= i < |init| ==> init[i] == labels[i];
      match ClassNames(init)
      case None => None
      case Some(cs) =>
        match ClassOf(labels[|labels| - 1])
        case None => None
        case Some(c) => Some(cs + [c])
  }

  /** The class names of a run of detections, in order. */
  function Classes(ds: seq<Detection>): seq<string>
  {
    seq(|ds|, i requires 0 <= i < |ds| => ds[i].cls)
  }

  /** The stored label of a detection, once its floats are converted, still names its class. */
  lemma ConvertedLabelClass(d: Detection)
    ensures ClassOf(ConvertFloats(LabelItem(d))) == Some(d.cls)
  {
    GetConverted(LabelItem(d).fields, "class");
  }

  /** The class names of the stored labels are the detected classes, in order. */
  lemma ConvertedLabelClasses(ds: seq<Detection>)
    ensures ClassNames(ConvertFloats(JArray(LabelItems(ds))).elems) == Some(Classes(ds))
  {
    var items := LabelItems(ds);
    var es := ConvertFloats(JArray(items)).elems;
    forall i | 0 <= i < |ds| ensures ClassOf(es[i]) == Some(ds[i].cls) {
      assert es[i] == ConvertFloats(items[i]);
      assert items[i] == LabelItem(ds[i]);
      ConvertedLabelClass(ds[i]);
    }
    var cs := ClassNames(es);
    assert cs.Some?;
    assert cs.value == seq(|ds|, i requires 0 <= i < |ds| => ds[i].cls);
  }
}
