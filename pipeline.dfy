/** The two halves together: the item the worker stores for a finished job
    is what the bot's `/results` endpoint reads back, and the message it
    sends goes to the job's chat and lists the detected classes. */
module Pipeline {
  import opened Base
  import opened Text
  import opened JsonValue
  import opened FloatConversion
  import opened Labels
  import opened Items
  import opened Delivery
  import opened Worker

  lemma SummaryFields(pid: string, chat: Json, orig: string, pred: string, ds: seq<Detection>, now: FloatToken)
    ensures var fs := SummaryItem(pid, chat, orig, pred, ds, now).fields;
            Get(fs, "chat_id") == Some(chat) && Get(fs, "labels") == Some(JArray(LabelItems(ds)))
  {
    var fs := SummaryItem(pid, chat, orig, pred, ds, now).fields;
    assert |"prediction_id"| != |"chat_id"| && |"prediction_id"| != |"labels"|;
    assert |"chat_id"| != |"labels"|;
    assert |"original_img_path"| != |"labels"| && |"predicted_img_path"| != |"labels"|;
    assert Get(fs[4..], "labels") == Some(JArray(LabelItems(ds)));
    assert Get(fs[3..], "labels") == Get(fs[4..], "labels");
    assert Get(fs[2..], "labels") == Get(fs[3..], "labels");
    assert Get(fs[1..], "labels") == Get(fs[2..], "labels");
  }

  /** A summary, once converted, carries the job's chat and one label per detection. */
  lemma SummaryDeliverable(pid: string, chat: Json, orig: string, pred: string, ds: seq<Detection>, now: FloatToken)
    ensures Deliverable(ConvertFloats(SummaryItem(pid, chat, orig, pred, ds, now)), ConvertFloats(chat), Classes(ds))
  {
    var fs := SummaryItem(pid, chat, orig, pred, ds, now).fields;
    SummaryFields(pid, chat, orig, pred, ds, now);
    GetConverted(fs, "chat_id");
    GetConverted(fs, "labels");
    ConvertedLabelClasses(ds);
  }

  /** A stored summary carries the job's chat and one label per detection. */
  lemma StoredItemDeliverable(pid: string, chat: Json, name: string, ds: seq<Detection>, now: FloatToken)
    ensures Deliverable(StoredItem(pid, chat, name, ds, now), ConvertFloats(chat), Classes(ds))
  {
    SummaryDeliverable(pid, chat, name, Paths.OutputPath(pid, name), ds, now);
  }

  /** Once a job with a label file is done, asking the bot for its results
      sends the job's chat the header and one line per detected object. */
  lemma DoneJobIsDelivered(s: WorkerState, names: seq<string>, a: Attempt)
    requires Step(s, names, a).1 == Done
    requires s.queue != [] && ReadBody(s.queue[0]).Ok?
    requires var img := ReadBody(s.queue[0]).value.0;
             img.JString? && LabelFileOk(a, names, s.queue[0].messageId, img.s)
    ensures var (img, chat) := ReadBody(s.queue[0]).value;
            var pid := s.queue[0].messageId;
            var ds := ParseLabelFile(a.files[Paths.LabelPath(pid, img.s)], names).value;
            Results(Step(s, names, a).0.table, Some(pid))
            == Ok(Reply("Ok", 200, Some(Outgoing(ConvertFloats(chat), Header + Join(Classes(ds), '\n')))))
  {
    var (img, chat) := ReadBody(s.queue[0]).value;
    var pid := s.queue[0].messageId;
    var ds := ParseLabelFile(a.files[Paths.LabelPath(pid, img.s)], names).value;
    StepDone(s, names, a);
    SummaryOfLabelFile(a, names, pid, img.s, chat);
    var table := Step(s, names, a).0.table;
    assert table[pid] == StoredItem(pid, chat, img.s, ds, a.now);
    StoredItemDeliverable(pid, chat, img.s, ds, a.now);
    ResultsOfFoundItem(table, pid, ConvertFloats(chat), Classes(ds));
  }

  /** The detection run wrote a label file for the job and it parses. */
  predicate LabelFileOk(a: Attempt, names: seq<string>, pid: string, name: string)
  {
    Paths.LabelPath(pid, name) in a.files && ParseLabelFile(a.files[Paths.LabelPath(pid, name)], names).Ok?
  }

  /** A job without a label file is acknowledged and nothing is stored for it:
      the table is as it was. */
  lemma DoneWithoutLabelsStoresNothing(s: WorkerState, names: seq<string>, a: Attempt)
    requires Step(s, names, a).1 == Done
    requires s.queue != [] && ReadBody(s.queue[0]).Ok?
    requires var img := ReadBody(s.queue[0]).value.0;
             img.JString? && Paths.LabelPath(s.queue[0].messageId, img.s) !in a.files
    ensures Step(s, names, a).0.table == s.table
    ensures Acks(Step(s, names, a).0.trace) == Acks(s.trace) + [s.queue[0].messageId]
  {
    StepDone(s, names, a);
    StepAcks(s, names, a);
  }
}
