/** The detection worker's `consume` loop (yolo5/app.py): take the next job
    off the queue, fetch its image, run the detector, upload the annotated
    image, store a summary of the detections, notify the bot, and only then
    delete the message. The queue, the blob store and the result table are
    abstract state; each poll's interaction with the outside world (which
    calls succeed, what the detector wrote, the clock) is an `Attempt`. */
module Worker {
  import opened Base
  import opened JsonValue
  import opened FloatConversion
  import opened Labels
  import opened Paths
  import opened Items

  type Bytes = seq<bv8>

  /** The id the queue assigns to a message; it is never empty. */
  type MessageId = s: string | s != "" witness "m"

  /** A queued job: the message id (also the prediction id), its receipt
      handle and its body, `None` when the body is not JSON text. */
  datatype Message = Message(messageId: MessageId, receiptHandle: string, body: Option<Json>)

  /** What the outside world does during one poll.
      `files` holds the text files the detection run left behind, by path;
      `annotated` is the image it drew; `now` is `time.time()`. */
  datatype Attempt = Attempt(
    receiveOk: bool,
    downloadOk: bool,
    detectOk: bool,
    files: map<string, string>,
    annotated: Bytes,
    uploadOk: bool,
    now: FloatToken,
    storeOk: bool,
    callbackOk: bool,
    deleteOk: bool)

  /** Failures `consume` catches and answers by returning. */
  datatype Failure = DownloadFailed | UploadFailed | StoreFailed

  /** Exceptions nobody catches: they end `consume` too. */
  datatype Fault =
    | ReceiveFailed
    | MalformedBody          // the body is not JSON, or not a JSON object
    | MissingKey(key: string)
    | DetectionFailed
    | BadLabels(error: LabelError)
    | CallbackFailed
    | DeleteFailed

  datatype Outcome = Idle | Done | Returned(failure: Failure) | Crashed(fault: Fault)
  {
    /** Whether the loop ends after this poll. */
    predicate Stops()
    {
      Returned? || Crashed?
    }
  }

  /** Effects on the outside world, in the order they happen. */
  datatype Event = Uploaded(key: string) | Stored(pid: string) | Notified(pid: string) | Acked(pid: string)

  datatype WorkerState = WorkerState(queue: seq<Message>, blobs: map<string, Bytes>, table: map<string, Json>, trace: seq<Event>)

  /** `message["imgName"]` and `message["chat_id"]` of the decoded body. */
  function ReadBody(m: Message): (r: Result<(Json, Json), Fault>)
    ensures r.Ok? <==> && m.body.Some? && m.body.value.JObject?
                       && "imgName" in Keys(m.body.value.fields) && "chat_id" in Keys(m.body.value.fields)
    ensures r.Ok? ==> && Get(m.body.value.fields, "imgName") == Some(r.value.0)
                      && Get(m.body.value.fields, "chat_id") == Some(r.value.1)
    ensures r.Err? && m.body.Some? && m.body.value.JObject? && "imgName" in Keys(m.body.value.fields) ==>
              r == Err(MissingKey("chat_id"))
  {
    match m.body
    case None => Err(MalformedBody)
    case Some(v) =>
      if !v.JObject? then Err(MalformedBody)
      else match Get(v.fields, "imgName")
        case None => Err(MissingKey("imgName"))
        case Some(img) =>
          match Get(v.fields, "chat_id")
          case None => Err(MissingKey("chat_id"))
          case Some(chat) => Ok((img, chat))
  }

  /** The summary stored for a job. */
  function StoredItem(pid: string, chat: Json, name: string, labels: seq<Detection>, now: FloatToken): Json
  {
    ConvertFloats(SummaryItem(pid, chat, name, OutputPath(pid, name), labels, now))
  }

  /** The annotated image lands in the blob store under `key`. */
  function Upload(s: WorkerState, key: string, image: Bytes): WorkerState
  {
    s.(blobs := s.blobs[key := image], trace := s.trace + [Uploaded(key)])
  }

  /** `put_item`: the summary replaces whatever was stored under `pid`. */
  function Store(s: WorkerState, pid: string, item: Json): WorkerState
  {
    s.(table := s.table[pid := item], trace := s.trace + [Stored(pid)])
  }

  /** The callback to the bot. */
  function Notify(s: WorkerState, pid: string): WorkerState
  {
    s.(trace := s.trace + [Notified(pid)])
  }

  /** `delete_message`: the message at the head of the queue is gone. */
  function Ack(s: WorkerState): WorkerState
    requires s.queue != []
  {
    s.(queue := s.queue[1..], trace := s.trace + [Acked(s.queue[0].messageId)])
  }

  /** The last stage: delete the message. */
  function Acknowledge(s: WorkerState, a: Attempt): (WorkerState, Outcome)
    requires s.queue != []
  {
    if !a.deleteOk then (s, Crashed(DeleteFailed)) else (Ack(s), Done)
  }

  /** What the label file yields for a job: `None` when the detection run
      wrote none, otherwise its parse, turned into the item to store. */
  function Summary(a: Attempt, names: seq<string>, pid: string, name: string, chat: Json): Option<Result<Json, LabelError>>
  {
    var labelPath := LabelPath(pid, name);
    if labelPath !in a.files then None
    else match ParseLabelFile(a.files[labelPath], names)
      case Err(e) => Some(Err(e))
      case Ok(ds) => Some(Ok(StoredItem(pid, chat, name, ds, a.now)))
  }

  /** From the label check on, once the annotated image is uploaded. */
  function AfterUpload(s: WorkerState, a: Attempt, summary: Option<Result<Json, LabelError>>): (WorkerState, Outcome)
    requires s.queue != []
  {
    var pid := s.queue[0].messageId;
    match summary
    case None => Acknowledge(s, a)
    case Some(Err(e)) => (s, Crashed(BadLabels(e)))
    case Some(Ok(item)) =>
      if !a.storeOk then (s, Returned(StoreFailed))
      else
        var stored := Store(s, pid, item);
        if !a.callbackOk then (stored, Crashed(CallbackFailed))
        else Acknowledge(Notify(stored, pid), a)
  }

  /** One pass of the `while True` body. */
  function Step(s: WorkerState, names: seq<string>, a: Attempt): (WorkerState, Outcome)
  {
    if !a.receiveOk then (s, Crashed(ReceiveFailed))
    else if s.queue == [] then (s, Idle)
    else
      match ReadBody(s.queue[0])
      case Err(f) => (s, Crashed(f))
      case Ok((img, chat)) =>
        if !(img.JString? && img.s in s.blobs && a.downloadOk) then (s, Returned(DownloadFailed))
        else if !a.detectOk then (s, Crashed(DetectionFailed))
        else
          var key := PredictedKey(img.s);
          if key.None? || !a.uploadOk then (s, Returned(UploadFailed))
          else AfterUpload(Upload(s, key.value, a.annotated), a, Summary(a, names, s.queue[0].messageId, img.s, chat))
  }

  /** The loop over a finite run of polls: it goes on after an idle poll or a
      finished job and ends at the first return or uncaught exception. */
  function Run(s: WorkerState, names: seq<string>, attempts: seq<Attempt>): (WorkerState, Option<Outcome>)
    decreases |attempts|
  {
    if attempts == [] then (s, None)
    else
      var (s', o) := Step(s, names, attempts[0]);
      if o.Stops() then (s', Some(o)) else Run(s', names, attempts[1..])
  }

  // ---- invariants of the state ----

  /** Why an event may occur where it does in the trace: an item is stored
      only after an upload, the bot is notified only right after its item is
      stored, and a message is deleted only right after the upload (no label
      file) or right after the bot was notified of its item. */
  predicate Justified(t: seq<Event>, k: int)
    requires 0 <= k < |t|
  {
    match t[k]
    case Uploaded(_) => true
    case Stored(p) => k > 0 && t[k - 1].Uploaded?
    case Notified(p) => k > 0 && t[k - 1] == Stored(p)
    case Acked(p) => k > 0 && (t[k - 1] == Notified(p) || t[k - 1].Uploaded?)
  }

  predicate OrderedTrace(t: seq<Event>)
  {
    forall k :: 0 <= k < |t| ==> Justified(t, k)
  }

  /** Every recorded upload and store is visible in the stores, and no stored item holds a float. */
  predicate Recorded(s: WorkerState)
  {
    && (forall e :: e in s.trace && e.Uploaded? ==> e.key in s.blobs)
    && (forall e :: e in s.trace && e.Stored? ==> e.pid in s.table)
    && (forall p :: p in s.table ==> NoFloats(s.table[p]))
  }

  predicate ValidState(s: WorkerState)
  {
    OrderedTrace(s.trace) && Recorded(s)
  }

  /** The prediction ids acknowledged in a trace, in order. */
  function Acks(t: seq<Event>): seq<string>
  {
    if t == [] then []
    else Acks(t[..|t| - 1]) + (if t[|t| - 1].Acked? then [t[|t| - 1].pid] else [])
  }

  function Ids(ms: seq<Message>): (r: seq<string>)
    ensures |r| == |ms|
  {
    seq(|ms|, i requires 0 <= i < |ms| => ms[i].messageId)
  }

  lemma OrderedSnoc(t: seq<Event>, e: Event)
    requires OrderedTrace(t) && Justified(t + [e], |t|)
    ensures OrderedTrace(t + [e])
  {
    forall k | 0 <= k < |t + [e]| ensures Justified(t + [e], k) {
      if k < |t| {
        assert Justified(t, k);
        if k > 0 { assert (t + [e])[k - 1] == t[k - 1]; }
        assert (t + [e])[k] == t[k];
      }
    }
  }

  lemma AcksSnoc(t: seq<Event>, e: Event)
    ensures Acks(t + [e]) == Acks(t) + (if e.Acked? then [e.pid] else [])
  {
    assert (t + [e])[..|t + [e]| - 1] == t;
  }

  // ---- one poll ----

  /** An empty receive changes nothing: the loop sleeps and polls again. */
  lemma StepIdle(s: WorkerState, names: seq<string>, a: Attempt)
    requires a.receiveOk && s.queue == []
    ensures Step(s, names, a) == (s, Idle)
  {
  }

  /** A failed download returns before any effect: nothing is uploaded,
      stored or deleted. */
  lemma StepDownloadFailed(s: WorkerState, names: seq<string>, a: Attempt)
    requires Step(s, names, a).1 == Returned(DownloadFailed)
    ensures Step(s, names, a).0 == s
    ensures s.queue != [] && ReadBody(s.queue[0]).Ok?
    ensures var img := ReadBody(s.queue[0]).value.0;
            !(img.JString? && img.s in s.blobs && a.downloadOk)
  {
  }

  /** A failed upload also returns with nothing changed. */
  lemma StepUploadFailed(s: WorkerState, names: seq<string>, a: Attempt)
    requires Step(s, names, a).1 == Returned(UploadFailed)
    ensures Step(s, names, a).0 == s
  {
  }

  /** A failed store leaves the queue and the table as they were: only the
      annotated image has been uploaded. */
  lemma StepStoreFailed(s: WorkerState, names: seq<string>, a: Attempt)
    requires Step(s, names, a).1 == Returned(StoreFailed)
    ensures var s' := Step(s, names, a).0;
            && s'.queue == s.queue && s'.table == s.table
            && |s'.trace| == |s.trace| + 1 && s'.trace[..|s.trace|] == s.trace && s'.trace[|s.trace|].Uploaded?
  {
  }

  /** The one run that deletes a message: it finishes the job at the head of
      the queue. The annotated image is uploaded under the predicted key;
      with a label file the summary is stored under the prediction id and the
      bot notified, both before the delete; without one nothing is stored and
      nobody is notified. */
  lemma StepDone(s: WorkerState, names: seq<string>, a: Attempt)
    requires Step(s, names, a).1 == Done
    ensures s.queue != [] && ReadBody(s.queue[0]).Ok?
    ensures var (img, chat) := ReadBody(s.queue[0]).value;
            && img.JString? && img.s in s.blobs && PredictedKey(img.s).Some?
            && var pid, key := s.queue[0].messageId, PredictedKey(img.s).value;
               var summary := Summary(a, names, pid, img.s, chat);
               var blobs := s.blobs[key := a.annotated];
               if summary.Some? then
                 && summary.value.Ok?
                 && Step(s, names, a).0
                    == WorkerState(s.queue[1..], blobs, s.table[pid := summary.value.value],
                                   s.trace + [Uploaded(key), Stored(pid), Notified(pid), Acked(pid)])
               else
                 Step(s, names, a).0 == WorkerState(s.queue[1..], blobs, s.table, s.trace + [Uploaded(key), Acked(pid)])
  {
    var (img, chat) := ReadBody(s.queue[0]).value;
    var pid, key := s.queue[0].messageId, PredictedKey(img.s).value;
    var summary := Summary(a, names, pid, img.s, chat);
    var up := Upload(s, key, a.annotated);
    assert Step(s, names, a) == AfterUpload(up, a, summary);
    TracesOfDone(s.trace, key, pid);
    if summary.Some? {
      DoneWithSummary(up, a, summary);
    }
  }

  /** Proof helper, modelling nothing: the traces of a finished job, regrouped. */
  lemma TracesOfDone(t: seq<Event>, key: string, pid: string)
    ensures t + [Uploaded(key)] + [Stored(pid)] + [Notified(pid)] + [Acked(pid)]
         == t + [Uploaded(key), Stored(pid), Notified(pid), Acked(pid)]
    ensures t + [Uploaded(key)] + [Acked(pid)] == t + [Uploaded(key), Acked(pid)]
  {
  }

  lemma DoneWithSummary(s: WorkerState, a: Attempt, summary: Option<Result<Json, LabelError>>)
    requires s.queue != [] && summary.Some? && AfterUpload(s, a, summary).1 == Done
    ensures summary.value.Ok?
    ensures AfterUpload(s, a, summary).0 == Ack(Notify(Store(s, s.queue[0].messageId, summary.value.value), s.queue[0].messageId))
  {
  }

  /** A label file that does not parse raises out of the loop right after the
      upload: nothing is stored, the bot is not called and the message is not
      deleted. */
  lemma StepBadLabels(s: WorkerState, names: seq<string>, a: Attempt)
    requires a.receiveOk && a.downloadOk && a.detectOk && a.uploadOk
    requires s.queue != [] && ReadBody(s.queue[0]).Ok?
    requires var img := ReadBody(s.queue[0]).value.0;
             img.JString? && img.s in s.blobs && PredictedKey(img.s).Some?
    requires var img := ReadBody(s.queue[0]).value.0;
             var path := LabelPath(s.queue[0].messageId, img.s);
             path in a.files && ParseLabelFile(a.files[path], names).Err?
    ensures var img := ReadBody(s.queue[0]).value.0;
            var path := LabelPath(s.queue[0].messageId, img.s);
            Step(s, names, a)
            == (Upload(s, PredictedKey(img.s).value, a.annotated), Crashed(BadLabels(ParseLabelFile(a.files[path], names).error)))
  {
  }

  /** Proof helper: `Summary` unfolded for the case with a label file.
      What the stored item then is, and when it is stored, is `StepDone`'s. */
  lemma SummaryOfLabelFile(a: Attempt, names: seq<string>, pid: string, name: string, chat: Json)
    requires Summary(a, names, pid, name, chat).Some?
    ensures LabelPath(pid, name) in a.files
    ensures var r := ParseLabelFile(a.files[LabelPath(pid, name)], names);
            && (r.Err? <==> Summary(a, names, pid, name, chat).value.Err?)
            && (r.Ok? ==> Summary(a, names, pid, name, chat).value == Ok(StoredItem(pid, chat, name, r.value, a.now)))
  {
  }

  /** The transitions other than the delete leave the acknowledgements as they were. */
  lemma TransitionAcks(s: WorkerState, key: string, image: Bytes, pid: string, item: Json)
    ensures Acks(Upload(s, key, image).trace) == Acks(s.trace)
    ensures Acks(Store(s, pid, item).trace) == Acks(s.trace)
    ensures Acks(Notify(s, pid).trace) == Acks(s.trace)
    ensures s.queue != [] ==> Acks(Ack(s).trace) == Acks(s.trace) + [s.queue[0].messageId]
  {
    AcksSnoc(s.trace, Uploaded(key));
    AcksSnoc(s.trace, Stored(pid));
    AcksSnoc(s.trace, Notified(pid));
    if s.queue != [] { AcksSnoc(s.trace, Acked(s.queue[0].messageId)); }
  }

  lemma AfterUploadAcks(s: WorkerState, a: Attempt, summary: Option<Result<Json, LabelError>>)
    requires s.queue != []
    ensures var (s', o) := AfterUpload(s, a, summary);
            && (o == Done ==> s'.queue == s.queue[1..] && Acks(s'.trace) == Acks(s.trace) + [s.queue[0].messageId])
            && (o != Done ==> s'.queue == s.queue && Acks(s'.trace) == Acks(s.trace))
  {
    var pid := s.queue[0].messageId;
    TransitionAcks(s, "", [], pid, JNull);
    if summary.Some? && summary.value.Ok? {
      var stored := Store(s, pid, summary.value.value);
      TransitionAcks(s, "", [], pid, summary.value.value);
      TransitionAcks(stored, "", [], pid, JNull);
      TransitionAcks(Notify(stored, pid), "", [], pid, JNull);
    }
  }

  /** Only a finished job removes its message, and only it records an acknowledgement. */
  lemma StepAcks(s: WorkerState, names: seq<string>, a: Attempt)
    ensures var (s', o) := Step(s, names, a);
            && (o == Done ==> s.queue != [] && s'.queue == s.queue[1..]
                              && Acks(s'.trace) == Acks(s.trace) + [s.queue[0].messageId])
            && (o != Done ==> s'.queue == s.queue && Acks(s'.trace) == Acks(s.trace))
  {
    if s.queue != [] && a.receiveOk && ReadBody(s.queue[0]).Ok? {
      var (img, chat) := ReadBody(s.queue[0]).value;
      if img.JString? && img.s in s.blobs && a.downloadOk && a.detectOk
         && PredictedKey(img.s).Some? && a.uploadOk {
        var key := PredictedKey(img.s).value;
        TransitionAcks(s, key, a.annotated, "", JNull);
        AfterUploadAcks(Upload(s, key, a.annotated), a, Summary(a, names, s.queue[0].messageId, img.s, chat));
      }
    }
  }

  /** The source image is never overwritten by the upload. */
  lemma StepKeepsSourceImage(s: WorkerState, names: seq<string>, a: Attempt)
    requires a.receiveOk && s.queue != [] && ReadBody(s.queue[0]).Ok?
    requires var img := ReadBody(s.queue[0]).value.0; img.JString? && img.s in s.blobs
    ensures var img := ReadBody(s.queue[0]).value.0;
            img.s in Step(s, names, a).0.blobs && Step(s, names, a).0.blobs[img.s] == s.blobs[img.s]
  {
    var name := ReadBody(s.queue[0]).value.0.s;
    if PredictedKey(name).Some? {
      PredictedKeyDiffers(name);
    }
  }

  lemma UploadKeepsValid(s: WorkerState, key: string, image: Bytes)
    requires ValidState(s)
    ensures ValidState(Upload(s, key, image))
  {
    OrderedSnoc(s.trace, Uploaded(key));
  }

  lemma StoreKeepsValid(s: WorkerState, pid: string, item: Json)
    requires ValidState(s) && |s.trace| > 0 && s.trace[|s.trace| - 1].Uploaded? && NoFloats(item)
    ensures ValidState(Store(s, pid, item))
  {
    OrderedSnoc(s.trace, Stored(pid));
  }

  lemma NotifyKeepsValid(s: WorkerState, pid: string)
    requires ValidState(s) && |s.trace| > 0 && s.trace[|s.trace| - 1] == Stored(pid)
    ensures ValidState(Notify(s, pid))
  {
    OrderedSnoc(s.trace, Notified(pid));
  }

  lemma AckKeepsValid(s: WorkerState)
    requires s.queue != [] && ValidState(s) && |s.trace| > 0
    requires s.trace[|s.trace| - 1] == Notified(s.queue[0].messageId) || s.trace[|s.trace| - 1].Uploaded?
    ensures ValidState(Ack(s))
  {
    OrderedSnoc(s.trace, Acked(s.queue[0].messageId));
  }

  lemma AfterUploadKeepsValid(s: WorkerState, a: Attempt, summary: Option<Result<Json, LabelError>>)
    requires s.queue != [] && ValidState(s) && |s.trace| > 0 && s.trace[|s.trace| - 1].Uploaded?
    requires summary.Some? && summary.value.Ok? ==> NoFloats(summary.value.value)
    ensures ValidState(AfterUpload(s, a, summary).0)
  {
    var pid := s.queue[0].messageId;
    match summary
    case None =>
      if a.deleteOk { AckKeepsValid(s); }
    case Some(Err(_)) =>
    case Some(Ok(item)) =>
      if a.storeOk {
        var stored := Store(s, pid, item);
        StoreKeepsValid(s, pid, item);
        if a.callbackOk {
          NotifyKeepsValid(stored, pid);
          if a.deleteOk { AckKeepsValid(Notify(stored, pid)); }
        }
      }
  }

  lemma SummaryHasNoFloats(a: Attempt, names: seq<string>, pid: string, name: string, chat: Json)
    ensures var summary := Summary(a, names, pid, name, chat);
            summary.Some? && summary.value.Ok? ==> NoFloats(summary.value.value)
  {
  }

  /** Every poll keeps the trace ordered and the stores in step with it. */
  lemma StepKeepsValid(s: WorkerState, names: seq<string>, a: Attempt)
    requires ValidState(s)
    ensures ValidState(Step(s, names, a).0)
  {
    if a.receiveOk && s.queue != [] && ReadBody(s.queue[0]).Ok? {
      var (img, chat) := ReadBody(s.queue[0]).value;
      if img.JString? && img.s in s.blobs && a.downloadOk && a.detectOk
         && PredictedKey(img.s).Some? && a.uploadOk {
        var key := PredictedKey(img.s).value;
        UploadKeepsValid(s, key, a.annotated);
        SummaryHasNoFloats(a, names, s.queue[0].messageId, img.s, chat);
        AfterUploadKeepsValid(Upload(s, key, a.annotated), a, Summary(a, names, s.queue[0].messageId, img.s, chat));
      }
    }
  }

  // ---- the loop ----

  lemma {:induction false} RunKeepsValid(s: WorkerState, names: seq<string>, attempts: seq<Attempt>)
    requires ValidState(s)
    ensures ValidState(Run(s, names, attempts).0)
    decreases |attempts|
  {
    if attempts != [] {
      StepKeepsValid(s, names, attempts[0]);
      var (s', o) := Step(s, names, attempts[0]);
      if !o.Stops() {
        RunKeepsValid(s', names, attempts[1..]);
      }
    }
  }

  /** `q'` is what is left of the queue `q` after taking messages from its
      front, and `t'` acknowledges exactly those, in order, beyond `t`. */
  predicate ConsumedFrom(q: seq<Message>, t: seq<Event>, q': seq<Message>, t': seq<Event>)
  {
    && |q'| <= |q|
    && q' == q[|q| - |q'|..]
    && Acks(t') == Acks(t) + Ids(q[..|q| - |q'|])
  }

  lemma ConsumedNothing(q: seq<Message>, t: seq<Event>)
    ensures ConsumedFrom(q, t, q, t)
  {
    assert q[..0] == [];
  }

  /** One poll followed by the rest of the loop consumes from the front. */
  lemma ConsumedAfterStep(q: seq<Message>, t: seq<Event>, q': seq<Message>, t': seq<Event>, done: bool,
                          q'': seq<Message>, t'': seq<Event>)
    requires done ==> q != [] && q' == q[1..] && Acks(t') == Acks(t) + [q[0].messageId]
    requires !done ==> q' == q && Acks(t') == Acks(t)
    requires ConsumedFrom(q', t', q'', t'')
    ensures ConsumedFrom(q, t, q'', t'')
  {
    var d := if done then 1 else 0;
    var n := |q'| - |q''|;
    assert q' == q[d..];
    assert q[d..][n..] == q[d + n..];
    assert q[..d + n] == q[..d] + q[d..][..n];
    IdsAppend(q[..d], q[d..][..n]);
  }

  /** Proof helper, modelling nothing: `Ids` distributes over concatenation. */
  lemma IdsAppend(a: seq<Message>, b: seq<Message>)
    ensures Ids(a + b) == Ids(a) + Ids(b)
  {
  }

  /** The loop consumes the queue from the front: what is left is a suffix,
      and the messages acknowledged are exactly the ones dropped, each once,
      in queue order. */
  lemma {:induction false} RunConsumesPrefix(s: WorkerState, names: seq<string>, attempts: seq<Attempt>)
    ensures ConsumedFrom(s.queue, s.trace, Run(s, names, attempts).0.queue, Run(s, names, attempts).0.trace)
    decreases |attempts|
  {
    if attempts == [] {
      ConsumedNothing(s.queue, s.trace);
    } else {
      StepAcks(s, names, attempts[0]);
      var (s', o) := Step(s, names, attempts[0]);
      if o.Stops() {
        ConsumedNothing(s.queue, s.trace);
      } else {
        RunConsumesPrefix(s', names, attempts[1..]);
        var r := Run(s', names, attempts[1..]).0;
        ConsumedAfterStep(s.queue, s.trace, s'.queue, s'.trace, o == Done, r.queue, r.trace);
      }
    }
  }

  /** With nothing queued and every receive succeeding, the loop only polls:
      it never stops and changes nothing. */
  lemma {:induction false} RunIdle(s: WorkerState, names: seq<string>, attempts: seq<Attempt>)
    requires s.queue == []
    requires forall i :: 0 <= i < |attempts| ==> attempts[i].receiveOk
    ensures Run(s, names, attempts) == (s, None)
    decreases |attempts|
  {
    if attempts != [] {
      RunIdle(s, names, attempts[1..]);
    }
  }

  /** The worker process: its queue, blob store, result table and the
      effects it has had. `names` is the class table read at start-up. */
  class Consumer {
    const names: seq<string>
    var queue: seq<Message>
    var blobs: map<string, Bytes>
    var table: map<string, Json>
    var trace: seq<Event>

    function Current(): WorkerState
      reads this
    {
      WorkerState(queue, blobs, table, trace)
    }

    ghost predicate Valid()
      reads this
    {
      ValidState(Current())
    }

    constructor(names: seq<string>, queue: seq<Message>, blobs: map<string, Bytes>, table: map<string, Json>)
      requires forall p :: p in table ==> NoFloats(table[p])
      ensures Valid()
      ensures this.names == names && Current() == WorkerState(queue, blobs, table, [])
    {
      this.names := names;
      this.queue := queue;
      this.blobs := blobs;
      this.table := table;
      this.trace := [];
    }

    /** One pass of the loop body, effect by effect. */
    method Poll(a: Attempt) returns (o: Outcome)
      requires Valid()
      modifies this
      ensures Valid()
      ensures (Current(), o) == Step(old(Current()), names, a)
    {
      ghost var s0 := Current();
      if !a.receiveOk {
        return Crashed(ReceiveFailed);
      }
      if queue == [] {
        return Idle;
      }
      var job := ReadBody(queue[0]);
      if job.Err? {
        return Crashed(job.error);
      }
      var (img, chat) := job.value;
      if !(img.JString? && img.s in blobs && a.downloadOk) {
        return Returned(DownloadFailed);
      }
      var name := img.s;
      if !a.detectOk {
        return Crashed(DetectionFailed);
      }
      var key := PredictedKey(name);
      if key.None? || !a.uploadOk {
        return Returned(UploadFailed);
      }
      blobs := blobs[key.value := a.annotated];
      trace := trace + [Uploaded(key.value)];
      assert Current() == Upload(s0, key.value, a.annotated);
      UploadKeepsValid(s0, key.value, a.annotated);
      var summary := Summary(a, names, queue[0].messageId, name, chat);
      SummaryHasNoFloats(a, names, queue[0].messageId, name, chat);
      o := Finish(a, summary);
    }

    /** The rest of a job once its annotated image is uploaded: the summary
        read from the label file (`None` when there is no label file) is
        stored, the bot called back, and the message deleted. */
    method Finish(a: Attempt, summary: Option<Result<Json, LabelError>>) returns (o: Outcome)
      requires queue != [] && Valid()
      requires |trace| > 0 && trace[|trace| - 1].Uploaded?
      requires summary.Some? && summary.value.Ok? ==> NoFloats(summary.value.value)
      modifies this
      ensures Valid()
      ensures (Current(), o) == AfterUpload(old(Current()), a, summary)
    {
      AfterUploadKeepsValid(Current(), a, summary);
      var pid := queue[0].messageId;
      if summary.Some? {
        if summary.value.Err? {
          return Crashed(BadLabels(summary.value.error));
        }
        if !a.storeOk {
          return Returned(StoreFailed);
        }
        table := table[pid := summary.value.value];
        trace := trace + [Stored(pid)];
        if !a.callbackOk {
          return Crashed(CallbackFailed);
        }
        trace := trace + [Notified(pid)];
      }
      if !a.deleteOk {
        return Crashed(DeleteFailed);
      }
      queue := queue[1..];
      trace := trace + [Acked(pid)];
      o := Done;
    }

    /** `consume`, over a finite run of polls: `None` when the polls ran
        out, otherwise the outcome that ended the loop. */
    method Consume(attempts: seq<Attempt>) returns (stop: Option<Outcome>)
      requires Valid()
      modifies this
      ensures Valid()
      ensures (Current(), stop) == Run(old(Current()), names, attempts)
    {
      var i := 0;
      while i < |attempts|
        invariant 0 <= i <= |attempts|
        invariant Valid()
        invariant Run(Current(), names, attempts[i..]) == Run(old(Current()), names, attempts)
      {
        var o := Poll(attempts[i]);
        assert attempts[i..][1..] == attempts[i + 1..];
        if o.Stops() {
          return Some(o);
        }
        i := i + 1;
      }
      return None;
    }
  }
}
