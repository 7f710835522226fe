/** The `/results` endpoint of the bot (polybot/app.py): look the prediction
    up in the result table and, when it is there, send the chat it came from
    a text listing one detected class per line. */
module Delivery {
  import opened Base
  import opened Text
  import opened JsonValue
  import opened Items

  /** A text message the bot sends to a chat. */
  datatype Outgoing = Outgoing(chatId: Json, text: string)

  /** The HTTP answer and the message sent, if any. */
  datatype Reply = Reply(body: string, status: nat, sent: Option<Outgoing>)

  /** Reasons for an exception escaping the handler (the web framework then answers 500). */
  datatype DeliveryError =
    | NoPredictionId       // `predictionId` missing from the query: the table rejects a null key
    | EmptyPredictionId    // `predictionId=` with no value: the table rejects an empty key
    | MissingChatId        // item['chat_id'] raises KeyError
    | MissingLabels        // item['labels'] raises KeyError
    | LabelsNotIterable    // `for label in labels` raises TypeError
    | BadLabel             // label['class'] raises, or a class is not a string

  const Header: string := "Prediction Results:\n"

  const NotFoundReply: Reply := Reply("Prediction ID not found", 404, None)

  function Results(table: map<string, Json>, predictionId: Option<string>): (r: Result<Reply, DeliveryError>)
    ensures predictionId.None? ==> r == Err(NoPredictionId)
    ensures predictionId == Some("") ==> r == Err(EmptyPredictionId)
    ensures r == Ok(NotFoundReply) <==> predictionId.Some? && predictionId.value != "" && predictionId.value !in table
    ensures r.Ok? ==> r.value == NotFoundReply || (r.value.body == "Ok" && r.value.status == 200 && r.value.sent.Some?)
    ensures r.Ok? && r.value.sent.Some? ==>
              && predictionId.Some? && predictionId.value != "" && predictionId.value in table
              && Field(table[predictionId.value], "chat_id") == Some(r.value.sent.value.chatId)
              && |Header| <= |r.value.sent.value.text| && r.value.sent.value.text[..|Header|] == Header
  {
    match predictionId
    case None => Err(NoPredictionId)
    case Some(id) =>
      if id == "" then Err(EmptyPredictionId)
      else if id !in table then Ok(NotFoundReply)
      else
        var item := table[id];
        match Field(item, "chat_id")
        case None => Err(MissingChatId)
        case Some(chatId) =>
          match Field(item, "labels")
          case None => Err(MissingLabels)
          case Some(labels) =>
            match Iterate(labels)
            case None => Err(LabelsNotIterable)
            case Some(ls) =>
              match ClassNames(ls)
              case None => Err(BadLabel)
              case Some(classes) =>
                Ok(Reply("Ok", 200, Some(Outgoing(chatId, Header + Join(classes, '\n')))))
  }

  /** A stored item with a chat id and a list of labels with string classes. */
  predicate Deliverable(item: Json, chatId: Json, classes: seq<string>)
  {
    && Field(item, "chat_id") == Some(chatId)
    && Field(item, "labels").Some?
    && Field(item, "labels").value.JArray?
    && ClassNames(Field(item, "labels").value.elems) == Some(classes)
  }

  /** A found prediction sends exactly one message, to its chat: the header
      followed by the class names, one per label, in stored order. */
  lemma ResultsOfFoundItem(table: map<string, Json>, id: string, chatId: Json, classes: seq<string>)
    requires id != "" && id in table && Deliverable(table[id], chatId, classes)
    ensures Results(table, Some(id)) == Ok(Reply("Ok", 200, Some(Outgoing(chatId, Header + Join(classes, '\n')))))
  {
  }

  /** The message opens with the header line, then has one line per label,
      duplicates kept, as long as no class name holds a line end. */
  lemma MessageLines(classes: seq<string>)
    requires |classes| >= 1
    requires forall i :: 0 <= i < |classes| ==> '\n' !in classes[i]
    ensures Split(Header + Join(classes, '\n'), '\n') == ["Prediction Results:"] + classes
  {
    var body := Join(classes, '\n');
    HeaderLine();
    assert Header + body == "Prediction Results:" + ['\n'] + body;
    SplitAfterPiece("Prediction Results:", body, '\n');
    SplitJoin(classes, '\n');
  }

  /** Proof helper, modelling nothing: the header is one line. */
  lemma HeaderLine()
    ensures Header == "Prediction Results:" + ['\n'] && '\n' !in "Prediction Results:"
  {
  }

  /** With no labels the message is the header alone. */
  lemma ResultsOfEmptyLabels(table: map<string, Json>, id: string, chatId: Json)
    requires id != "" && id in table && Deliverable(table[id], chatId, [])
    ensures Results(table, Some(id)) == Ok(Reply("Ok", 200, Some(Outgoing(chatId, "Prediction Results:\n"))))
  {
    assert Header + Join([], '\n') == "Prediction Results:\n";
  }
}
