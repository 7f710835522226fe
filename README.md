# PolybotServiceDocker: the detection job pipeline, modelled and proved in Dafny

The system behind this model is a chat bot that identifies objects in photos.
The bot (`polybot/`) takes a user's photo and a detection worker (`yolo5/`)
processes it. The worker polls a queue for jobs. For each job it downloads the
image, runs the detector, and uploads the annotated image under a derived key.
It then turns the detector's label file into a prediction summary, converts
every float in the summary to a decimal, and stores the summary in a result
table. Finally it calls the bot's `/results` endpoint and deletes the message.
The endpoint reads the summary back and sends the chat the text
`Prediction Results:` followed by one detected class per line. The bot also
has a helper, `extract_class`, that condenses a prediction into one
`class: count` line per distinct class.

The project models these modules:

| module | file | what it models |
|---|---|---|
| `Base` | base.dfy | `Option` and `Result` |
| `Text` | text.dfy | `str.split`, `sep.join`, `splitlines` for '\n', `str(n)`, `int(s)` |
| `JsonValue` | json.dfy | Python values as JSON; dict lookup keeps insertion order; iteration |
| `FloatConversion` | convert.dfy | `convert_floats_to_decimal` |
| `Labels` | labels.dfy | parsing a label line and a label file |
| `Paths` | paths.dfy | the blob key of the annotated image; the output and label paths, with `pathlib` normalisation |
| `Items` | items.dfy | the stored label and summary records; reading `label['class']` |
| `Worker` | worker.dfy | the `consume` loop |
| `Bot` | bot.dfy | `is_current_msg_photo`, `download_user_photo`'s choices, `extract_class` |
| `Delivery` | delivery.dfy | `results()` |
| `Pipeline` | pipeline.dfy | the worker and the bot together |

How `Worker` models the `consume` loop:

- The state of the loop is a class, `Worker.Consumer`, with four fields:
  - the queue
  - the blob store
  - the result table
  - a trace of the effects so far: upload, store, notify, delete
- `Poll` runs one pass of the loop body, effect by effect.
- `Consume` is a `while` loop over a finite run of polls.
- Both methods are proved against two specification functions:
  - `Step`, for one pass
  - `Run`, for the whole loop
- Each poll's dealings with the outside world come in as an `Attempt`:
  - which external calls succeed
  - the files the detection run wrote
  - the annotated image
  - the clock
- The loop ends at the three `return`s and at every uncaught exception. It
  goes on after an empty receive and after a finished job.

Three behaviours of the code shape the model:

- A failed download, upload or store `return`s from `consume` and so ends
  the loop (yolo5/app.py:64, 101, 139). Any uncaught exception ends it too.
- When the detection run wrote no label file, nothing is stored, the bot is
  not called, and the message is still deleted (yolo5/app.py:107, 148).
- The key of the annotated image is built from the first two dot-separated
  pieces of the image name, so `a.b.png` becomes `a_predicted.b`
  (yolo5/app.py:95-96, `Paths.PredictedKeyDropsRest`).

## Model

| member | source | states |
|---|---|---|
| Text.Join | polybot/app.py:60 | `sep.join(parts)`, the parts with one separator between neighbours; `JoinSplit` and `SplitJoin` tie it to `Split` |
| Text.Split | yolo5/app.py:110 | `str.split` on one character: at least one piece, and no piece holds the separator |
| Text.JoinSplit | yolo5/app.py:110 | joining the pieces of a split with the same separator gives back the string |
| Text.SplitJoin | polybot/app.py:60 | splitting a join of separator-free pieces gives back the pieces |
| Text.SplitConcat | yolo5/app.py:88-89 | splitting at a separator between two strings gives the pieces of the first, then those of the second |
| Text.SplitLines | yolo5/app.py:109 | `splitlines` gives lines with no line end in them |
| Text.SplitLinesOfFile | yolo5/app.py:109 | reading the lines back from a file of '\n'-ended lines gives exactly those lines |
| Text.SplitLinesOfText | yolo5/app.py:109 | reading the lines back from a text whose non-empty last line has no line end gives exactly those lines, the last one included |
| Text.NatToString | polybot/bot.py:118 | the decimal form of a count is non-empty and made of digits, with no leading zero except for 0 itself; `ParseIntOfNat` gives its value |
| Text.ParseInt | yolo5/app.py:112 | `int()` succeeds exactly on an optional '+' or '-' followed by one or more ASCII digits |
| Text.ParseIntOfNat | yolo5/app.py:112 | `int(str(n)) == n` for every natural number |
| Text.ParseIntOfSigned | yolo5/app.py:112 | `int("-" + str(n)) == -n` and `int("+" + str(n)) == n` |
| Text.ParseIntNeedsDigit | yolo5/app.py:112 | a string with no digit in it never parses |
| JsonValue.Keys | polybot/app.py:55-57 | the keys of a dict, one per entry |
| JsonValue.Get | yolo5/app.py:50-51 | a lookup finds a value exactly when the key is present, and the pair is in the dict |
| JsonValue.Field | polybot/app.py:56-57 | `v[k]` succeeds exactly when `v` is a dict holding `k` |
| JsonValue.Iterate | polybot/app.py:59 | `for x in v` succeeds exactly for lists, dicts and strings; a list yields its elements |
| FloatConversion.ConvertFloats | yolo5/app.py:21-28 | no float is left; the dict keys, their order and the list lengths are kept; each float becomes the decimal of its token, which stands for `Decimal(str(x))` of the float the token identifies, not the exact binary value; other leaves are unchanged |
| FloatConversion.ConvertAgrees | yolo5/app.py:21-28 | the result agrees with the input everywhere except that floats are replaced by decimals |
| FloatConversion.ConvertUnique | yolo5/app.py:21-28 | the conversion is the only float-free value that agrees with the input |
| FloatConversion.ConvertFixedIff | yolo5/app.py:21-28 | a value is unchanged by the conversion exactly when it holds no float |
| FloatConversion.ConvertIdempotent | yolo5/app.py:21-28 | converting twice is the same as converting once |
| FloatConversion.GetConverted | yolo5/app.py:25 | a key looked up in a converted dict finds the converted value, or nothing when the dict had none |
| Worker.ReadBody | yolo5/app.py:48-51 | reading `imgName` and `chat_id` of a message body succeeds exactly when the body is a dict holding both keys, and gives their values; a dict with `imgName` but no `chat_id` fails on `chat_id` |
| Labels.NameAt | yolo5/app.py:112 | `names[i]` succeeds exactly for `-len(names) <= i < len(names)`; it is `names[i]` for a non-negative index and `names[len(names) + i]` for a negative one |
| Labels.ParseLine | yolo5/app.py:110-117 | a line parses exactly when its first space-separated field is an integer that indexes `names` and it has at least five fields; its class is the name at that index and its cx, cy, width and height are fields 1 to 4; a bad integer, an index out of range and a short line give their own errors, checked in that order |
| Labels.ParseLines | yolo5/app.py:111-117 | all lines parse exactly when the result is a list, one record per line in line order; otherwise the error comes from the first line that fails |
| Labels.ParseLabelFile | yolo5/app.py:108-117 | a parsed label file has one record per line |
| Labels.ParseFormattedRow | yolo5/app.py:110-117 | a row written as `index cx cy w h` parses back to the name at its index and its four fields |
| Labels.ParseLabelFileOfRows | yolo5/app.py:108-117 | rows written one per line parse to exactly one record per row, in row order |
| Paths.PredictedKey | yolo5/app.py:95-96 | the key of the annotated image exists exactly when the image name holds a '.' |
| Paths.PredictedKeyDiffers | yolo5/app.py:91-96 | the key of the annotated image never equals the name of the source image |
| Paths.PredictedKeyOfTwoPieces | yolo5/app.py:95-96 | `a.b` gives `a_predicted.b` |
| Paths.PredictedKeyDropsRest | yolo5/app.py:95-96 | `a.b.rest` gives `a_predicted.b`, dropping the rest |
| Paths.NormalizePath | yolo5/app.py:88-89 | `str(Path(p))` for a relative path: the `/`-separated components with the empty ones and `.` dropped, or `.` when none is left; its properties are in `CleanSegments`, `NormalizeDropsDot`, `NormalizeDropsEmpty`, `NormalizeSegments` and `NormalizeIdempotent` |
| Paths.OutputPath | yolo5/app.py:88-89 | the normalised `static/data/{id}/{image}`; `OutputPathOfPlainNames` gives its value for plain names |
| Paths.LabelPath | yolo5/app.py:105-106 | the normalised `static/data/{id}/labels/{stem}.txt`, the stem being the image path up to its first '.'; `NormalizeLabelPath` and `LabelPathOfPlainNames` give its value |
| Paths.CleanSegments | yolo5/app.py:88-89 | a component is kept exactly when it is in the input and is neither empty nor `.`; no more components come out than went in |
| Paths.CleanSegmentsAppend | yolo5/app.py:88-89 | cleaning goes component by component, in input order: cleaning two lists put together gives the cleaned first list followed by the cleaned second |
| Paths.NormalizeDropsDot | yolo5/app.py:88-89 | `p/./q` is the same path as `p/q` |
| Paths.NormalizeDropsEmpty | yolo5/app.py:88-89 | `p//q` is the same path as `p/q` |
| Paths.NormalizeSegments | yolo5/app.py:88-89 | a path made of plain components is its own `pathlib` form |
| Paths.NormalizeIdempotent | yolo5/app.py:88-89 | normalising a normalised path changes nothing |
| Paths.NormalizeUnderDirectory | yolo5/app.py:88-89 | a path under `static/data/{id}/` made of plain components is its own `pathlib` form |
| Paths.OutputPathOfPlainNames | yolo5/app.py:88-89 | for a plain id and image name, the output path is `static/data/{id}/{name}` |
| Paths.StemOfName | yolo5/app.py:106 | the stem of a name holds no '.', and no '/' when the name holds none |
| Paths.NormalizeLabelPath | yolo5/app.py:105-106 | `static/data/{id}/labels/{stem}.txt` is its own `pathlib` form |
| Paths.LabelPathOfPlainNames | yolo5/app.py:105-106 | for a plain id and a name without '/', the label path is `static/data/{id}/labels/{stem}.txt` with a dot-free stem |
| Items.LabelItem | yolo5/app.py:111-117 | the label dict of one detection, with keys `class`, `cx`, `cy`, `width` and `height` in that order; `ConvertedLabelClass` shows its class survives the conversion |
| Items.LabelItems | yolo5/app.py:111-117 | one stored label per detection |
| Items.SummaryItem | yolo5/app.py:122-129 | the prediction summary dict with its six keys in source order; `Pipeline.SummaryFields` and `Pipeline.StoredItemDeliverable` state what the bot reads back from it |
| Items.ClassOf | polybot/app.py:59 | `label['class']` when the label is a dict with a string class, and nothing otherwise; `ClassNames` lifts it to a list of labels |
| Items.ClassNames | polybot/app.py:59 | the class list exists exactly when every label has a string class, and then it lists those classes in label order |
| Items.Classes | yolo5/app.py:112 | the class names of a run of detections, in detection order; the reference list that `ConvertedLabelClasses`, `Pipeline.StoredItemDeliverable` and `Pipeline.DoneJobIsDelivered` compare against |
| Items.ConvertedLabelClass | yolo5/app.py:134 | a stored label still names its class after its floats are converted |
| Items.ConvertedLabelClasses | yolo5/app.py:127-134 | after conversion, the classes of the stored labels are the detected classes in order |
| Delivery.Results | polybot/app.py:36-64 | a missing id and an empty id are errors, because the table refuses both as keys; the answer is 404 exactly when a non-empty id is not in the table; any other answer is `Ok` with one message, sent to the stored chat and starting with the header |
| Delivery.ResultsOfFoundItem | polybot/app.py:54-62 | for a found item under a non-empty id, the message is the header followed by the class names joined with '\n', in stored order |
| Delivery.MessageLines | polybot/app.py:58-60 | the lines of the message are the header line followed by one line per label, duplicates kept |
| Delivery.ResultsOfEmptyLabels | polybot/app.py:58-60 | with no labels, the message is the header alone |
| Bot.IsCurrentMsgPhoto | polybot/bot.py:37-38 | true exactly when the message has a `photo` key |
| Bot.LastFileId | polybot/bot.py:48 | `msg['photo'][-1]['file_id']`: the `file_id` of the last photo size, or nothing when there is no photo list, the list is empty, or the last size has no `file_id`; `DownloadUserPhoto` states its success and errors in terms of it |
| Bot.DownloadUserPhoto | polybot/bot.py:45-50 | fails with "not a photo" exactly when the message has no photo; succeeds exactly when the last (largest) size has a string `file_id` the chat service knows, and then gives that id, the path reported for it and the path's first component as the folder; an unknown id is its own error |
| Bot.PhotoFolder | polybot/bot.py:50 | the folder holds no '/', and the file path is the folder itself or lies inside it |
| Bot.LabelsOf | polybot/bot.py:114 | `response_data['labels']` as the values the loop goes through: defined exactly when the response is a dict whose `labels` is iterable, and a dict without `labels` is its own error |
| Bot.Dedup | polybot/bot.py:113-118 | the key order of the count dict: each class once, where it first occurs; `DedupMembers`, `DedupDistinct` and `DedupOrder` state this |
| Bot.CountOf | polybot/bot.py:116 | `class_counts.get(c, 0)`: the stored count of `c`, or 0 when `c` has no entry; `CountMapCounts` shows it is the number of times `c` occurs |
| Bot.CountMap | polybot/bot.py:113-116 | the count dict after one `get(c, 0) + 1` per label; `CountMapCounts` and `CountsSumToLength` state its entries |
| Bot.ClassSummary | polybot/bot.py:118 | the `class: count` lines joined with '\n'; `ClassSummaryLines` and `ClassSummaryOfNone` state its lines |
| Bot.ExtractClassSpec | polybot/bot.py:111-120 | what `extract_class` returns for a decoded response whose classes are strings: the errors of `LabelsOf`, an error for a label with no string class (`ExtractClassOfBadLabel`), or the summary of the classes in label order; `ExtractClass` is proved equal to it |
| Bot.CountLines | polybot/bot.py:118 | one `class: count` line per key |
| Bot.DedupMembers | polybot/bot.py:113-116 | the dict's keys are exactly the classes seen |
| Bot.CountMapCounts | polybot/bot.py:113-116 | the dict has an entry exactly for each class seen, holding the number of times that class occurs |
| Bot.ExtractClass | polybot/bot.py:109-120 | the loop's result is the summary of the labels' classes; it fails when `labels` is missing or not iterable, or when a label has no string class |
| Bot.DedupDistinct | polybot/bot.py:118 | no class gets two lines |
| Bot.DedupOrder | polybot/bot.py:113-118 | every line is for a class that was seen, and lines follow the order in which classes first occur |
| Bot.CountsSumToLength | polybot/bot.py:113-116 | the counts add up to the number of labels |
| Bot.ClassSummaryOfNone | polybot/bot.py:118 | no labels give the empty string |
| Bot.ClassSummaryLines | polybot/bot.py:118 | line `i` of the summary is the `i`-th distinct class, then `: `, then its number of occurrences |
| Worker.StoredItem | yolo5/app.py:122-134 | the summary stored for a job: the prediction summary with its floats converted; `SummaryHasNoFloats` and `Pipeline.StoredItemDeliverable` state its properties |
| Worker.Summary | yolo5/app.py:105-117 | what the label file yields: nothing without a label file, the parse error of a bad one, or the item to store; `StepDone`, `StepBadLabels` and `Pipeline.DoneWithoutLabelsStoresNothing` state each case |
| Worker.AfterUpload | yolo5/app.py:104-151 | the rest of a job after its upload: a bad label file raises, a failed store returns, a failed callback or delete raises, with a label file that parses, the summary is stored, the bot notified and the message deleted; with no label file, nothing is stored, the bot is not notified, and only the delete happens; `Consumer.Finish` is proved equal to it and `AfterUploadKeepsValid` keeps the invariant |
| Worker.Upload | yolo5/app.py:93-96 | `s3.upload_file`: the annotated image is put in the blob store under the derived key, replacing any blob already there, and the upload is recorded; queue and table are untouched. `StepKeepsSourceImage` shows the source image is never the one replaced, and `StepUploadFailed` that a failed upload changes nothing |
| Worker.Store | yolo5/app.py:135 | `put_item`: the item is stored under the message id, replacing any item stored earlier under that id (a second store of the same job wins), and the store is recorded; queue and blobs are untouched. `StepDone` gives the table after a finished job and `StepStoreFailed` the table after a failed store |
| Worker.Notify | yolo5/app.py:143 | the `requests.post` callback to `/results` with the message id, recorded in the trace and changing no store; `StepDone` places it after the store and before the delete |
| Worker.Ack | yolo5/app.py:148-149 | `delete_message`: the message at the head of the queue is removed and its deletion recorded as `Acked` with its id; `StepAcks` shows only a finished job does this |
| Worker.Acknowledge | yolo5/app.py:148-149 | the delete as the last stage of a job: a failed delete raises with nothing changed, a successful one is `Ack` and the job is done; `StepAcks` and `RunConsumesPrefix` state what the deletes remove |
| Worker.Step | yolo5/app.py:32-153 | one pass of the loop body, from the receive to the delete; `Consumer.Poll` is proved equal to it, and `StepIdle`, `StepDownloadFailed`, `StepUploadFailed`, `StepStoreFailed`, `StepDone`, `StepBadLabels`, `StepAcks` and `StepKeepsValid` state its cases |
| Worker.Run | yolo5/app.py:30-153 | the loop over a finite run of polls, going on after an idle poll or a finished job and ending at the first return or exception; `Consumer.Consume` is proved equal to it, and `RunKeepsValid`, `RunConsumesPrefix` and `RunIdle` state its properties |
| Worker.Ids | yolo5/app.py:42 | one message id per message |
| Worker.StepIdle | yolo5/app.py:36 | an empty receive changes nothing, and the loop goes on |
| Worker.StepDownloadFailed | yolo5/app.py:55-65 | a failed download returns before any effect, and its image was missing or unreadable |
| Worker.StepUploadFailed | yolo5/app.py:93-102 | a failed upload returns with nothing changed |
| Worker.StepStoreFailed | yolo5/app.py:132-139 | a failed store leaves the queue and the table as they were, with only the upload recorded |
| Worker.StepDone | yolo5/app.py:36-151 | a finished job is the job at the head of the queue. Its annotated image is under the derived key. With a label file, the summary is stored under the id and the bot is notified, both before the delete; without one, only the upload and the delete happen |
| Worker.StepBadLabels | yolo5/app.py:107-117 | a label file that does not parse raises out of the loop right after the upload: only the upload has happened, nothing is stored, the bot is not called and the message is not deleted |
| Worker.StepAcks | yolo5/app.py:148-149 | only a finished job removes its message and records its deletion |
| Worker.StepKeepsSourceImage | yolo5/app.py:91-96 | the upload never overwrites the source image |
| Worker.SummaryHasNoFloats | yolo5/app.py:134-135 | a stored summary holds no float |
| Worker.StepKeepsValid | yolo5/app.py:30-153 | every poll keeps the trace ordered and the stores in step with it: a store comes right after an upload, a notify right after its store, and a delete right after its notify or right after an upload; every uploaded key is in the blob store and every stored id in the table; no stored item holds a float |
| Worker.RunKeepsValid | yolo5/app.py:30-153 | the whole loop keeps that invariant |
| Worker.RunConsumesPrefix | yolo5/app.py:30-153 | the loop consumes the queue from the front: what is left is a suffix, and the messages deleted are exactly the ones dropped, in queue order |
| Worker.RunIdle | yolo5/app.py:36-153 | with nothing queued and every receive succeeding, the loop never stops and changes nothing |
| Worker.Consumer.constructor | yolo5/app.py:15-19 | the worker starts with the given queue, blob store, table and class names, and an empty trace |
| Worker.Consumer.Poll | yolo5/app.py:32-151 | one pass of the loop body changes the state and gives the outcome exactly as `Step` does, and keeps the invariant |
| Worker.Consumer.Finish | yolo5/app.py:104-151 | after the upload, the store, the callback and the delete follow `AfterUpload`, and the invariant is kept |
| Worker.Consumer.Consume | yolo5/app.py:30-153 | the loop ends in the state and with the outcome `Run` gives, and keeps the invariant |
| Pipeline.StoredItemDeliverable | yolo5/app.py:122-135 | a stored summary carries the job's chat and, as its label classes, the detected classes |
| Pipeline.DoneJobIsDelivered | polybot/app.py:54-62 | once a job with a label file is done, `/results` for its id sends the job's chat the header and one line per detection, in line order |
| Pipeline.DoneWithoutLabelsStoresNothing | yolo5/app.py:107-149 | a job without a label file stores nothing and deletes its message |

## Left out

- The result table is read with DynamoDB's default, eventually consistent `get_item` (polybot/app.py:47-51), so the callback made right after `put_item` (yolo5/app.py:135, 143) can be answered 404. The model assumes a read always sees the latest write, and `Pipeline.DoneJobIsDelivered` rests on that.
- The clients of the queue, the blob store and the result table are not modelled. They are state the model updates directly (`queue`, `blobs`, `table`), and whether each call succeeds comes from the `Attempt` of that poll.
- The detection run (`run(...)`, yolo5/app.py:73-80) is not modelled. Its annotated image and the files it writes are inputs of the `Attempt`.
- Concurrency and leases are left out: SQS visibility timeouts, redelivery, and several workers sharing one queue. A message that is not deleted stays at the head of the modelled queue.
- Worker.StepKeepsValid: the trace does not record whether a job had a label file. So the invariant lets a delete follow any upload, and it does not say that this happens only when there was no label file. `Worker.StepDone` states that case exactly.
- Message ids are never empty (`Worker.MessageId`), as the queue assigns them. The result table cannot hold an empty key, so an empty id never reaches a store.
- The `while True` loop is modelled over a finite run of polls. Non-termination is not modelled.
- `time.sleep`, `time.time()` and logging are left out. The time is an opaque input of each `Attempt`.
- Floats are opaque tokens that identify them; `JDec(t)` stands for `Decimal(str(x))` of the float `x` that `t` identifies. The text `str(x)` itself is not modelled: it can differ from the text the float was read from (`str(float("1"))` is `"1.0"`, and long literals are rounded). `float(l[1])` raising on a malformed field, and float rounding, are not modelled.
- `json.loads` is not modelled. A queue message body is already a JSON value, or `None` when it is not valid JSON. `Bot.ExtractClass` takes the decoded response, so the decode errors of `json.loads(response)` (polybot/bot.py:111) are not modelled, and neither is the `TypeError` for a response that is not text. Modelled dicts can repeat a key, and lookups take the first entry. Python dicts, including those from `json.loads`, never repeat a key.
- `Text.SplitLines`: only '\n' counts as a line end. `str.splitlines` also breaks at '\r', '\v', '\f' and other Unicode line boundaries.
- `Text.ParseInt`: `int()` also accepts surrounding whitespace, `_` between digits, and non-ASCII decimal digits such as '٣'. The model rejects all of these.
- `Labels.NameAt`: `names` is taken to be a list, so a negative index counts from the end. If the data file gave `names` as a dict, a negative index would raise `KeyError`.
- `Bot.ExtractClassSpec`: a label whose class is not a string is treated as an error (`Err(BadLabel)`). Python would count it and format it with `str()`, unless it is unhashable: `{"labels": [{"class": 5}]}` gives `"5: 1"`.
- `Bot.ExtractClass`: proved equal to `Bot.ExtractClassSpec`, so it has the same gap for a class that is not a string.
- `Bot.DownloadUserPhoto`: only a list counts as the photo sizes, and only a string as a `file_id`. Python's errors for other values are all grouped under the model's error cases. The file download, the folder creation and the file write are not modelled. `get_file` is a map from file id to path.
- `handle_message` is not modelled, and neither are the Telegram client, `send_text`, `send_photo`, the webhook routes and the secrets loading.
- The callback's HTTP request (yolo5/app.py:143) is not modelled beyond an event in the trace. A raised request error ends the loop; the response status is never checked.
