/** The chat-bot side logic (polybot/bot.py): recognising a photo message,
    choosing which photo file to fetch and where it goes, and summarising
    a prediction as one `class: count` line per distinct class. */
module Bot {
  import opened Base
  import opened Text
  import opened JsonValue
  import opened Items

  /** `'photo' in msg` for a message dict. */
  function IsCurrentMsgPhoto(msg: seq<(string, Json)>): (r: bool)
    ensures r <==> "photo" in Keys(msg)
  {
    Get(msg, "photo").Some?
  }

  datatype PhotoError =
    | NotAPhoto     // RuntimeError: message content of type 'photo' expected
    | NoPhotoSizes  // msg['photo'][-1] raises: not a list, or an empty one
    | NoFileId      // [...]['file_id'] raises, or is not a string
    | UnknownFile   // get_file fails for that id

  /** The photo chosen for download, where the chat service stores it, and
      the local folder created for it. */
  datatype PhotoFile = PhotoFile(fileId: string, filePath: string, folder: string)

  /** `msg['photo'][-1]['file_id']`, when the message has a non-empty list of
      photo sizes and the last one has that key. */
  function LastFileId(msg: seq<(string, Json)>): Option<Json>
  {
    match Get(msg, "photo")
    case Some(JArray(sizes)) => if sizes == [] then None else Field(sizes[|sizes| - 1], "file_id")
    case _ => None
  }

  /** The choices of `download_user_photo`: the largest (last) size of the
      photo, the path the chat service reports for it (`files` stands for
      `get_file`), and the folder named by the first component of that path. */
  function DownloadUserPhoto(msg: seq<(string, Json)>, files: map<string, string>): (r: Result<PhotoFile, PhotoError>)
    ensures r == Err(NotAPhoto) <==> !IsCurrentMsgPhoto(msg)
    ensures r.Ok? ==>
              && Get(msg, "photo").Some? && Get(msg, "photo").value.JArray?
              && |Get(msg, "photo").value.elems| >= 1
              && Field(Get(msg, "photo").value.elems[|Get(msg, "photo").value.elems| - 1], "file_id")
                 == Some(JString(r.value.fileId))
              && r.value.fileId in files && files[r.value.fileId] == r.value.filePath
    ensures r.Ok? <==> LastFileId(msg).Some? && LastFileId(msg).value.JString? && LastFileId(msg).value.s in files
    ensures r.Ok? ==> var id := LastFileId(msg).value.s;
                      r.value == PhotoFile(id, files[id], Split(files[id], '/')[0])
    ensures r == Err(UnknownFile) <==> LastFileId(msg).Some? && LastFileId(msg).value.JString? && LastFileId(msg).value.s !in files
  {
    if !IsCurrentMsgPhoto(msg) then Err(NotAPhoto)
    else
      match Get(msg, "photo").value
      case JArray(sizes) =>
        if sizes == [] then Err(NoPhotoSizes)
        else
          (match Field(sizes[|sizes| - 1], "file_id")
           case Some(JString(id)) =>
             if id in files then
               var path := files[id];
               Ok(PhotoFile(id, path, Split(path, '/')[0]))
             else Err(UnknownFile)
           case _ => Err(NoFileId))
      case _ => Err(NoPhotoSizes)
  }

  /** The folder is the directory part of the first component: it holds no
      '/', and the file path is the folder itself or lies inside it. */
  lemma PhotoFolder(msg: seq<(string, Json)>, files: map<string, string>)
    requires DownloadUserPhoto(msg, files).Ok?
    ensures var p := DownloadUserPhoto(msg, files).value;
            && '/' !in p.folder
            && (p.filePath == p.folder
                || (|p.folder| < |p.filePath| && p.filePath[..|p.folder| + 1] == p.folder + "/"))
  {
    var p := DownloadUserPhoto(msg, files).value;
    var parts := Split(p.filePath, '/');
    JoinSplit(p.filePath, '/');
    if |parts| > 1 {
      assert p.filePath == parts[0] + ['/'] + Join(parts[1..], '/');
      assert p.filePath[..|p.folder| + 1] == p.folder + "/";
    }
  }

  // ---- extract_class: counting classes in first-occurrence order ----

  /** Occurrences of `c` in `s`: the reference the counts are checked against. */
  function Count(s: seq<string>, c: string): nat
  {
    if s == [] then 0
    else Count(s[..|s| - 1], c) + (if s[|s| - 1] == c then 1 else 0)
  }

  /** The distinct elements of `s`, each where it first occurs: the key order
      of a dict filled by going through `s`. */
  function Dedup(s: seq<string>): seq<string>
  {
    if s == [] then []
    else
      var d := Dedup(s[..|s| - 1]);
      if s[|s| - 1] in d then d else d + [s[|s| - 1]]
  }

  /** `counts.get(c, 0)`. */
  function CountOf(counts: map<string, nat>, c: string): nat
  {
    if c in counts then counts[c] else 0
  }

  /** The count dict after going through `s`, one `get(c, 0) + 1` per class. */
  function CountMap(s: seq<string>): map<string, nat>
  {
    if s == [] then map[]
    else
      var m := CountMap(s[..|s| - 1]);
      var c := s[|s| - 1];
      m[c := CountOf(m, c) + 1]
  }

  /** `[f"{class_name}: {count}" for class_name, count in class_counts.items()]`. */
  function CountLines(keys: seq<string>, counts: map<string, nat>): (r: seq<string>)
    ensures |r| == |keys|
  {
    seq(|keys|, i requires 0 <= i < |keys| => keys[i] + ": " + NatToString(CountOf(counts, keys[i])))
  }

  /** The summary of a list of class names. */
  function ClassSummary(classes: seq<string>): string
  {
    Join(CountLines(Dedup(classes), CountMap(classes)), '\n')
  }

  datatype ExtractError =
    | NotADict     // response_data['labels'] on a value that is not a dict
    | NoLabels     // KeyError: 'labels'
    | NotIterable  // `for label in ...` on a value that is not iterable
    | BadLabel     // label['class'] raises, or the class is not a string

  /** `response_data['labels']`, as the values the loop goes through. */
  function LabelsOf(data: Json): (r: Result<seq<Json>, ExtractError>)
    ensures r.Ok? <==> data.JObject? && "labels" in Keys(data.fields) && Iterate(Get(data.fields, "labels").value).Some?
    ensures r.Ok? ==> Some(r.value) == Iterate(Get(data.fields, "labels").value)
    ensures r == Err(NoLabels) <==> data.JObject? && "labels" !in Keys(data.fields)
  {
    if !data.JObject? then Err(NotADict)
    else match Get(data.fields, "labels")
      case None => Err(NoLabels)
      case Some(v) =>
        match Iterate(v)
        case None => Err(NotIterable)
        case Some(ls) => Ok(ls)
  }

  /** What `extract_class` returns for the decoded response. */
  function ExtractClassSpec(data: Json): Result<string, ExtractError>
  {
    match LabelsOf(data)
    case Err(e) => Err(e)
    case Ok(ls) =>
      match ClassNames(ls)
      case None => Err(BadLabel)
      case Some(classes) => Ok(ClassSummary(classes))
  }

  lemma {:induction false} DedupMembers(s: seq<string>)
    ensures forall c :: c in Dedup(s) <==> c in s
  {
    if s != [] {
      var init := s[..|s| - 1];
      DedupMembers(init);
      assert s == init + [s[|s| - 1]];
    }
  }

  lemma DedupSnoc(s: seq<string>, x: string)
    ensures Dedup(s + [x]) == if x in s then Dedup(s) else Dedup(s) + [x]
  {
    assert (s + [x])[..|s + [x]| - 1] == s;
    DedupMembers(s);
  }

  lemma CountOfSnoc(s: seq<string>, x: string, c: string)
    ensures Count(s + [x], c) == Count(s, c) + (if x == c then 1 else 0)
  {
    assert (s + [x])[..|s + [x]| - 1] == s;
  }

  lemma CountMapSnoc(s: seq<string>, x: string)
    ensures CountMap(s + [x]) == CountMap(s)[x := CountOf(CountMap(s), x) + 1]
  {
    assert (s + [x])[..|s + [x]| - 1] == s;
  }

  /** The count dict holds exactly the classes that occur, each with its
      number of occurrences. */
  lemma {:induction false} CountMapCounts(s: seq<string>)
    ensures forall c :: c in CountMap(s) <==> c in s
    ensures forall c :: CountOf(CountMap(s), c) == Count(s, c)
  {
    if s != [] {
      var init, x := s[..|s| - 1], s[|s| - 1];
      assert s == init + [x];
      CountMapCounts(init);
      forall c ensures CountOf(CountMap(s), c) == Count(s, c) {
        CountOfSnoc(init, x, c);
      }
    }
  }

  /** One turn of the counting loop: bumping the next class keeps the count
      dict and its key order those of the classes seen so far. */
  lemma CountStep(seen: seq<string>, keys: seq<string>, counts: map<string, nat>, c: string)
    requires keys == Dedup(seen) && counts == CountMap(seen)
    ensures (if c in counts then keys else keys + [c]) == Dedup(seen + [c])
    ensures counts[c := CountOf(counts, c) + 1] == CountMap(seen + [c])
  {
    CountMapSnoc(seen, c);
    CountMapCounts(seen);
    DedupSnoc(seen, c);
  }

  /** `seen` holds the classes of the first `|seen|` labels. */
  predicate ClassesSoFar(labels: seq<Json>, seen: seq<string>)
  {
    |seen| <= |labels| && forall j :: 0 <= j < |seen| ==> ClassOf(labels[j]) == Some(seen[j])
  }

  lemma ClassesSoFarSnoc(labels: seq<Json>, seen: seq<string>, c: string)
    requires ClassesSoFar(labels, seen) && |seen| < |labels| && ClassOf(labels[|seen|]) == Some(c)
    ensures ClassesSoFar(labels, seen + [c])
  {
  }

  /** The loop got through every label: the result is the summary of their classes. */
  lemma ExtractClassOfAll(data: Json, labels: seq<Json>, seen: seq<string>)
    requires LabelsOf(data) == Ok(labels) && |seen| == |labels| && ClassesSoFar(labels, seen)
    ensures ExtractClassSpec(data) == Ok(ClassSummary(seen))
  {
    assert ClassNames(labels).Some?;
    assert ClassNames(labels).value == seen;
  }

  /** A label without a string class makes the whole call fail. */
  lemma ExtractClassOfBadLabel(data: Json, labels: seq<Json>, i: nat)
    requires LabelsOf(data) == Ok(labels) && i < |labels| && ClassOf(labels[i]).None?
    ensures ExtractClassSpec(data) == Err(BadLabel)
  {
  }

  /** The loop of `extract_class`: it fills the count dict (its key order in
      `keys`, its entries in `counts`) and stops at the first label with no
      string class. */
  method ExtractClass(data: Json) returns (r: Result<string, ExtractError>)
    ensures r == ExtractClassSpec(data)
  {
    var labelsOf := LabelsOf(data);
    if labelsOf.Err? {
      return Err(labelsOf.error);
    }
    var labels := labelsOf.value;
    var keys: seq<string> := [];
    var counts: map<string, nat> := map[];
    ghost var seen: seq<string> := [];
    var i := 0;
    while i < |labels|
      invariant 0 <= i <= |labels| && |seen| == i
      invariant ClassesSoFar(labels, seen)
      invariant keys == Dedup(seen)
      invariant counts == CountMap(seen)
    {
      var className := ClassOf(labels[i]);
      if className.None? {
        ExtractClassOfBadLabel(data, labels, i);
        return Err(BadLabel);
      }
      var c := className.value;
      CountStep(seen, keys, counts, c);
      ClassesSoFarSnoc(labels, seen, c);
      if c !in counts {
        keys := keys + [c];
      }
      counts := counts[c := CountOf(counts, c) + 1];
      seen := seen + [c];
      i := i + 1;
    }
    ExtractClassOfAll(data, labels, seen);
    r := Ok(Join(CountLines(keys, counts), '\n'));
  }

  // ---- what the summary promises ----

  /** Where `c` first occurs in `s`. */
  function FirstIndex(s: seq<string>, c: string): (k: nat)
    requires c in s
    ensures k < |s| && s[k] == c
    ensures forall j :: 0 <= j < k ==> s[j] != c
  {
    if s[0] == c then 0 else 1 + FirstIndex(s[1..], c)
  }

  /** The sum of the counts stored for `keys`. */
  function SumCounts(keys: seq<string>, counts: map<string, nat>): nat
  {
    if keys == [] then 0
    else SumCounts(keys[..|keys| - 1], counts) + CountOf(counts, keys[|keys| - 1])
  }

  /** No class gets two lines. */
  lemma {:induction false} DedupDistinct(s: seq<string>)
    ensures forall i, j :: 0 <= i < j < |Dedup(s)| ==> Dedup(s)[i] != Dedup(s)[j]
  {
    if s != [] {
      var init := s[..|s| - 1];
      DedupDistinct(init);
      DedupMembers(init);
    }
  }

  lemma FirstIndexOfSnoc(s: seq<string>, x: string, c: string)
    requires c in s
    ensures FirstIndex(s + [x], c) == FirstIndex(s, c)
  {
    var k := FirstIndex(s, c);
    assert (s + [x])[k] == c;
    assert forall j :: 0 <= j < k ==> (s + [x])[j] == s[j];
  }

  lemma FirstIndexOfLast(s: seq<string>, x: string)
    requires x !in s
    ensures FirstIndex(s + [x], x) == |s|
  {
    assert forall j :: 0 <= j < |s| ==> (s + [x])[j] == s[j];
  }

  /** Lines follow the order in which the classes first occur. */
  lemma {:induction false} DedupOrder(s: seq<string>)
    ensures forall c :: c in Dedup(s) ==> c in s
    ensures forall i, j :: 0 <= i < j < |Dedup(s)| ==> FirstIndex(s, Dedup(s)[i]) < FirstIndex(s, Dedup(s)[j])
  {
    DedupMembers(s);
    if s != [] {
      var init, x := s[..|s| - 1], s[|s| - 1];
      assert s == init + [x];
      DedupOrder(init);
      forall i, j | 0 <= i < j < |Dedup(s)| ensures FirstIndex(s, Dedup(s)[i]) < FirstIndex(s, Dedup(s)[j]) {
        DedupOrderSnoc(init, x, i, j);
      }
    }
  }

  /** One more class keeps the first-occurrence order of the lines. */
  lemma DedupOrderSnoc(init: seq<string>, x: string, i: int, j: int)
    requires forall c :: c in Dedup(init) ==> c in init
    requires forall i, j :: 0 <= i < j < |Dedup(init)| ==> FirstIndex(init, Dedup(init)[i]) < FirstIndex(init, Dedup(init)[j])
    requires 0 <= i < j < |Dedup(init + [x])|
    ensures Dedup(init + [x])[i] in init + [x] && Dedup(init + [x])[j] in init + [x]
    ensures FirstIndex(init + [x], Dedup(init + [x])[i]) < FirstIndex(init + [x], Dedup(init + [x])[j])
  {
    var s := init + [x];
    var d, e := Dedup(init), Dedup(s);
    DedupSnoc(init, x);
    DedupMembers(s);
    assert e[i] == d[i];
    FirstIndexOfSnoc(init, x, d[i]);
    if j < |d| {
      assert e[j] == d[j];
      FirstIndexOfSnoc(init, x, d[j]);
    } else {
      FirstIndexOfLast(init, x);
    }
  }

  lemma {:induction false} SumCountsBump(keys: seq<string>, m: map<string, nat>, x: string)
    requires forall i, j :: 0 <= i < j < |keys| ==> keys[i] != keys[j]
    ensures SumCounts(keys, m[x := CountOf(m, x) + 1]) == SumCounts(keys, m) + (if x in keys then 1 else 0)
  {
    if keys != [] {
      var init, last := keys[..|keys| - 1], keys[|keys| - 1];
      assert keys == init + [last];
      SumCountsBump(init, m, x);
      if last == x {
        assert x !in init;
      }
    }
  }

  lemma SumCountsSnoc(keys: seq<string>, x: string, m: map<string, nat>)
    ensures SumCounts(keys + [x], m) == SumCounts(keys, m) + CountOf(m, x)
  {
    assert (keys + [x])[..|keys + [x]| - 1] == keys;
  }

  /** The counts add up to the number of labels. */
  lemma {:induction false} CountsSumToLength(s: seq<string>)
    ensures SumCounts(Dedup(s), CountMap(s)) == |s|
  {
    if s != [] {
      var init, x := s[..|s| - 1], s[|s| - 1];
      assert s == init + [x];
      var d, m := Dedup(init), CountMap(init);
      CountsSumToLength(init);
      assert CountMap(s) == m[x := CountOf(m, x) + 1] by { CountMapSnoc(init, x); }
      assert SumCounts(d, CountMap(s)) == SumCounts(d, m) + (if x in d then 1 else 0) by {
        DedupDistinct(init);
        SumCountsBump(d, m, x);
      }
      assert x in d <==> x in init by { DedupMembers(init); }
      if x in init {
        assert Dedup(s) == d by { DedupSnoc(init, x); }
      } else {
        assert Dedup(s) == d + [x] by { DedupSnoc(init, x); }
        assert CountOf(m, x) == 0 by { CountMapCounts(init); }
        SumCountsSnoc(d, x, CountMap(s));
      }
    }
  }

  /** No labels, no lines: the summary is the empty string. */
  lemma ClassSummaryOfNone()
    ensures ClassSummary([]) == ""
  {
  }

  lemma NoLineEndInLine(name: string, n: nat)
    requires '\n' !in name
    ensures '\n' !in name + ": " + NatToString(n)
  {
    assert forall c :: c in NatToString(n) ==> IsDigit(c);
  }

  /** Line `i` of the summary names the `i`-th distinct class and its number
      of occurrences, as long as no class name holds a line end. */
  lemma ClassSummaryLines(classes: seq<string>)
    requires |classes| >= 1
    requires forall i :: 0 <= i < |classes| ==> '\n' !in classes[i]
    ensures |Split(ClassSummary(classes), '\n')| == |Dedup(classes)|
    ensures forall i :: 0 <= i < |Dedup(classes)| ==>
              Split(ClassSummary(classes), '\n')[i]
              == Dedup(classes)[i] + ": " + NatToString(Count(classes, Dedup(classes)[i]))
  {
    DedupMembers(classes);
    CountMapCounts(classes);
    var d := Dedup(classes);
    var lines := CountLines(d, CountMap(classes));
    assert classes[0] in d;
    forall i | 0 <= i < |lines| ensures '\n' !in lines[i] {
      var k :| 0 <= k < |classes| && classes[k] == d[i];
      NoLineEndInLine(d[i], CountOf(CountMap(classes), d[i]));
    }
    SplitJoin(lines, '\n');
  }
}
