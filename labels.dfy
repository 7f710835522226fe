/** The label file the detection run writes (yolo5/app.py): one line per
    detected object, `classIndex cx cy width height`, the class index
    resolved through the fixed `names` table read at start-up. */
module Labels {
  import opened Base
  import opened Text
  import opened JsonValue

  /** One parsed label record. The geometry fields stay opaque floats. */
  datatype Detection = Detection(cls: string, cx: FloatToken, cy: FloatToken, width: FloatToken, height: FloatToken)

  datatype LabelError =
    | BadClassIndex(field: string)        // int(l[0]) raises ValueError
    | ClassIndexOutOfRange(index: int)    // names[...] raises IndexError
    | MissingField(fields: nat)           // l[1] .. l[4] raise IndexError

  /** `names[i]`: Python counts a negative index from the end of the list. */
  function NameAt(names: seq<string>, i: int): (r: Option<string>)
    ensures r.Some? <==> -|names| <= i < |names|
    ensures r.Some? ==> r.value in names
    ensures 0 <= i < |names| ==> r == Some(names[i])
    ensures -|names| <= i < 0 ==> r == Some(names[|names| + i])
  {
    if 0 <= i < |names| then Some(names[i])
    else if -|names| <= i < 0 then Some(names[|names| + i])
    else None
  }

  /** The class index a line names, when its first field is an integer that
      indexes `names`. */
  predicate HasClassIndex(l: seq<string>, names: seq<string>)
    requires |l| >= 1
  {
    ParseInt(l[0]).Some? && NameAt(names, ParseInt(l[0]).value).Some?
  }

  /** One line, split on single spaces; fields after the fifth are ignored.
      The checks run in the order the source reads the fields: the index
      first, then the name lookup, then the four geometry fields. */
  function ParseLine(line: string, names: seq<string>): (r: Result<Detection, LabelError>)
    ensures r.Ok? <==> HasClassIndex(Split(line, ' '), names) && |Split(line, ' ')| >= 5
    ensures r.Ok? ==> NameAt(names, ParseInt(Split(line, ' ')[0]).value) == Some(r.value.cls)
    ensures r.Ok? ==> var l := Split(line, ' ');
                      && r.value.cx == FloatToken(l[1]) && r.value.cy == FloatToken(l[2])
                      && r.value.width == FloatToken(l[3]) && r.value.height == FloatToken(l[4])
    ensures ParseInt(Split(line, ' ')[0]).None? ==> r == Err(BadClassIndex(Split(line, ' ')[0]))
    ensures ParseInt(Split(line, ' ')[0]).Some? && NameAt(names, ParseInt(Split(line, ' ')[0]).value).None? ==>
              r == Err(ClassIndexOutOfRange(ParseInt(Split(line, ' ')[0]).value))
    ensures HasClassIndex(Split(line, ' '), names) && |Split(line, ' ')| < 5 ==> r == Err(MissingField(|Split(line, ' ')|))
  {
    var l := Split(line, ' ');
    match ParseInt(l[0])
    case None => Err(BadClassIndex(l[0]))
    case Some(i) =>
      match NameAt(names, i)
      case None => Err(ClassIndexOutOfRange(i))
      case Some(cls) =>
        if |l| < 5 then Err(MissingField(|l|))
        else Ok(Detection(cls, FloatToken(l[1]), FloatToken(l[2]), FloatToken(l[3]), FloatToken(l[4])))
  }

  /** Line `k` is the first line that does not parse, and it fails with `e`. */
  predicate FailsFirstAt(lines: seq<string>, names: seq<string>, k: int, e: LabelError)
  {
    && 0 <= k < |lines|
    && ParseLine(lines[k], names) == Err(e)
    && forall j :: 0 <= j < k ==> ParseLine(lines[j], names).Ok?
  }

  lemma FailsFirstAfterGoodLine(lines: seq<string>, names: seq<string>, e: LabelError)
    requires lines != [] && ParseLine(lines[0], names).Ok?
    requires exists k :: FailsFirstAt(lines[1..], names, k, e)
    ensures exists k :: FailsFirstAt(lines, names, k, e)
  {
    var k :| FailsFirstAt(lines[1..], names, k, e);
    assert lines[k + 1] == lines[1..][k];
    forall j | 0 <= j < k + 1 ensures ParseLine(lines[j], names).Ok? {
      if j > 0 { assert lines[j] == lines[1..][j - 1]; }
    }
    assert FailsFirstAt(lines, names, k + 1, e);
  }

  /** The comprehension over the lines: every line must parse, and the first
      line that does not decides the error. */
  function ParseLines(lines: seq<string>, names: seq<string>): (r: Result<seq<Detection>, LabelError>)
    ensures r.Ok? <==> forall i :: 0 <= i < |lines| ==> ParseLine(lines[i], names).Ok?
    ensures r.Ok? ==> |r.value| == |lines|
    ensures r.Ok? ==> forall i :: 0 <= i < |lines| ==> r.value[i] == ParseLine(lines[i], names).value
    ensures r.Err? ==> exists k :: FailsFirstAt(lines, names, k, r.error)
  {
    if lines == [] then Ok([])
    else
      match ParseLine(lines[0], names)
      case Err(e) => assert FailsFirstAt(lines, names, 0, e); Err(e)
      case Ok(d) =>
        var rest := ParseLines(lines[1..], names);
        assert forall i :: 1 <= i < |lines| ==> lines[i] == lines[1..][i - 1];
        match rest
        case Err(e) => FailsFirstAfterGoodLine(lines, names, e); Err(e)
        case Ok(ds) => Ok([d] + ds)
  }

  /** The whole label file: `f.read().splitlines()`, then one record per line. */
  function ParseLabelFile(content: string, names: seq<string>): (r: Result<seq<Detection>, LabelError>)
    ensures r.Ok? ==> |r.value| == |SplitLines(content)|
  {
    ParseLines(SplitLines(content), names)
  }

  /** A field the detection run writes: no space and no line end inside. */
  predicate IsToken(t: string)
  {
    ' ' !in t && '\n' !in t
  }

  /** One line as the detection run writes it. */
  datatype LabelRow = LabelRow(index: nat, cx: string, cy: string, width: string, height: string)

  predicate HasTokenFields(row: LabelRow)
  {
    IsToken(row.cx) && IsToken(row.cy) && IsToken(row.width) && IsToken(row.height)
  }

  function RowFields(row: LabelRow): seq<string>
  {
    [NatToString(row.index), row.cx, row.cy, row.width, row.height]
  }

  function FormatRow(row: LabelRow): string
  {
    Join(RowFields(row), ' ')
  }

  /** The record the parser is meant to recover from a row. */
  function RowDetection(row: LabelRow, names: seq<string>): Detection
    requires row.index < |names|
  {
    Detection(names[row.index], FloatToken(row.cx), FloatToken(row.cy), FloatToken(row.width), FloatToken(row.height))
  }

  lemma {:induction false} JoinAvoids(parts: seq<string>, sep: char, c: char)
    requires c != sep
    requires forall i :: 0 <= i < |parts| ==> c !in parts[i]
    ensures c !in Join(parts, sep)
  {
    if |parts| > 1 {
      JoinAvoids(parts[1..], sep, c);
    }
  }

  /** A formatted row parses back to the class name at its index and its four fields. */
  lemma ParseFormattedRow(row: LabelRow, names: seq<string>)
    requires row.index < |names| && HasTokenFields(row)
    ensures ParseLine(FormatRow(row), names) == Ok(RowDetection(row, names))
  {
    var fs := RowFields(row);
    assert ' ' !in NatToString(row.index);
    SplitJoin(fs, ' ');
    ParseIntOfNat(row.index);
  }

  /** The text of a label file holding the rows, one per line. */
  function RowsFile(rows: seq<LabelRow>): string
  {
    LinesFile(seq(|rows|, i requires 0 <= i < |rows| => FormatRow(rows[i])))
  }

  /** Rows written one per line parse to exactly one record per row, in row order. */
  lemma ParseLabelFileOfRows(rows: seq<LabelRow>, names: seq<string>)
    requires forall i :: 0 <= i < |rows| ==> rows[i].index < |names|
    requires forall i :: 0 <= i < |rows| ==> HasTokenFields(rows[i])
    ensures ParseLabelFile(RowsFile(rows), names).Ok?
    ensures |ParseLabelFile(RowsFile(rows), names).value| == |rows|
    ensures forall i :: 0 <= i < |rows| ==> ParseLabelFile(RowsFile(rows), names).value[i] == RowDetection(rows[i], names)
  {
    var lines := seq(|rows|, i requires 0 <= i < |rows| => FormatRow(rows[i]));
    forall i | 0 <= i < |rows| ensures '\n' !in lines[i] && ParseLine(lines[i], names) == Ok(RowDetection(rows[i], names)) {
      assert '\n' !in NatToString(rows[i].index);
      JoinAvoids(RowFields(rows[i]), ' ', '\n');
      ParseFormattedRow(rows[i], names);
    }
    SplitLinesOfFile(lines);
  }
}
