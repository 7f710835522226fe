/** The names the worker derives for one job (yolo5/app.py): the blob key of
    the annotated image, the local path the detection run writes it to, and
    the path of its label file. The local paths go through `pathlib.Path`,
    whose string form drops empty and '.' components. */
module Paths {
  import opened Base
  import opened Text

  /** The blob key of the annotated image, `{first}_predicted.{second}` from
      the dot-separated pieces of the image name; with no '.' in the name
      the second piece does not exist and Python raises IndexError. */
  function PredictedKey(imgName: string): (r: Option<string>)
    ensures r.Some? <==> '.' in imgName
  {
    var parts := Split(imgName, '.');
    JoinSplit(imgName, '.');
    if |parts| == 1 then
      assert imgName == parts[0];
      None
    else
      assert imgName == parts[0] + ['.'] + Join(parts[1..], '.');
      assert imgName[|parts[0]|] == '.';
      Some(parts[0] + "_predicted." + parts[1])
  }

  /** The annotated image never overwrites the source image. */
  lemma PredictedKeyDiffers(imgName: string)
    requires PredictedKey(imgName).Some?
    ensures PredictedKey(imgName).value != imgName
  {
    var parts := Split(imgName, '.');
    JoinSplit(imgName, '.');
    assert imgName == parts[0] + ['.'] + Join(parts[1..], '.');
    var key := PredictedKey(imgName).value;
    assert key[|parts[0]|] == '_';
    assert imgName[|parts[0]|] == '.';
  }

  /** For `a.b`, the key is `a_predicted.b`. */
  lemma PredictedKeyOfTwoPieces(a: string, b: string)
    requires '.' !in a && '.' !in b
    ensures PredictedKey(a + "." + b) == Some(a + "_predicted." + b)
  {
    SplitAfterPiece(a, b, '.');
    SplitNoSeparator(b, '.');
  }

  /** Only the first two dot-separated pieces are kept: `a.b.rest` gives `a_predicted.b`. */
  lemma PredictedKeyDropsRest(a: string, b: string, rest: string)
    requires '.' !in a && '.' !in b
    ensures PredictedKey(a + "." + b + "." + rest) == Some(a + "_predicted." + b)
  {
    assert a + "." + b + "." + rest == a + ['.'] + (b + ['.'] + rest);
    SplitAfterPiece(a, b + ['.'] + rest, '.');
    SplitAfterPiece(b, rest, '.');
  }

  /** A component `pathlib` keeps as it is. */
  predicate IsSegment(s: string)
  {
    s != "" && s != "." && '/' !in s
  }

  /** The components of a relative path that `pathlib` keeps. */
  function CleanSegments(segs: seq<string>): (r: seq<string>)
    ensures forall i :: 0 <= i < |r| ==> r[i] != "" && r[i] != "." && r[i] in segs
    ensures forall x :: x in r <==> x in segs && x != "" && x != "."
    ensures |r| <= |segs|
  {
    if segs == [] then []
    else (if segs[0] == "" || segs[0] == "." then [] else [segs[0]]) + CleanSegments(segs[1..])
  }

  /** `str(Path(p))` for a relative path `p`. */
  function NormalizePath(p: string): string
  {
    var segs := CleanSegments(Split(p, '/'));
    if segs == [] then "." else Join(segs, '/')
  }

  lemma {:induction false} CleanSegmentsKeeps(segs: seq<string>)
    requires forall i :: 0 <= i < |segs| ==> segs[i] != "" && segs[i] != "."
    ensures CleanSegments(segs) == segs
  {
    if segs != [] {
      CleanSegmentsKeeps(segs[1..]);
      assert [segs[0]] + segs[1..] == segs;
    }
  }

  /** Cleaning goes component by component: the kept components of two
      paths put together are those of the first followed by those of the second. */
  lemma {:induction false} CleanSegmentsAppend(a: seq<string>, b: seq<string>)
    ensures CleanSegments(a + b) == CleanSegments(a) + CleanSegments(b)
  {
    if a == [] {
      assert a + b == b;
    } else {
      CleanSegmentsAppend(a[1..], b);
      CleanSegmentsAppendStep(a, b);
    }
  }

  /** The inductive step of `CleanSegmentsAppend`, for the first component of `a`. */
  lemma CleanSegmentsAppendStep(a: seq<string>, b: seq<string>)
    requires a != []
    requires CleanSegments(a[1..] + b) == CleanSegments(a[1..]) + CleanSegments(b)
    ensures CleanSegments(a + b) == CleanSegments(a) + CleanSegments(b)
  {
    var x, rest := a[0], a[1..];
    var h := if x == "" || x == "." then [] else [x];
    var ra, rb := CleanSegments(rest), CleanSegments(b);
    calc {
      CleanSegments(a + b);
      { ConsAppend(a, b); }
      CleanSegments([x] + (rest + b));
      { CleanSegmentsCons(x, rest + b); }
      h + (ra + rb);
      h + ra + rb;
      { CleanSegmentsCons(x, rest); ConsAppend(a, []); assert a + [] == a; }
      CleanSegments(a) + rb;
    }
  }

  /** Proof helper, modelling nothing: a non-empty sequence followed by
      another is its head before the rest. Stated once for any element type,
      so that sequences of strings are not compared element by element. */
  lemma ConsAppend<T>(a: seq<T>, b: seq<T>)
    requires a != []
    ensures a + b == [a[0]] + (a[1..] + b)
  {
  }

  lemma CleanSegmentsCons(x: string, rest: seq<string>)
    ensures CleanSegments([x] + rest) == (if x == "" || x == "." then [] else [x]) + CleanSegments(rest)
  {
    assert ([x] + rest)[1..] == rest;
  }

  /** Between two paths, a component that is dropped leaves the same path as none. */
  lemma NormalizeDropsComponent(p: string, mid: string, q: string)
    requires mid == "" || mid == "."
    ensures NormalizePath(p + ['/'] + mid + ['/'] + q) == NormalizePath(p + ['/'] + q)
  {
    var sp, sq := Split(p, '/'), Split(q, '/');
    SplitConcat(p + ['/'] + mid, q, '/');
    SplitConcat(p, mid, '/');
    SplitNoSeparator(mid, '/');
    SplitConcat(p, q, '/');
    assert Split(p + ['/'] + mid + ['/'] + q, '/') == (sp + [mid]) + sq;
    CleanSegmentsAppend(sp + [mid], sq);
    CleanSegmentsAppend(sp, [mid]);
    CleanSegmentsAppend(sp, sq);
    assert CleanSegments([mid]) == [];
    assert CleanSegments(sp + [mid]) == CleanSegments(sp);
  }

  /** A `.` component is dropped: `p/./q` is the same path as `p/q`. */
  lemma NormalizeDropsDot(p: string, q: string)
    ensures NormalizePath(p + "/./" + q) == NormalizePath(p + "/" + q)
  {
    assert p + "/./" + q == p + ['/'] + "." + ['/'] + q;
    NormalizeDropsComponent(p, ".", q);
  }

  /** An empty component is dropped: `p//q` is the same path as `p/q`. */
  lemma NormalizeDropsEmpty(p: string, q: string)
    ensures NormalizePath(p + "//" + q) == NormalizePath(p + "/" + q)
  {
    assert p + "//" + q == p + ['/'] + "" + ['/'] + q;
    NormalizeDropsComponent(p, "", q);
  }

  /** A path made of kept components is its own string form. */
  lemma NormalizeSegments(segs: seq<string>)
    requires |segs| >= 1
    requires forall i :: 0 <= i < |segs| ==> IsSegment(segs[i])
    ensures NormalizePath(Join(segs, '/')) == Join(segs, '/')
  {
    SplitJoin(segs, '/');
    CleanSegmentsKeeps(segs);
  }

  /** Normalising a normalised path changes nothing. */
  lemma NormalizeIdempotent(p: string)
    ensures NormalizePath(NormalizePath(p)) == NormalizePath(p)
  {
    var segs := CleanSegments(Split(p, '/'));
    if segs == [] {
      SplitNoSeparator(".", '/');
    } else {
      forall i | 0 <= i < |segs| ensures IsSegment(segs[i]) {
        var k :| 0 <= k < |Split(p, '/')| && Split(p, '/')[k] == segs[i];
      }
      NormalizeSegments(segs);
    }
  }

  /** The path the detection run writes the annotated image to:
      `Path(f'static/data/{prediction_id}/{original_img_path}')`. */
  function OutputPath(predictionId: string, imgPath: string): string
  {
    NormalizePath("static/data/" + predictionId + "/" + imgPath)
  }

  /** The path of the label file: `Path(f'static/data/{prediction_id}/labels/{stem}.txt')`,
      the stem being the image path up to its first '.'. */
  function LabelPath(predictionId: string, imgPath: string): string
  {
    NormalizePath("static/data/" + predictionId + "/labels/" + Split(imgPath, '.')[0] + ".txt")
  }

  lemma JoinUnderDirectory(predictionId: string, rest: string, restSegs: seq<string>)
    requires |restSegs| >= 1 && Join(restSegs, '/') == rest
    ensures Join(["static", "data", predictionId] + restSegs, '/') == "static/data/" + predictionId + "/" + rest
  {
    var j1 := predictionId + "/" + rest;
    JoinCons(predictionId, restSegs, '/');
    JoinCons("data", [predictionId] + restSegs, '/');
    JoinCons("static", ["data", predictionId] + restSegs, '/');
    assert ["static"] + (["data"] + ([predictionId] + restSegs)) == ["static", "data", predictionId] + restSegs;
    calc {
      "static" + "/" + ("data" + "/" + j1);
      { AppendAssoc("static" + "/", "data" + "/", j1); }
      ("static" + "/" + ("data" + "/")) + j1;
      { StaticDataPrefix(); }
      "static/data/" + j1;
      { AppendAssoc("static/data/", predictionId + "/", rest); }
      "static/data/" + (predictionId + "/") + rest;
      { AppendAssoc("static/data/", predictionId, "/"); }
      "static/data/" + predictionId + "/" + rest;
    }
  }

  /** Proof helper, modelling nothing: string concatenation regrouped. */
  lemma AppendAssoc(a: string, b: string, c: string)
    ensures a + (b + c) == a + b + c
  {
  }

  /** Proof helper, modelling nothing: the directory prefix as one literal. */
  lemma StaticDataPrefix()
    ensures "static" + "/" + ("data" + "/") == "static/data/"
  {
  }

  lemma SegmentsUnderDirectory(predictionId: string, restSegs: seq<string>)
    requires IsSegment(predictionId)
    requires forall i :: 0 <= i < |restSegs| ==> IsSegment(restSegs[i])
    ensures forall i :: 0 <= i < |restSegs| + 3 ==> IsSegment((["static", "data", predictionId] + restSegs)[i])
  {
    var segs := ["static", "data", predictionId] + restSegs;
    assert IsSegment("static") && IsSegment("data");
    forall i | 3 <= i < |segs| ensures IsSegment(segs[i]) { assert segs[i] == restSegs[i - 3]; }
  }

  /** A path under `static/data/{id}/` made of kept components is its own string form. */
  lemma NormalizeUnderDirectory(predictionId: string, restSegs: seq<string>)
    requires IsSegment(predictionId) && |restSegs| >= 1
    requires forall i :: 0 <= i < |restSegs| ==> IsSegment(restSegs[i])
    ensures NormalizePath("static/data/" + predictionId + "/" + Join(restSegs, '/'))
         == "static/data/" + predictionId + "/" + Join(restSegs, '/')
  {
    var segs := ["static", "data", predictionId] + restSegs;
    JoinUnderDirectory(predictionId, Join(restSegs, '/'), restSegs);
    SegmentsUnderDirectory(predictionId, restSegs);
    NormalizeSegments(segs);
  }

  /** For a plain prediction id and image name the output path is the plain concatenation. */
  lemma OutputPathOfPlainNames(predictionId: string, imgPath: string)
    requires IsSegment(predictionId) && IsSegment(imgPath)
    ensures OutputPath(predictionId, imgPath) == "static/data/" + predictionId + "/" + imgPath
  {
    NormalizeUnderDirectory(predictionId, [imgPath]);
  }

  /** The stem of an image name: the part before its first '.'. */
  lemma StemOfName(imgPath: string)
    ensures '.' !in Split(imgPath, '.')[0]
    ensures '/' !in imgPath ==> '/' !in Split(imgPath, '.')[0]
  {
    var parts := Split(imgPath, '.');
    JoinSplit(imgPath, '.');
    if |parts| > 1 {
      assert imgPath == parts[0] + ['.'] + Join(parts[1..], '.');
    }
  }

  lemma LabelFileSegment(stem: string)
    requires '/' !in stem
    ensures IsSegment(stem + ".txt")
  {
    var file := stem + ".txt";
    assert file[|file| - 1] == 't';
  }

  lemma NormalizeLabelPath(predictionId: string, stem: string)
    requires IsSegment(predictionId) && '/' !in stem
    ensures NormalizePath("static/data/" + predictionId + "/labels/" + stem + ".txt")
         == "static/data/" + predictionId + "/labels/" + stem + ".txt"
  {
    var file := stem + ".txt";
    LabelFileSegment(stem);
    JoinCons("labels", [file], '/');
    assert IsSegment("labels");
    NormalizeUnderDirectory(predictionId, ["labels", file]);
    assert "static/data/" + predictionId + "/" + ("labels" + "/" + file)
        == "static/data/" + predictionId + "/labels/" + stem + ".txt";
  }

  /** For a plain prediction id and an image name without '/', the label file
      is `static/data/{id}/labels/{stem}.txt`, the stem holding no '.'. */
  lemma LabelPathOfPlainNames(predictionId: string, imgPath: string)
    requires IsSegment(predictionId) && '/' !in imgPath
    ensures LabelPath(predictionId, imgPath)
         == "static/data/" + predictionId + "/labels/" + Split(imgPath, '.')[0] + ".txt"
    ensures '.' !in Split(imgPath, '.')[0]
  {
    StemOfName(imgPath);
    NormalizeLabelPath(predictionId, Split(imgPath, '.')[0]);
  }
}
