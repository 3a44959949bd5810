/**
 * The annotation tool that turns CVAT polyline annotations into the grayscale segmentation map:
 * label colours and point lists read from the already-parsed XML, the label-to-gray filtering
 * with truncated coordinates, and the layout of the legend image.
 */
module SegmentationMap {
  import opened Wrappers
  import opened Text

  datatype Rgb = Rgb(r: int, g: int, b: int)

  /** Python slicing `s[i:j]`, clipped to the string. */
  function PySlice(s: string, i: nat, j: nat): (r: string)
    ensures i <= j <= |s| ==> r == s[i..j]
    ensures |r| <= |s|
  {
    if i >= |s| then "" else if j <= i then "" else s[i..if j < |s| then j else |s|]
  }

  /** `tuple(int(color[i:i+2], 16) for i in (1, 3, 5))`; the first character is skipped unchecked. */
  function ParseColor(color: string): Option<Rgb>
  {
    var r := PyInt(PySlice(color, 1, 3), 16);
    var g := PyInt(PySlice(color, 3, 5), 16);
    var b := PyInt(PySlice(color, 5, 7), 16);
    if r.Some? && g.Some? && b.Some? then Some(Rgb(r.value, g.value, b.value)) else None
  }

  function HexDigit(d: nat): char
    requires d < 16
  {
    if d < 10 then ('0' as int + d) as char else ('a' as int + d - 10) as char
  }

  /** Two lower-case hex digits. */
  function Hex2(v: nat): string
    requires v < 256
  {
    [HexDigit(v / 16), HexDigit(v % 16)]
  }

  function FormatColor(c: Rgb): string
    requires 0 <= c.r < 256 && 0 <= c.g < 256 && 0 <= c.b < 256
  {
    "#" + Hex2(c.r) + Hex2(c.g) + Hex2(c.b)
  }

  lemma HexDigitValue(d: nat)
    requires d < 16
    ensures DigitValue(HexDigit(d), 16) == Some(d)
  {
  }

  lemma Hex2Reads(v: nat)
    requires v < 256
    ensures PyInt(Hex2(v), 16) == Some(v)
  {
    var s := Hex2(v);
    HexDigitValue(v / 16);
    HexDigitValue(v % 16);
    PyIntOfDigits(s, 16);
    assert s[..1] == [HexDigit(v / 16)];
    assert DigitsValue(s[..1], 16) == v / 16;
  }

  /** A colour written as `#rrggbb` reads back as the same three channels. */
  lemma ColorRoundTrip(c: Rgb)
    requires 0 <= c.r < 256 && 0 <= c.g < 256 && 0 <= c.b < 256
    ensures ParseColor(FormatColor(c)) == Some(c)
  {
    var s := FormatColor(c);
    assert PySlice(s, 1, 3) == Hex2(c.r);
    assert PySlice(s, 3, 5) == Hex2(c.g);
    assert PySlice(s, 5, 7) == Hex2(c.b);
    Hex2Reads(c.r);
    Hex2Reads(c.g);
    Hex2Reads(c.b);
  }

  // ---------------------------------------------------------------------------------------
  // Points

  datatype Point = Point(x: real, y: real)

  /** A piece holding only whitespace, which `if point_pair.strip()` skips. */
  predicate IsBlank(piece: string)
  {
    forall k :: 0 <= k < |piece| ==> IsPySpace(piece[k])
  }

  /** A piece is blank exactly when stripping it leaves the empty string. */
  lemma BlankIsStrippedEmpty(piece: string)
    ensures IsBlank(piece) <==> Strip(piece, IsPySpace) == ""
  {
  }

  /** `x, y = map(float, pair.split(','))`: exactly two pieces, each a number to `parseFloat`. */
  function ParsePair(piece: string, parseFloat: string -> Option<real>): Option<Point>
  {
    var parts := SplitOn(piece, ',');
    if |parts| == 2 && parseFloat(parts[0]).Some? && parseFloat(parts[1]).Some? then
      Some(Point(parseFloat(parts[0]).value, parseFloat(parts[1]).value))
    else None
  }

  /** The pieces between `;` that are not blank, in order. */
  function NonBlank(pieces: seq<string>): (r: seq<string>)
    ensures |r| <= |pieces|
  {
    if |pieces| == 0 then []
    else
      var last := pieces[|pieces| - 1];
      NonBlank(pieces[..|pieces| - 1]) + (if IsBlank(last) then [] else [last])
  }

  lemma NonBlankStep(pieces: seq<string>, i: nat)
    requires i < |pieces|
    ensures NonBlank(pieces[..i + 1]) == NonBlank(pieces[..i]) + (if IsBlank(pieces[i]) then [] else [pieces[i]])
  {
    assert pieces[..i + 1][..i] == pieces[..i];
  }

  /** Skipping blanks distributes over concatenation. */
  lemma {:induction false} NonBlankAppend(a: seq<string>, b: seq<string>)
    ensures NonBlank(a + b) == NonBlank(a) + NonBlank(b)
  {
    if |b| > 0 {
      var b' := b[..|b| - 1];
      NonBlankAppend(a, b');
      assert (a + b)[..|a + b| - 1] == a + b';
    } else {
      assert a + b == a;
    }
  }

  /** Skipping blanks keeps exactly the pieces that are not blank, and a list without blanks whole. */
  lemma {:induction false} NonBlankFilters(pieces: seq<string>)
    ensures forall p :: p in NonBlank(pieces) <==> p in pieces && !IsBlank(p)
    ensures (forall k :: 0 <= k < |pieces| ==> !IsBlank(pieces[k])) ==> NonBlank(pieces) == pieces
  {
    if |pieces| > 0 {
      var init := pieces[..|pieces| - 1];
      NonBlankFilters(init);
      assert pieces == init + [pieces[|pieces| - 1]];
    }
  }

  /**
   * A Python list built by a loop whose body may raise: every element converted by `f`, in
   * order, or `None` as soon as one conversion fails.
   */
  function MapAll<A, B>(xs: seq<A>, f: A -> Option<B>): (r: Option<seq<B>>)
    ensures r.Some? ==> |r.value| == |xs|
  {
    if |xs| == 0 then Some([])
    else
      var init := MapAll(xs[..|xs| - 1], f);
      var y := f(xs[|xs| - 1]);
      if init.Some? && y.Some? then Some(init.value + [y.value]) else None
  }

  /** The list is built exactly when every element converts, one result per element, in order. */
  lemma {:induction false} MapAllPointwise<A, B>(xs: seq<A>, f: A -> Option<B>)
    ensures MapAll(xs, f).Some? <==> forall k :: 0 <= k < |xs| ==> f(xs[k]).Some?
    ensures MapAll(xs, f).Some? ==>
      (|MapAll(xs, f).value| == |xs| && forall k :: 0 <= k < |xs| ==> MapAll(xs, f).value[k] == f(xs[k]).value)
  {
    if |xs| > 0 {
      var init := xs[..|xs| - 1];
      MapAllPointwise(init, f);
      assert forall k :: 0 <= k < |init| ==> init[k] == xs[k];
    }
  }

  /** One more element: the loop body run once more. */
  lemma MapAllStep<A, B>(xs: seq<A>, i: nat, f: A -> Option<B>)
    requires i < |xs|
    ensures MapAll(xs[..i + 1], f)
      == (if MapAll(xs[..i], f).Some? && f(xs[i]).Some? then Some(MapAll(xs[..i], f).value + [f(xs[i]).value]) else None)
  {
    assert xs[..i + 1][..i] == xs[..i];
  }

  /** Once a prefix fails, so does the whole list. */
  lemma {:induction false} MapAllPrefixFails<A, B>(xs: seq<A>, n: nat, f: A -> Option<B>)
    requires n <= |xs| && MapAll(xs[..n], f).None?
    ensures MapAll(xs, f).None?
    decreases |xs| - n
  {
    if n < |xs| {
      MapAllStep(xs, n, f);
      MapAllPrefixFails(xs, n + 1, f);
    } else {
      assert xs[..n] == xs;
    }
  }

  function PairParser(parseFloat: string -> Option<real>): string -> Option<Point>
  {
    piece => ParsePair(piece, parseFloat)
  }

  /** The points of a `points` attribute: split on `;`, blanks skipped, each `x,y` parsed. */
  function PointsOf(pointsText: string, parseFloat: string -> Option<real>): Option<seq<Point>>
  {
    MapAll(NonBlank(SplitOn(pointsText, ';')), PairParser(parseFloat))
  }

  /** Non-blank pairs written out joined by `;` read back pair by pair, in order. */
  lemma PointsOfJoined(pairs: seq<string>, parseFloat: string -> Option<real>)
    requires |pairs| > 0
    requires forall k :: 0 <= k < |pairs| ==> ';' !in pairs[k] && !IsBlank(pairs[k])
    ensures PointsOf(Join(pairs, ';'), parseFloat) == MapAll(pairs, PairParser(parseFloat))
  {
    SplitJoin(pairs, ';');
    NonBlankFilters(pairs);
  }

  /** The loop of `parse_cvat_xml` over one `points` attribute; a malformed pair raises, giving `None`. */
  method ParsePoints(pointsText: string, parseFloat: string -> Option<real>) returns (points: Option<seq<Point>>)
    ensures points == PointsOf(pointsText, parseFloat)
  {
    var pieces := SplitOn(pointsText, ';');
    var acc: seq<Point> := [];
    var i := 0;
    while i < |pieces|
      invariant 0 <= i <= |pieces|
      invariant MapAll(NonBlank(pieces[..i]), PairParser(parseFloat)) == Some(acc)
    {
      var next := ParsePiece(pieces, i, acc, parseFloat);
      if next.None? {
        PrefixFails(pieces, i + 1, parseFloat);
        return None;
      }
      acc := next.value;
      i := i + 1;
    }
    assert pieces[..i] == pieces;
    points := Some(acc);
  }

  /** One turn of the loop: a blank piece is skipped, any other is parsed as a pair and appended. */
  method ParsePiece(pieces: seq<string>, i: nat, acc: seq<Point>, parseFloat: string -> Option<real>)
    returns (next: Option<seq<Point>>)
    requires i < |pieces| && MapAll(NonBlank(pieces[..i]), PairParser(parseFloat)) == Some(acc)
    ensures next == MapAll(NonBlank(pieces[..i + 1]), PairParser(parseFloat))
  {
    PointsStep(pieces, i, acc, parseFloat);
    next := Some(acc);
    if !IsBlank(pieces[i]) {
      var p := ParsePair(pieces[i], parseFloat);
      next := if p.None? then None else Some(acc + [p.value]);
    }
  }

  lemma PointsStep(pieces: seq<string>, i: nat, acc: seq<Point>, parseFloat: string -> Option<real>)
    requires i < |pieces| && MapAll(NonBlank(pieces[..i]), PairParser(parseFloat)) == Some(acc)
    ensures MapAll(NonBlank(pieces[..i + 1]), PairParser(parseFloat))
      == (if IsBlank(pieces[i]) then Some(acc)
          else if ParsePair(pieces[i], parseFloat).Some? then Some(acc + [ParsePair(pieces[i], parseFloat).value])
          else None)
  {
    NonBlankStep(pieces, i);
    var prev := NonBlank(pieces[..i]);
    if !IsBlank(pieces[i]) {
      var next := prev + [pieces[i]];
      assert NonBlank(pieces[..i + 1]) == next;
      MapAllStep(next, |prev|, PairParser(parseFloat));
      assert next[..|prev|] == prev && next[..|prev| + 1] == next;
    } else {
      assert NonBlank(pieces[..i + 1]) == prev + [];
      assert prev + [] == prev;
    }
  }

  lemma PrefixFails(pieces: seq<string>, n: nat, parseFloat: string -> Option<real>)
    requires n <= |pieces|
    requires MapAll(NonBlank(pieces[..n]), PairParser(parseFloat)).None?
    ensures MapAll(NonBlank(pieces), PairParser(parseFloat)).None?
  {
    var whole := NonBlank(pieces);
    assert pieces == pieces[..n] + pieces[n..];
    NonBlankAppend(pieces[..n], pieces[n..]);
    var m := |NonBlank(pieces[..n])|;
    assert whole[..m] == NonBlank(pieces[..n]);
    MapAllPrefixFails(whole, m, PairParser(parseFloat));
  }

  // ---------------------------------------------------------------------------------------
  // The parsed document

  /** A `label` element: its name and colour texts. */
  datatype LabelElement = LabelElement(name: string, color: string)

  /** A `polyline` element: its label and points texts. */
  datatype Polyline = Polyline(labelName: string, points: string)

  /** The first `image` element: width, height and name texts, and its polylines. */
  datatype ImageElement = ImageElement(width: string, height: string, name: string, polylines: seq<Polyline>)

  datatype ImageInfo = ImageInfo(width: int, height: int, name: string)
  datatype Annotation = Annotation(labelName: string, points: seq<Point>)

  /** A Python dict from label names to colours: its keys in insertion order, and the mapping. */
  datatype LabelDict = LabelDict(order: seq<string>, colors: map<string, Rgb>)

  /** The keys are listed once each, and listed exactly when they are mapped. */
  ghost predicate WellFormed(d: LabelDict)
  {
    (forall i, j :: 0 <= i < j < |d.order| ==> d.order[i] != d.order[j])
    && d.colors.Keys == set n | n in d.order
  }

  /** `d[name] = color`: a new key goes last, an existing key keeps its place and takes the new colour. */
  function DictSet(d: LabelDict, name: string, color: Rgb): LabelDict
  {
    LabelDict(if name in d.colors then d.order else d.order + [name], d.colors[name := color])
  }

  /** Setting a key keeps the dict well formed, keeps the order of the keys already there and changes only that key. */
  lemma DictSetIsUpdate(d: LabelDict, name: string, color: Rgb)
    requires WellFormed(d)
    ensures WellFormed(DictSet(d, name, color))
    ensures DictSet(d, name, color).order[..|d.order|] == d.order
    ensures |DictSet(d, name, color).order| == |d.order| + (if name in d.colors then 0 else 1)
    ensures DictSet(d, name, color).colors[name] == color
    ensures forall n :: n != name ==> (n in DictSet(d, name, color).colors <==> n in d.colors)
    ensures forall n :: n != name && n in d.colors ==> DictSet(d, name, color).colors[n] == d.colors[n]
  {
    var r := DictSet(d, name, color);
    if name in d.colors {
      assert r.order == d.order;
      assert r.colors.Keys == d.colors.Keys;
      assert r.order[..|d.order|] == d.order;
    } else {
      assert name !in d.order;
      assert r.order == d.order + [name];
      assert r.order[..|d.order|] == d.order;
      assert (set n | n in r.order) == (set n | n in d.order) + {name};
      assert r.colors.Keys == d.colors.Keys + {name};
    }
  }

  /**
   * The `label` loop as a fold: every colour must convert with `parse`, and a later label of
   * the same name overwrites the colour in place.
   */
  function BuildLabels(elements: seq<LabelElement>, parse: string -> Option<Rgb>): Option<LabelDict>
  {
    if |elements| == 0 then Some(LabelDict([], map[]))
    else
      var init := BuildLabels(elements[..|elements| - 1], parse);
      var e := elements[|elements| - 1];
      var color := parse(e.color);
      if init.Some? && color.Some? then Some(DictSet(init.value, e.name, color.value)) else None
  }

  /** The colour conversion `parse_cvat_xml` uses. */
  function ColorParser(): string -> Option<Rgb>
  {
    color => ParseColor(color)
  }

  /** The dict is built exactly when every colour converts, and it is well formed. */
  lemma {:induction false} BuildLabelsDefined(elements: seq<LabelElement>, parse: string -> Option<Rgb>)
    ensures BuildLabels(elements, parse).Some? <==> forall k :: 0 <= k < |elements| ==> parse(elements[k].color).Some?
    ensures BuildLabels(elements, parse).Some? ==> WellFormed(BuildLabels(elements, parse).value)
  {
    if |elements| > 0 {
      var init := elements[..|elements| - 1];
      BuildLabelsDefined(init, parse);
      assert forall k :: 0 <= k < |init| ==> init[k] == elements[k];
      if BuildLabels(init, parse).Some? {
        var c := parse(elements[|elements| - 1].color);
        if c.Some? {
          DictSetIsUpdate(BuildLabels(init, parse).value, elements[|elements| - 1].name, c.value);
        }
      }
    }
  }

  /** Every name is a key, and it maps to the colour of the last label with that name. */
  lemma {:induction false} BuildLabelsLastWins(elements: seq<LabelElement>, parse: string -> Option<Rgb>, k: nat)
    requires BuildLabels(elements, parse).Some? && k < |elements|
    requires forall j :: k < j < |elements| ==> elements[j].name != elements[k].name
    ensures elements[k].name in BuildLabels(elements, parse).value.colors
    ensures Some(BuildLabels(elements, parse).value.colors[elements[k].name]) == parse(elements[k].color)
  {
    var n := |elements|;
    if k < n - 1 {
      var init := elements[..n - 1];
      assert init[k] == elements[k];
      BuildLabelsLastWins(init, parse, k);
    }
  }

  /** Every key comes from some label. */
  lemma {:induction false} BuildLabelsKeys(elements: seq<LabelElement>, parse: string -> Option<Rgb>, name: string)
    requires BuildLabels(elements, parse).Some? && name in BuildLabels(elements, parse).value.colors
    ensures exists k :: 0 <= k < |elements| && elements[k].name == name
  {
    var n := |elements|;
    if elements[n - 1].name != name {
      var init := elements[..n - 1];
      BuildLabelsKeys(init, parse, name);
      var k :| 0 <= k < |init| && init[k].name == name;
      assert elements[k] == init[k];
    }
  }

  lemma {:induction false} BuildLabelsPrefixFails(elements: seq<LabelElement>, parse: string -> Option<Rgb>, i: nat)
    requires i <= |elements| && BuildLabels(elements[..i], parse).None?
    ensures BuildLabels(elements, parse).None?
    decreases |elements| - i
  {
    if i < |elements| {
      assert elements[..i + 1][..i] == elements[..i];
      BuildLabelsPrefixFails(elements, parse, i + 1);
    } else {
      assert elements[..i] == elements;
    }
  }

  lemma BuildLabelsStep(elements: seq<LabelElement>, parse: string -> Option<Rgb>, i: nat)
    requires i < |elements|
    ensures BuildLabels(elements[..i + 1], parse)
      == (var init := BuildLabels(elements[..i], parse);
          var color := parse(elements[i].color);
          if init.Some? && color.Some? then Some(DictSet(init.value, elements[i].name, color.value)) else None)
  {
    assert elements[..i + 1][..i] == elements[..i];
  }

  /** The first loop of `parse_cvat_xml`; a colour that does not parse raises, giving `None`. */
  method ParseLabels(elements: seq<LabelElement>) returns (labels: Option<LabelDict>)
    ensures labels == BuildLabels(elements, ColorParser())
  {
    var d := LabelDict([], map[]);
    var i := 0;
    while i < |elements|
      invariant 0 <= i <= |elements|
      invariant BuildLabels(elements[..i], ColorParser()) == Some(d)
    {
      BuildLabelsStep(elements, ColorParser(), i);
      var color := ParseColor(elements[i].color);
      if color.None? {
        BuildLabelsPrefixFails(elements, ColorParser(), i + 1);
        return None;
      }
      d := DictSet(d, elements[i].name, color.value);
      i := i + 1;
    }
    assert elements[..i] == elements;
    labels := Some(d);
  }

  /** One polyline's annotation: its label and its parsed points. */
  function AnnotationOf(polyline: Polyline, parseFloat: string -> Option<real>): Option<Annotation>
  {
    var points := PointsOf(polyline.points, parseFloat);
    if points.Some? then Some(Annotation(polyline.labelName, points.value)) else None
  }

  function AnnotationParser(parseFloat: string -> Option<real>): Polyline -> Option<Annotation>
  {
    polyline => AnnotationOf(polyline, parseFloat)
  }

  /** The `polyline` loop of `parse_cvat_xml`: one annotation per polyline, in order. */
  method ParseAnnotations(polylines: seq<Polyline>, parseFloat: string -> Option<real>) returns (r: Option<seq<Annotation>>)
    ensures r == MapAll(polylines, AnnotationParser(parseFloat))
  {
    var annotations: seq<Annotation> := [];
    var i := 0;
    while i < |polylines|
      invariant 0 <= i <= |polylines|
      invariant MapAll(polylines[..i], AnnotationParser(parseFloat)) == Some(annotations)
    {
      MapAllStep(polylines, i, AnnotationParser(parseFloat));
      var points := ParsePoints(polylines[i].points, parseFloat);
      if points.None? {
        MapAllPrefixFails(polylines, i + 1, AnnotationParser(parseFloat));
        return None;
      }
      annotations := annotations + [Annotation(polylines[i].labelName, points.value)];
      i := i + 1;
    }
    assert polylines[..i] == polylines;
    r := Some(annotations);
  }

  /** The annotations exist exactly when every polyline's points parse; each keeps its polyline's label and points. */
  lemma AnnotationsPointwise(polylines: seq<Polyline>, parseFloat: string -> Option<real>)
    ensures MapAll(polylines, AnnotationParser(parseFloat)).Some?
      <==> forall k :: 0 <= k < |polylines| ==> PointsOf(polylines[k].points, parseFloat).Some?
    ensures MapAll(polylines, AnnotationParser(parseFloat)).Some? ==>
      (|MapAll(polylines, AnnotationParser(parseFloat)).value| == |polylines|
       && forall k :: 0 <= k < |polylines| ==>
            MapAll(polylines, AnnotationParser(parseFloat)).value[k]
              == Annotation(polylines[k].labelName, PointsOf(polylines[k].points, parseFloat).value))
  {
    MapAllPointwise(polylines, AnnotationParser(parseFloat));
  }

  /** What `parse_cvat_xml` returns. */
  datatype Cvat = Cvat(labels: LabelDict, annotations: seq<Annotation>, image: ImageInfo)

  /** `parse_cvat_xml` after the XML is read: it fails when a colour, the image size or a point does not parse. */
  method ParseCvat(labelElements: seq<LabelElement>, image: ImageElement, parseFloat: string -> Option<real>)
    returns (r: Option<Cvat>)
    ensures r.Some? <==>
      BuildLabels(labelElements, ColorParser()).Some? && PyInt(image.width, 10).Some? && PyInt(image.height, 10).Some?
      && MapAll(image.polylines, AnnotationParser(parseFloat)).Some?
    ensures r.Some? ==>
      r.value == Cvat(BuildLabels(labelElements, ColorParser()).value, MapAll(image.polylines, AnnotationParser(parseFloat)).value,
                      ImageInfo(PyInt(image.width, 10).value, PyInt(image.height, 10).value, image.name))
  {
    var labels := ParseLabels(labelElements);
    if labels.None? {
      return None;
    }
    var width := PyInt(image.width, 10);
    var height := PyInt(image.height, 10);
    if width.None? || height.None? {
      return None;
    }
    var annotations := ParseAnnotations(image.polylines, parseFloat);
    if annotations.None? {
      return None;
    }
    r := Some(Cvat(labels.value, annotations.value, ImageInfo(width.value, height.value, image.name)));
  }

  // ---------------------------------------------------------------------------------------
  // The segmentation map

  /** One `cv2.fillPoly` call: a gray value and an integer polygon. */
  datatype Fill = Fill(gray: int, polygon: seq<(int, int)>)

  /** The map as a zero-filled `height × width` image and the fills painted over it, in order. */
  datatype Canvas = Canvas(width: int, height: int, fills: seq<Fill>)

  /** `[(int(x), int(y)) for x, y in points]`. */
  function IntPoints(points: seq<Point>): (r: seq<(int, int)>)
    ensures |r| == |points|
    ensures forall k :: 0 <= k < |points| ==> r[k] == (Truncate(points[k].x), Truncate(points[k].y))
  {
    seq(|points|, k requires 0 <= k < |points| => (Truncate(points[k].x), Truncate(points[k].y)))
  }

  /** The fills of the annotations whose label is an integer, in annotation order. */
  function Fills(annotations: seq<Annotation>): seq<Fill>
  {
    if |annotations| == 0 then []
    else
      var a := annotations[|annotations| - 1];
      var gray := PyInt(a.labelName, 10);
      Fills(annotations[..|annotations| - 1]) + (if gray.Some? then [Fill(gray.value, IntPoints(a.points))] else [])
  }

  /** The labels that are not integers, each warned about and skipped. */
  function Skipped(annotations: seq<Annotation>): seq<string>
  {
    if |annotations| == 0 then []
    else
      var a := annotations[|annotations| - 1];
      Skipped(annotations[..|annotations| - 1]) + (if PyInt(a.labelName, 10).None? then [a.labelName] else [])
  }

  /** Every annotation is either drawn or skipped. */
  lemma {:induction false} FillsAndSkipsCoverAll(annotations: seq<Annotation>)
    ensures |Fills(annotations)| + |Skipped(annotations)| == |annotations|
  {
    if |annotations| > 0 {
      FillsAndSkipsCoverAll(annotations[..|annotations| - 1]);
    }
  }

  /** Each drawn gray is the integer value of some annotation's label, with that annotation's truncated points. */
  lemma {:induction false} FillsComeFromLabels(annotations: seq<Annotation>, j: nat)
    requires j < |Fills(annotations)|
    ensures exists k :: 0 <= k < |annotations| && PyInt(annotations[k].labelName, 10) == Some(Fills(annotations)[j].gray)
                        && Fills(annotations)[j].polygon == IntPoints(annotations[k].points)
  {
    var n := |annotations|;
    var init := annotations[..n - 1];
    if j < |Fills(init)| {
      FillsComeFromLabels(init, j);
      var k :| 0 <= k < |init| && PyInt(init[k].labelName, 10) == Some(Fills(init)[j].gray)
        && Fills(init)[j].polygon == IntPoints(init[k].points);
      assert init[k] == annotations[k];
    } else {
      assert annotations[n - 1] == annotations[n - 1];
    }
  }

  /** `create_segmentation_map`: warnings for non-integer labels, fills for the rest. */
  method CreateSegmentationMap(annotations: seq<Annotation>, info: ImageInfo) returns (canvas: Canvas, warnings: seq<string>)
    ensures canvas == Canvas(info.width, info.height, Fills(annotations))
    ensures |warnings| == |Skipped(annotations)|
    ensures forall k :: 0 <= k < |warnings| ==>
      warnings[k] == "Warning: Could not convert label '" + Skipped(annotations)[k] + "' to integer, skipping..."
  {
    var fills: seq<Fill> := [];
    warnings := [];
    var i := 0;
    while i < |annotations|
      invariant 0 <= i <= |annotations|
      invariant fills == Fills(annotations[..i])
      invariant |warnings| == |Skipped(annotations[..i])|
      invariant forall k :: 0 <= k < |warnings| ==>
        warnings[k] == "Warning: Could not convert label '" + Skipped(annotations[..i])[k] + "' to integer, skipping..."
    {
      assert annotations[..i + 1][..i] == annotations[..i];
      var name := annotations[i].labelName;
      var gray := PyInt(name, 10);
      if gray.None? {
        warnings := warnings + ["Warning: Could not convert label '" + name + "' to integer, skipping..."];
      } else {
        fills := fills + [Fill(gray.value, IntPoints(annotations[i].points))];
      }
      i := i + 1;
    }
    assert annotations[..i] == annotations;
    canvas := Canvas(info.width, info.height, fills);
  }

  // ---------------------------------------------------------------------------------------
  // The legend image

  /** A label name with its integer key. */
  datatype Keyed = Keyed(name: string, key: int)

  /** A name with its integer key, if it is an integer. */
  function KeyOf(name: string): Option<Keyed>
  {
    var key := PyInt(name, 10);
    if key.Some? then Some(Keyed(name, key.value)) else None
  }

  function KeyParser(): string -> Option<Keyed>
  {
    name => KeyOf(name)
  }

  /**
   * `sorted(labels_dict.items(), key=lambda x: int(x[0]))` computes every key before sorting,
   * so the keys exist exactly when every name is an integer, and then they follow the names.
   */
  lemma KeysPointwise(names: seq<string>)
    ensures MapAll(names, KeyParser()).Some? <==> forall k :: 0 <= k < |names| ==> PyInt(names[k], 10).Some?
    ensures MapAll(names, KeyParser()).Some? ==>
      (|MapAll(names, KeyParser()).value| == |names|
       && forall k :: 0 <= k < |names| ==> MapAll(names, KeyParser()).value[k] == Keyed(names[k], PyInt(names[k], 10).value))
  {
    MapAllPointwise(names, KeyParser());
  }

  predicate SortedByKey(s: seq<Keyed>)
  {
    forall i, j :: 0 <= i < j < |s| ==> s[i].key <= s[j].key
  }

  /** Inserts after every element with a key not above `x`'s, which keeps equal keys in input order. */
  function Insert(x: Keyed, s: seq<Keyed>): (r: seq<Keyed>)
    ensures multiset(r) == multiset(s) + multiset{x}
    ensures |r| == |s| + 1
  {
    if |s| == 0 then [x]
    else if x.key < s[0].key then [x] + s
    else
      assert s == [s[0]] + s[1..];
      [s[0]] + Insert(x, s[1..])
  }

  lemma {:induction false} InsertSorted(x: Keyed, s: seq<Keyed>)
    requires SortedByKey(s)
    ensures SortedByKey(Insert(x, s))
  {
    if |s| > 0 && x.key >= s[0].key {
      var tail := s[1..];
      InsertSorted(x, tail);
      var r := Insert(x, tail);
      forall k | 0 <= k < |r|
        ensures s[0].key <= r[k].key
      {
        assert r[k] in multiset(r);
        if r[k] != x {
          assert r[k] in multiset(tail);
          var j :| 0 <= j < |tail| && tail[j] == r[k];
          assert tail[j] == s[j + 1];
        }
      }
      assert Insert(x, s) == [s[0]] + r;
    }
  }

  /** Stable insertion sort by key. */
  function SortByKey(s: seq<Keyed>): (r: seq<Keyed>)
    ensures |r| == |s|
  {
    if |s| == 0 then [] else Insert(s[|s| - 1], SortByKey(s[..|s| - 1]))
  }

  /** The sorted labels are in key order and are the same labels. */
  lemma SortByKeyIsSort(s: seq<Keyed>)
    ensures SortedByKey(SortByKey(s))
    ensures multiset(SortByKey(s)) == multiset(s)
  {
    SortByKeySorted(s);
    SortByKeyPermutes(s);
  }

  lemma {:induction false} SortByKeySorted(s: seq<Keyed>)
    ensures SortedByKey(SortByKey(s))
  {
    if |s| > 0 {
      SortByKeySorted(s[..|s| - 1]);
      InsertSorted(s[|s| - 1], SortByKey(s[..|s| - 1]));
    }
  }

  lemma {:induction false} SortByKeyPermutes(s: seq<Keyed>)
    ensures multiset(SortByKey(s)) == multiset(s)
  {
    if |s| > 0 {
      var init, x := s[..|s| - 1], s[|s| - 1];
      SortByKeyPermutes(init);
      assert s == init + [x];
      assert multiset(s) == multiset(init) + multiset{x};
    }
  }

  /** One legend row: the gray swatch from `(10, top)` to `(50, bottom)` and the text at `(70, baseline)`. */
  datatype LegendRow = LegendRow(labelName: string, gray: int, swatchTop: int, swatchBottom: int, textBaseline: int)

  /** The legend: a white image `height` pixels high and `width` wide, with one row per label. */
  datatype Legend = Legend(height: int, width: int, rows: seq<LegendRow>)

  const RowHeight := 40
  const LegendWidth := 400

  /** The row drawn for `k` at `y_offset == y`. */
  function RowAt(k: Keyed, y: int): LegendRow
  {
    LegendRow(k.name, k.key, y + 5, y + 35, y + 25)
  }

  /**
   * `create_label_map`: every name must be an integer; the rows follow the names in key order,
   * each gray is its name's value, and row `i` starts `40 * i` pixels from the top.
   */
  method CreateLabelMap(labels: LabelDict) returns (legend: Option<Legend>)
    ensures legend.Some? <==> MapAll(labels.order, KeyParser()).Some?
    ensures legend.Some? ==>
      (legend.value.height == RowHeight * |labels.order| && legend.value.width == LegendWidth
       && |legend.value.rows| == |labels.order|)
    ensures legend.Some? ==> forall i :: 0 <= i < |legend.value.rows| ==>
      legend.value.rows[i] == RowAt(SortByKey(MapAll(labels.order, KeyParser()).value)[i], RowHeight * i)
    ensures legend.Some? ==> forall i, j :: 0 <= i < j < |legend.value.rows| ==>
      legend.value.rows[i].gray <= legend.value.rows[j].gray
  {
    var keyed := MapAll(labels.order, KeyParser());
    if keyed.None? {
      return None;
    }
    var sorted := SortByKey(keyed.value);
    SortByKeyIsSort(keyed.value);
    var rows := LayoutRows(sorted);
    legend := Some(Legend(RowHeight * |labels.order|, LegendWidth, rows));
  }

  /** The loop of `create_label_map`: `y_offset` starts at 0 and grows by 40 per row. */
  method LayoutRows(sorted: seq<Keyed>) returns (rows: seq<LegendRow>)
    ensures |rows| == |sorted|
    ensures forall i :: 0 <= i < |sorted| ==> rows[i] == RowAt(sorted[i], RowHeight * i)
    ensures SortedByKey(sorted) ==> forall i, j :: 0 <= i < j < |rows| ==> rows[i].gray <= rows[j].gray
  {
    rows := [];
    var y := 0;
    var i := 0;
    while i < |sorted|
      invariant 0 <= i <= |sorted|
      invariant y == RowHeight * i
      invariant |rows| == i
      invariant forall k :: 0 <= k < i ==> rows[k] == RowAt(sorted[k], RowHeight * k)
    {
      rows := rows + [RowAt(sorted[i], y)];
      y := y + RowHeight;
      i := i + 1;
    }
  }

  /** Every row's swatch and text lie inside the legend image. */
  lemma RowsInsideLegend(n: nat, k: Keyed, i: nat)
    requires i < n
    ensures 0 <= RowAt(k, RowHeight * i).swatchTop < RowAt(k, RowHeight * i).swatchBottom < RowHeight * n
    ensures RowAt(k, RowHeight * i).textBaseline < RowHeight * n
  {
    assert RowHeight * i + 40 <= RowHeight * n;
  }
}
