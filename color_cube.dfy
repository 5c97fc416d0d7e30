/**
 * The "3D Color Manipulation Cube" demo: one cube whose eight vertices and
 * vertex colours come from a comma-separated text file (written with default
 * data when it is missing). Held keys paint every vertex one colour (R, G, B,
 * a random colour on V, translucent red on T), C restores the colours read at
 * load time, and W/A/S/D/Q/E move the camera.
 */
module ColorCube {
  import opened Wrappers
  import opened Geometry
  import opened Input
  import opened Randomness
  import opened Text

  /** How far one frame of a held camera key moves the camera. */
  const CameraSpeed: real := 0.05

  const Red: Color4 := Color4(1.0, 0.0, 0.0, 1.0)
  const Green: Color4 := Color4(0.0, 1.0, 0.0, 1.0)
  const Blue: Color4 := Color4(0.0, 0.0, 1.0, 1.0)
  const TranslucentRed: Color4 := Color4(1.0, 0.0, 0.0, 0.5)

  // ---------------------------------------------------------------------------
  // The data file

  /** The text of a six-field line: the fields separated by commas. */
  function Line(a: string, b: string, c: string, d: string, e: string, f: string): string
  {
    a + "," + (b + "," + (c + "," + (d + "," + (e + "," + f))))
  }

  /** The eight lines written when the data file does not exist. */
  const DefaultData: seq<string> := [
    Line("0.5", "0.5", "0.5", "1.0", "0.0", "0.0"),
    Line("-0.5", "0.5", "0.5", "0.0", "1.0", "0.0"),
    Line("-0.5", "-0.5", "0.5", "0.0", "0.0", "1.0"),
    Line("0.5", "-0.5", "0.5", "1.0", "1.0", "0.0"),
    Line("0.5", "0.5", "-0.5", "0.0", "1.0", "1.0"),
    Line("-0.5", "0.5", "-0.5", "1.0", "0.0", "1.0"),
    Line("-0.5", "-0.5", "-0.5", "0.5", "0.5", "0.5"),
    Line("0.5", "-0.5", "-0.5", "0.5", "0.0", "0.5")
  ]

  /** The vertices the default lines describe. */
  const DefaultVertices: seq<Vec3> := [
    Vec3(0.5, 0.5, 0.5), Vec3(-0.5, 0.5, 0.5), Vec3(-0.5, -0.5, 0.5), Vec3(0.5, -0.5, 0.5),
    Vec3(0.5, 0.5, -0.5), Vec3(-0.5, 0.5, -0.5), Vec3(-0.5, -0.5, -0.5), Vec3(0.5, -0.5, -0.5)
  ]

  /** The colours the default lines describe, each with alpha 1. */
  const DefaultColors: seq<Color4> := [
    Color4(1.0, 0.0, 0.0, 1.0), Color4(0.0, 1.0, 0.0, 1.0), Color4(0.0, 0.0, 1.0, 1.0),
    Color4(1.0, 1.0, 0.0, 1.0), Color4(0.0, 1.0, 1.0, 1.0), Color4(1.0, 0.0, 1.0, 1.0),
    Color4(0.5, 0.5, 0.5, 1.0), Color4(0.5, 0.0, 0.5, 1.0)
  ]

  /**
   * The lines of the data file once `EnsureFileExists` has run: the file as it
   * was (`Some(lines)`), or the default lines when it was missing (`None`).
   */
  function EnsureFileExists(file: Option<seq<string>>): (lines: seq<string>)
    ensures file.Some? ==> lines == file.value
    ensures file.None? ==> |lines| == 8
  {
    match file
    case Some(existing) => existing
    case None => DefaultData
  }

  /** What `LoadCubeData` builds: index-aligned vertices and colours. */
  datatype CubeData = CubeData(vertices: seq<Vec3>, colors: seq<Color4>)

  /** The loader's acceptance test: the line splits into exactly six fields. */
  predicate IsRecord(line: string)
  {
    |Split(line, ',')| == 6
  }

  /** A line is kept exactly when it holds five commas. */
  lemma RecordHasFiveCommas(line: string)
    ensures IsRecord(line) <==> Occurrences(line, ',') == 5
  {
    SplitCount(line, ',');
  }

  /**
   * One accepted line: the vertex from fields 0-2 and the colour from fields
   * 3-5 with alpha 1; `None` when one of the six fields does not parse.
   */
  function ParseRecord(fields: seq<string>, parse: string -> Option<real>): (r: Option<(Vec3, Color4)>)
    requires |fields| == 6
    ensures r.Some? <==> forall i :: 0 <= i < 6 ==> parse(fields[i]).Some?
    ensures r.Some? ==> r.value.1.a == 1.0
  {
    var x, y, z := parse(fields[0]), parse(fields[1]), parse(fields[2]);
    var red, green, blue := parse(fields[3]), parse(fields[4]), parse(fields[5]);
    if x.Some? && y.Some? && z.Some? && red.Some? && green.Some? && blue.Some? then
      Some((Vec3(x.value, y.value, z.value), Color4(red.value, green.value, blue.value, 1.0)))
    else
      None
  }

  /** The lines the loader keeps, in file order. */
  function RecordLines(lines: seq<string>): (kept: seq<string>)
    ensures |kept| <= |lines|
    decreases |lines|
  {
    if lines == [] then []
    else
      var last := lines[|lines| - 1];
      RecordLines(lines[..|lines| - 1]) + (if IsRecord(last) then [last] else [])
  }

  /**
   * `LoadCubeData` on the given lines: `None` when a kept line has a field
   * `float.Parse` rejects (the exception that aborts the load).
   */
  function LoadLines(lines: seq<string>, parse: string -> Option<real>): (r: Option<CubeData>)
    ensures r.Some? ==> |r.value.vertices| == |r.value.colors| <= |lines|
    decreases |lines|
  {
    if lines == [] then Some(CubeData([], []))
    else LoadLine(LoadLines(lines[..|lines| - 1], parse), lines[|lines| - 1], parse)
  }

  /** One iteration of the load loop: skip a line that is not a record, append one that is. */
  function LoadLine(loaded: Option<CubeData>, line: string, parse: string -> Option<real>): (r: Option<CubeData>)
    ensures r.Some? ==> loaded.Some?
    ensures loaded.Some? && !IsRecord(line) ==> r == loaded
  {
    match loaded
    case None => None
    case Some(d) =>
      var fields := Split(line, ',');
      if |fields| != 6 then Some(d)
      else
        match ParseRecord(fields, parse)
        case None => None
        case Some(record) => Some(CubeData(d.vertices + [record.0], d.colors + [record.1]))
  }

  /**
   * A record line that parses appends exactly one vertex and one colour and
   * keeps everything loaded before it.
   */
  lemma LoadLineAppends(loaded: Option<CubeData>, line: string, parse: string -> Option<real>)
    requires LoadLine(loaded, line, parse).Some? && IsRecord(line)
    ensures var d, e := loaded.value, LoadLine(loaded, line, parse).value;
      && |e.vertices| == |d.vertices| + 1 && |e.colors| == |d.colors| + 1
      && e.vertices[..|d.vertices|] == d.vertices && e.colors[..|d.colors|] == d.colors
  {
    var d, e := loaded.value, LoadLine(loaded, line, parse).value;
    assert e.vertices == d.vertices + [e.vertices[|d.vertices|]];
  }

  /** Every colour a successful load yields is opaque: alpha is fixed at 1. */
  lemma {:induction false} LoadedColoursOpaque(lines: seq<string>, parse: string -> Option<real>)
    ensures LoadLines(lines, parse).Some? ==>
      var d := LoadLines(lines, parse).value;
      forall k :: 0 <= k < |d.colors| ==> d.colors[k].a == 1.0
    decreases |lines|
  {
    if lines != [] {
      var init, last := lines[..|lines| - 1], lines[|lines| - 1];
      LoadedColoursOpaque(init, parse);
      var fields := Split(last, ',');
      assert LoadLines(lines, parse) == LoadLine(LoadLines(init, parse), last, parse);
      if LoadLines(init, parse).Some? && |fields| == 6 && ParseRecord(fields, parse).Some? {
        var d, e := LoadLines(init, parse).value, LoadLines(lines, parse).value;
        assert e.colors == d.colors + [ParseRecord(fields, parse).value.1];
      }
    }
  }

  /** Every kept line is a record. */
  lemma {:induction false} RecordLinesAreRecords(lines: seq<string>)
    ensures forall k :: 0 <= k < |RecordLines(lines)| ==> IsRecord(RecordLines(lines)[k])
    decreases |lines|
  {
    if lines != [] {
      RecordLinesAreRecords(lines[..|lines| - 1]);
    }
  }

  /** The first i + 1 lines load as the first i lines followed by line i. */
  lemma LoadNext(lines: seq<string>, i: nat, parse: string -> Option<real>)
    requires i < |lines|
    ensures LoadLines(lines[..i + 1], parse) == LoadLine(LoadLines(lines[..i], parse), lines[i], parse)
  {
    assert lines[..i + 1][..i] == lines[..i];
  }

  /** Appending a line that is not a record changes nothing that is loaded. */
  lemma MalformedLineSkipped(lines: seq<string>, line: string, parse: string -> Option<real>)
    requires !IsRecord(line)
    ensures LoadLines(lines + [line], parse) == LoadLines(lines, parse)
    ensures RecordLines(lines + [line]) == RecordLines(lines)
  {
    assert (lines + [line])[..|lines|] == lines;
  }

  /** A three-field line such as "1,2,3" is not a record. */
  lemma ShortLineIsNotRecord()
    ensures !IsRecord("1,2,3")
  {
    var s := "1,2,3";
    assert s[1..] == ",2,3" && s[2..] == "2,3" && s[3..] == ",3" && s[4..] == "3" && s[5..] == "";
    assert Occurrences(s, ',') == 2;
    SplitCount(s, ',');
  }

  /** A line read as a record: `None` when it is not one or a field does not parse. */
  function ParseLine(line: string, parse: string -> Option<real>): Option<(Vec3, Color4)>
  {
    var fields := Split(line, ',');
    if |fields| == 6 then ParseRecord(fields, parse) else None
  }

  /**
   * The load succeeds exactly when every kept line parses, and then entry k of
   * both lists comes from the k-th kept line.
   */
  lemma {:induction false} LoadLinesFromRecords(lines: seq<string>, parse: string -> Option<real>)
    ensures LoadLines(lines, parse).Some?
        <==> forall k :: 0 <= k < |RecordLines(lines)| ==> ParseLine(RecordLines(lines)[k], parse).Some?
    ensures LoadLines(lines, parse).Some? ==>
      var d, kept := LoadLines(lines, parse).value, RecordLines(lines);
      && |d.vertices| == |d.colors| == |kept|
      && forall k :: 0 <= k < |kept| ==> ParseLine(kept[k], parse) == Some((d.vertices[k], d.colors[k]))
    decreases |lines|
  {
    if lines != [] {
      var init, last := lines[..|lines| - 1], lines[|lines| - 1];
      LoadLinesFromRecords(init, parse);
      assert LoadLines(lines, parse) == LoadLine(LoadLines(init, parse), last, parse);
      var kept := RecordLines(init);
      if IsRecord(last) {
        var all := kept + [last];
        assert RecordLines(lines) == all;
        assert all[|kept|] == last;
        assert forall k :: 0 <= k < |kept| ==> all[k] == kept[k];
        var here := ParseLine(last, parse);
        match LoadLines(init, parse)
        case None =>
          assert LoadLines(lines, parse).None?;
        case Some(d) =>
          if here.Some? {
            var e := LoadLines(lines, parse).value;
            assert e.vertices == d.vertices + [here.value.0] && e.colors == d.colors + [here.value.1];
          } else {
            // The last kept line is the witness that not every kept line parses.
            assert LoadLines(lines, parse).None?;
            assert !ParseLine(RecordLines(lines)[|kept|], parse).Some?;
          }
      } else {
        assert RecordLines(lines) == kept;
      }
    }
  }

  lemma DropLast<T>(s: seq<T>)
    requires |s| > 0
    ensures s == s[..|s| - 1] + [s[|s| - 1]]
  {
  }

  // ---------------------------------------------------------------------------
  // The default data set

  /** The fields of the default lines. */
  const DefaultFields: seq<seq<string>> := [
    ["0.5", "0.5", "0.5", "1.0", "0.0", "0.0"],
    ["-0.5", "0.5", "0.5", "0.0", "1.0", "0.0"],
    ["-0.5", "-0.5", "0.5", "0.0", "0.0", "1.0"],
    ["0.5", "-0.5", "0.5", "1.0", "1.0", "0.0"],
    ["0.5", "0.5", "-0.5", "0.0", "1.0", "1.0"],
    ["-0.5", "0.5", "-0.5", "1.0", "0.0", "1.0"],
    ["-0.5", "-0.5", "-0.5", "0.5", "0.5", "0.5"],
    ["0.5", "-0.5", "-0.5", "0.5", "0.0", "0.5"]
  ]

  /** `parse` reads the four numerals the default lines use as the numbers they denote. */
  predicate ReadsDefaultNumerals(parse: string -> Option<real>)
  {
    && parse("0.5") == Some(0.5) && parse("-0.5") == Some(-0.5)
    && parse("1.0") == Some(1.0) && parse("0.0") == Some(0.0)
  }

  /** A line of six comma-free fields splits back into them. */
  lemma SplitLine(a: string, b: string, c: string, d: string, e: string, f: string)
    requires ',' !in a && ',' !in b && ',' !in c && ',' !in d && ',' !in e && ',' !in f
    ensures Split(Line(a, b, c, d, e, f), ',') == [a, b, c, d, e, f]
  {
    var t4 := e + "," + f;
    var t3 := d + "," + t4;
    var t2 := c + "," + t3;
    var t1 := b + "," + t2;
    assert Split(f, ',') == [f] by { SplitJoin([f], ','); }
    SplitCons(e, f, ',');
    SplitCons(d, t4, ',');
    SplitCons(c, t3, ',');
    SplitCons(b, t2, ',');
    SplitCons(a, t1, ',');
  }

  /** Default line k splits into its six fields, which parse to default vertex k and colour k. */
  lemma DefaultLine(k: nat, parse: string -> Option<real>)
    requires k < 8 && ReadsDefaultNumerals(parse)
    ensures Split(DefaultData[k], ',') == DefaultFields[k]
    ensures ParseRecord(DefaultFields[k], parse) == Some((DefaultVertices[k], DefaultColors[k]))
  {
    if k == 0 {
      SplitLine("0.5", "0.5", "0.5", "1.0", "0.0", "0.0");
      assert ParseRecord(DefaultFields[0], parse) == Some((DefaultVertices[0], DefaultColors[0]));
    } else if k == 1 {
      SplitLine("-0.5", "0.5", "0.5", "0.0", "1.0", "0.0");
      assert ParseRecord(DefaultFields[1], parse) == Some((DefaultVertices[1], DefaultColors[1]));
    } else if k == 2 {
      SplitLine("-0.5", "-0.5", "0.5", "0.0", "0.0", "1.0");
      assert ParseRecord(DefaultFields[2], parse) == Some((DefaultVertices[2], DefaultColors[2]));
    } else if k == 3 {
      SplitLine("0.5", "-0.5", "0.5", "1.0", "1.0", "0.0");
      assert ParseRecord(DefaultFields[3], parse) == Some((DefaultVertices[3], DefaultColors[3]));
    } else if k == 4 {
      SplitLine("0.5", "0.5", "-0.5", "0.0", "1.0", "1.0");
      assert ParseRecord(DefaultFields[4], parse) == Some((DefaultVertices[4], DefaultColors[4]));
    } else if k == 5 {
      SplitLine("-0.5", "0.5", "-0.5", "1.0", "0.0", "1.0");
      assert ParseRecord(DefaultFields[5], parse) == Some((DefaultVertices[5], DefaultColors[5]));
    } else if k == 6 {
      SplitLine("-0.5", "-0.5", "-0.5", "0.5", "0.5", "0.5");
      assert ParseRecord(DefaultFields[6], parse) == Some((DefaultVertices[6], DefaultColors[6]));
    } else {
      SplitLine("0.5", "-0.5", "-0.5", "0.5", "0.0", "0.5");
      assert ParseRecord(DefaultFields[7], parse) == Some((DefaultVertices[7], DefaultColors[7]));
    }
  }

  /**
   * Lines that each split into six fields parsing to the given vertex and
   * colour load to exactly those vertices and colours, in order.
   */
  lemma {:induction false} LoadAllRecords(lines: seq<string>, fields: seq<seq<string>>, vertices: seq<Vec3>, colors: seq<Color4>, parse: string -> Option<real>)
    requires |lines| == |fields| == |vertices| == |colors|
    requires forall k :: 0 <= k < |lines| ==> Split(lines[k], ',') == fields[k]
    requires forall k :: 0 <= k < |lines| ==> |fields[k]| == 6 && ParseRecord(fields[k], parse) == Some((vertices[k], colors[k]))
    ensures LoadLines(lines, parse) == Some(CubeData(vertices, colors))
    decreases |lines|
  {
    if lines != [] {
      var n := |lines|;
      LoadAllRecords(lines[..n - 1], fields[..n - 1], vertices[..n - 1], colors[..n - 1], parse);
      DropLast(vertices);
      DropLast(colors);
    }
  }

  /**
   * With no data file, the loader reads the eight default lines and yields
   * exactly the eight default vertices and colours, every alpha 1.
   */
  lemma DefaultLoad(parse: string -> Option<real>)
    requires ReadsDefaultNumerals(parse)
    ensures LoadLines(EnsureFileExists(None), parse) == Some(CubeData(DefaultVertices, DefaultColors))
    ensures |DefaultVertices| == |DefaultColors| == 8
    ensures forall k :: 0 <= k < 8 ==> DefaultColors[k].a == 1.0
  {
    forall k | 0 <= k < 8
      ensures Split(DefaultData[k], ',') == DefaultFields[k]
      ensures ParseRecord(DefaultFields[k], parse) == Some((DefaultVertices[k], DefaultColors[k]))
    {
      DefaultLine(k, parse);
    }
    LoadAllRecords(DefaultData, DefaultFields, DefaultVertices, DefaultColors, parse);
  }

  // ---------------------------------------------------------------------------
  // Drawing

  /** The four vertex indices of each of the twelve `DrawFace` calls in `Draw`. */
  const DrawFaces: seq<seq<nat>> := [
    [0, 1, 2, 3], [0, 2, 3, 1], [4, 5, 6, 7], [4, 6, 7, 5], [0, 3, 7, 4], [0, 7, 4, 3],
    [1, 2, 6, 5], [1, 6, 5, 2], [0, 1, 5, 4], [0, 5, 4, 1], [2, 3, 7, 6], [2, 7, 6, 3]
  ]

  /** `Draw` reads only existing entries of both lists. */
  predicate Drawable(vertexCount: nat, colorCount: nat)
  {
    forall f, j :: 0 <= f < |DrawFaces| && 0 <= j < |DrawFaces[f]| ==>
      DrawFaces[f][j] < vertexCount && DrawFaces[f][j] < colorCount
  }

  /** Rendering is safe exactly when at least eight vertices and eight colours were loaded. */
  lemma DrawableIffEight(vertexCount: nat, colorCount: nat)
    ensures Drawable(vertexCount, colorCount) <==> 8 <= vertexCount && 8 <= colorCount
  {
    if Drawable(vertexCount, colorCount) {
      assert DrawFaces[2][3] == 7;
    }
    if 8 <= vertexCount && 8 <= colorCount {
      forall f, j | 0 <= f < |DrawFaces| && 0 <= j < |DrawFaces[f]|
        ensures DrawFaces[f][j] < 8
      {
      }
    }
  }

  // ---------------------------------------------------------------------------
  // Colour operations

  /** `n` copies of `c`: what `ChangeColor` leaves in a list of length `n`. */
  function Uniform(n: nat, c: Color4): (s: seq<Color4>)
    ensures |s| == n && forall i :: 0 <= i < n ==> s[i] == c
  {
    seq(n, _ => c)
  }

  /**
   * What `ResetColor` leaves: the first |initial| entries copied from
   * `initial`, the rest untouched.
   */
  function ResetColors(current: seq<Color4>, initial: seq<Color4>): (r: seq<Color4>)
    requires |initial| <= |current|
    ensures |r| == |current|
    ensures forall i :: 0 <= i < |initial| ==> r[i] == initial[i]
    ensures forall i :: |initial| <= i < |current| ==> r[i] == current[i]
  {
    initial + current[|initial|..]
  }

  /** The colours after a run of `ChangeColor` calls, one per entry of `changes`. */
  function ApplyChanges(colors: seq<Color4>, changes: seq<Color4>): (r: seq<Color4>)
    ensures |r| == |colors|
    decreases |changes|
  {
    if changes == [] then colors else ApplyChanges(Uniform(|colors|, changes[0]), changes[1..])
  }

  /** Whatever colours were painted since loading, a reset gives back exactly the load-time colours. */
  lemma ResetAfterChanges(initial: seq<Color4>, changes: seq<Color4>)
    ensures ResetColors(ApplyChanges(initial, changes), initial) == initial
  {
  }

  /** The random colour `GetRandomColor` builds from the draws at position k: alpha 1. */
  function RandomColor(u: nat -> real, k: nat): Color4
  {
    Color4(u(k), u(k + 1), u(k + 2), 1.0)
  }

  /** Cube 0's colours after the colour keys of one frame: R, G, B, V and T paint, in that order. */
  function PaintColours(current: seq<Color4>, keys: set<Key>, randomColor: Color4): (painted: seq<Color4>)
    ensures |painted| == |current|
  {
    var c1 := PaintStep(current, R in keys, Red);
    var c2 := PaintStep(c1, G in keys, Green);
    var c3 := PaintStep(c2, B in keys, Blue);
    var c4 := PaintStep(c3, V in keys, randomColor);
    PaintStep(c4, T in keys, TranslucentRed)
  }

  /** One colour key: paint everything `c` when it is held. */
  function PaintStep(current: seq<Color4>, held: bool, c: Color4): (painted: seq<Color4>)
    ensures |painted| == |current|
  {
    if held then Uniform(|current|, c) else current
  }

  /** Cube 0's colours after one frame: the colour keys paint, then C resets when there is a snapshot. */
  function FrameColours(current: seq<Color4>, initial: Option<seq<Color4>>, keys: set<Key>, randomColor: Color4): (r: seq<Color4>)
    requires C in keys && initial.Some? ==> |initial.value| <= |current|
    ensures |r| == |current|
    ensures C in keys && initial.Some? ==> r[..|initial.value|] == initial.value
  {
    var painted := PaintColours(current, keys, randomColor);
    if C in keys && initial.Some? then ResetColors(painted, initial.value) else painted
  }

  /** The colour the last held colour key of a frame paints, if any is held. */
  function LastPaint(keys: set<Key>, randomColor: Color4): Option<Color4>
  {
    if T in keys then Some(TranslucentRed)
    else if V in keys then Some(randomColor)
    else if B in keys then Some(Blue)
    else if G in keys then Some(Green)
    else if R in keys then Some(Red)
    else None
  }

  /** Without a reset, a frame leaves the cube in the last held key's colour, or as it was. */
  lemma FrameWithoutReset(current: seq<Color4>, initial: Option<seq<Color4>>, keys: set<Key>, randomColor: Color4)
    requires C !in keys || initial.None?
    ensures FrameColours(current, initial, keys, randomColor)
         == match LastPaint(keys, randomColor)
            case Some(c) => Uniform(|current|, c)
            case None => current
  {
  }

  /** With a reset and a snapshot as long as the colours, a frame ends on the snapshot, whatever else is held. */
  lemma FrameWithReset(current: seq<Color4>, initial: seq<Color4>, keys: set<Key>, randomColor: Color4)
    requires C in keys && |initial| == |current|
    ensures FrameColours(current, Some(initial), keys, randomColor) == initial
  {
  }

  /** The camera after one frame: W/S move it along Z, A/D along X, Q/E along Y. */
  function CameraStep(p: Vec3, keys: set<Key>): (q: Vec3)
    ensures q.x == p.x + (if D in keys then CameraSpeed else 0.0) - (if A in keys then CameraSpeed else 0.0)
    ensures q.y == p.y + (if Q in keys then CameraSpeed else 0.0) - (if E in keys then CameraSpeed else 0.0)
    ensures q.z == p.z + (if S in keys then CameraSpeed else 0.0) - (if W in keys then CameraSpeed else 0.0)
  {
    var z1 := if W in keys then p.z - CameraSpeed else p.z;
    var z2 := if S in keys then z1 + CameraSpeed else z1;
    var x1 := if A in keys then p.x - CameraSpeed else p.x;
    var x2 := if D in keys then x1 + CameraSpeed else x1;
    var y1 := if Q in keys then p.y + CameraSpeed else p.y;
    var y2 := if E in keys then y1 - CameraSpeed else y1;
    Vec3(x2, y2, z2)
  }

  // ---------------------------------------------------------------------------
  // The objects

  /** A `List<Color4>`: a reference, so two names for one list see each other's writes. */
  class ColorList {
    var items: seq<Color4>

    constructor ()
      ensures items == []
    {
      items := [];
    }

    /** `new List<Color4>(source)`: a new list holding the same entries. */
    constructor Copy(source: ColorList)
      ensures items == source.items
    {
      items := source.items;
    }

    method Add(c: Color4)
      modifies this
      ensures items == old(items) + [c]
    {
      items := items + [c];
    }

    method Set(i: nat, c: Color4)
      requires i < |items|
      modifies this
      ensures items == old(items)[i := c]
    {
      items := items[i := c];
    }
  }

  class Cube {
    const vertices: seq<Vec3>
    /** The very list the loader built, not a copy of it. */
    const colors: ColorList

    constructor (vertices: seq<Vec3>, colors: ColorList)
      ensures this.vertices == vertices && this.colors == colors
    {
      this.vertices := vertices;
      this.colors := colors;
    }

    /** Paints every vertex `color`; the number of colours and the vertices stay as they are. */
    method ChangeColor(color: Color4)
      modifies colors
      ensures colors.items == Uniform(|old(colors.items)|, color)
    {
      var i := 0;
      while i < |colors.items|
        invariant 0 <= i <= |colors.items| == |old(colors.items)|
        invariant forall k :: 0 <= k < i ==> colors.items[k] == color
      {
        colors.Set(i, color);
        i := i + 1;
      }
    }

    /**
     * Copies `initialColors` over the first entries of the colours; `List<Color4>`'s
     * indexer throws `ArgumentOutOfRangeException` when the colours are the shorter list.
     */
    method ResetColor(initialColors: ColorList)
      requires |initialColors.items| <= |colors.items|
      modifies colors
      ensures colors.items == ResetColors(old(colors.items), old(initialColors.items))
      ensures initialColors.items == old(initialColors.items)
    {
      var i := 0;
      while i < |initialColors.items|
        invariant 0 <= i <= |initialColors.items| <= |colors.items| == |old(colors.items)|
        invariant initialColors.items == old(initialColors.items)
        invariant forall k :: 0 <= k < i ==> colors.items[k] == old(initialColors.items)[k]
        invariant forall k :: i <= k < |colors.items| ==> colors.items[k] == old(colors.items)[k]
      {
        colors.Set(i, initialColors.items[i]);
        i := i + 1;
      }
    }
  }

  class Game {
    var cubes: seq<Cube>
    const random: Rng
    var cameraPosition: Vec3
    var colorChanged: bool
    var initialColors: ColorList?

    /**
     * No two cubes share a colour list, and the load-time snapshot is a list of
     * its own: painting a cube can touch neither another cube nor the snapshot.
     */
    ghost predicate Valid()
      reads this
    {
      && random.Valid()
      && (forall i, j :: 0 <= i < j < |cubes| ==> cubes[i].colors != cubes[j].colors)
      && (initialColors != null ==> forall i :: 0 <= i < |cubes| ==> cubes[i].colors != initialColors)
    }

    constructor (stream: nat -> real)
      requires forall n: nat :: 0.0 <= stream(n) < 1.0
      ensures Valid() && fresh(random) && random.stream == stream && random.drawn == 0
      ensures cubes == [] && initialColors == null && !colorChanged
      ensures cameraPosition == Vec3(0.0, 0.0, 5.0)
    {
      random := new Rng(stream);
      cubes := [];
      cameraPosition := Vec3(0.0, 0.0, 5.0);
      colorChanged := false;
      initialColors := null;
    }

    /**
     * Reads the lines, keeps the six-field ones, takes a snapshot copy of the
     * colours and appends one cube that holds the loaded lists themselves. A
     * field that does not parse aborts the load and changes nothing.
     */
    method LoadCubeData(lines: seq<string>, parse: string -> Option<real>) returns (ok: bool)
      requires Valid()
      modifies this
      ensures Valid()
      ensures ok == LoadLines(lines, parse).Some?
      ensures !ok ==> cubes == old(cubes) && initialColors == old(initialColors)
      ensures ok ==>
        && |cubes| == |old(cubes)| + 1 && cubes[..|old(cubes)|] == old(cubes)
        && var data, cube := LoadLines(lines, parse).value, cubes[|cubes| - 1];
        && fresh(cube) && fresh(cube.colors) && fresh(initialColors)
        && cube.vertices == data.vertices && cube.colors.items == data.colors
        && initialColors.items == data.colors
      ensures cameraPosition == old(cameraPosition) && colorChanged == old(colorChanged)
    {
      var vertices, colors;
      vertices, colors, ok := ReadRecords(lines, parse);
      if !ok {
        return;
      }
      initialColors := new ColorList.Copy(colors);
      var cube := new Cube(vertices, colors);
      cubes := cubes + [cube];
    }

    /** `OnLoad`: make sure the data file exists, then load it; returns the file's lines. */
    method OnLoad(file: Option<seq<string>>, parse: string -> Option<real>) returns (lines: seq<string>, ok: bool)
      requires Valid()
      modifies this
      ensures Valid()
      ensures lines == EnsureFileExists(file) && ok == LoadLines(lines, parse).Some?
      ensures !ok ==> cubes == old(cubes) && initialColors == old(initialColors)
      ensures ok ==>
        && |cubes| == |old(cubes)| + 1 && cubes[..|old(cubes)|] == old(cubes)
        && var data, cube := LoadLines(lines, parse).value, cubes[|cubes| - 1];
        && fresh(cube) && fresh(cube.colors) && fresh(initialColors)
        && cube.vertices == data.vertices && cube.colors.items == data.colors
        && initialColors.items == data.colors
      ensures cameraPosition == old(cameraPosition) && colorChanged == old(colorChanged)
    {
      lines := EnsureFileExists(file);
      ok := LoadCubeData(lines, parse);
    }

    /** Three draws, alpha 1. */
    method GetRandomColor() returns (c: Color4)
      requires random.Valid()
      modifies random
      ensures c == RandomColor(random.stream, old(random.drawn)) && random.drawn == old(random.drawn) + 3
    {
      var u := random.NextDoubles(3);
      c := Color4(u[0], u[1], u[2], 1.0);
    }

    /**
     * Paints cube `cubeIndex` when it exists and records that a colour changed;
     * an index past the end is silently ignored. A negative index is the
     * caller's fault (`cubes[cubeIndex]` throws `ArgumentOutOfRangeException`).
     */
    method ChangeCubeColor(cubeIndex: int, color: Color4)
      requires Valid() && 0 <= cubeIndex
      modifies this, if cubeIndex < |cubes| then {cubes[cubeIndex].colors} else {}
      ensures Valid()
      ensures cubes == old(cubes) && initialColors == old(initialColors) && cameraPosition == old(cameraPosition)
      ensures colorChanged == (old(colorChanged) || cubeIndex < |cubes|)
      ensures cubeIndex < |cubes| ==>
        cubes[cubeIndex].colors.items == Uniform(|old(cubes[cubeIndex].colors.items)|, color)
      ensures forall i :: 0 <= i < |cubes| && i != cubeIndex ==> cubes[i].colors.items == old(cubes[i].colors.items)
      ensures initialColors != null ==> initialColors.items == old(initialColors.items)
    {
      if cubeIndex < |cubes| {
        cubes[cubeIndex].ChangeColor(color);
        colorChanged := true;
      }
    }

    /**
     * Restores cube `cubeIndex` from the snapshot when both exist; otherwise
     * nothing happens.
     */
    method ResetCubeColor(cubeIndex: int)
      requires Valid() && 0 <= cubeIndex
      requires cubeIndex < |cubes| && initialColors != null ==>
        |initialColors.items| <= |cubes[cubeIndex].colors.items|
      modifies if cubeIndex < |cubes| then {cubes[cubeIndex].colors} else {}
      ensures cubeIndex < |cubes| && initialColors != null ==>
        cubes[cubeIndex].colors.items == ResetColors(old(cubes[cubeIndex].colors.items), initialColors.items)
      ensures cubeIndex < |cubes| && initialColors == null ==>
        cubes[cubeIndex].colors.items == old(cubes[cubeIndex].colors.items)
      ensures initialColors != null ==> initialColors.items == old(initialColors.items)
    {
      if cubeIndex < |cubes| && initialColors != null {
        cubes[cubeIndex].ResetColor(initialColors);
      }
    }

    /** The snapshot, as a value. */
    ghost function Snapshot(): Option<seq<Color4>>
      reads this, initialColors
    {
      if initialColors == null then None else Some(initialColors.items)
    }

    /** One line of the frame: `ChangeCubeColor(0, color)` when its key is held. */
    method PaintIfHeld(held: bool, color: Color4)
      requires Valid()
      modifies this, if 0 < |cubes| then {cubes[0].colors} else {}
      ensures Valid()
      ensures cubes == old(cubes) && initialColors == old(initialColors) && cameraPosition == old(cameraPosition)
      ensures 0 < |cubes| ==> cubes[0].colors.items == PaintStep(old(cubes[0].colors.items), held, color)
      ensures colorChanged == (old(colorChanged) || (held && 0 < |cubes|))
      ensures initialColors != null ==> initialColors.items == old(initialColors.items)
    {
      if held {
        ChangeCubeColor(0, color);
      }
    }

    /** The colour keys of one frame: R, G, B, V and T, each painting cube 0 when held. */
    method PaintKeys(keys: set<Key>)
      requires Valid()
      modifies this, random, if 0 < |cubes| then {cubes[0].colors} else {}
      ensures Valid()
      ensures cubes == old(cubes) && initialColors == old(initialColors) && cameraPosition == old(cameraPosition)
      ensures random.drawn == old(random.drawn) + (if V in keys then 3 else 0)
      ensures 0 < |cubes| ==>
        cubes[0].colors.items == PaintColours(old(cubes[0].colors.items), keys, RandomColor(random.stream, old(random.drawn)))
      ensures colorChanged == (old(colorChanged) || (0 < |cubes| && (R in keys || G in keys || B in keys || V in keys || T in keys)))
      ensures initialColors != null ==> initialColors.items == old(initialColors.items)
    {
      PaintIfHeld(R in keys, Red);
      PaintIfHeld(G in keys, Green);
      PaintIfHeld(B in keys, Blue);
      var randomColor := RandomColor(random.stream, random.drawn);
      if V in keys {
        randomColor := GetRandomColor();
      }
      PaintIfHeld(V in keys, randomColor);
      PaintIfHeld(T in keys, TranslucentRed);
    }

    /** One frame: the colour keys, then C restores cube 0, then the camera moves. */
    method OnUpdateFrame(keys: set<Key>)
      requires Valid()
      requires C in keys && 0 < |cubes| && initialColors != null ==>
        |initialColors.items| <= |cubes[0].colors.items|
      modifies this, random, if 0 < |cubes| then {cubes[0].colors} else {}
      ensures Valid()
      ensures cubes == old(cubes) && initialColors == old(initialColors)
      ensures cameraPosition == CameraStep(old(cameraPosition), keys)
      ensures random.drawn == old(random.drawn) + (if V in keys then 3 else 0)
      ensures 0 < |cubes| ==>
        cubes[0].colors.items
          == FrameColours(old(cubes[0].colors.items), old(Snapshot()), keys, RandomColor(random.stream, old(random.drawn)))
      ensures colorChanged == (old(colorChanged) || (0 < |cubes| && (R in keys || G in keys || B in keys || V in keys || T in keys)))
      ensures initialColors != null ==> initialColors.items == old(initialColors.items)
    {
      PaintKeys(keys);
      if C in keys { ResetCubeColor(0); }
      cameraPosition := CameraStep(cameraPosition, keys);
    }
  }

  /**
   * The `foreach` of `LoadCubeData`: builds the vertex list and a new colour
   * list from the six-field lines, in file order. `ok` is false when
   * `float.Parse` throws on a field of a kept line, which abandons both lists.
   */
  method ReadRecords(lines: seq<string>, parse: string -> Option<real>) returns (vertices: seq<Vec3>, colors: ColorList, ok: bool)
    ensures fresh(colors)
    ensures ok == LoadLines(lines, parse).Some?
    ensures ok ==> LoadLines(lines, parse) == Some(CubeData(vertices, colors.items))
  {
    vertices := [];
    colors := new ColorList();
    var i := 0;
    while i < |lines|
      invariant 0 <= i <= |lines| && fresh(colors)
      invariant LoadLines(lines[..i], parse) == Some(CubeData(vertices, colors.items))
    {
      LoadNext(lines, i, parse);
      var parts := Split(lines[i], ',');
      if |parts| == 6 {
        var x := parse(parts[0]);
        var y := parse(parts[1]);
        var z := parse(parts[2]);
        var r := parse(parts[3]);
        var g := parse(parts[4]);
        var b := parse(parts[5]);
        if x.None? || y.None? || z.None? || r.None? || g.None? || b.None? {
          LoadAborts(lines, i, parse);
          return vertices, colors, false;
        }
        var vertex := Vec3(x.value, y.value, z.value);
        var color := Color4(r.value, g.value, b.value, 1.0);
        assert ParseRecord(parts, parse) == Some((vertex, color));
        vertices := vertices + [vertex];
        colors.Add(color);
      }
      i := i + 1;
    }
    assert lines[..|lines|] == lines;
    ok := true;
  }

  /** A load stops at the first kept line with a field that does not parse. */
  lemma {:induction false} LoadAborts(lines: seq<string>, i: nat, parse: string -> Option<real>)
    requires i < |lines| && IsRecord(lines[i])
    requires ParseRecord(Split(lines[i], ','), parse).None?
    ensures LoadLines(lines, parse).None?
    decreases |lines|
  {
    if i < |lines| - 1 {
      LoadAborts(lines[..|lines| - 1], i, parse);
    } else {
      assert lines[..|lines| - 1] == lines[..i];
    }
  }

  /**
   * Several frames of painting followed by a reset: cube 0 ends with exactly
   * the colours the snapshot took at load time.
   */
  method PaintThenReset(game: Game, changes: seq<Color4>)
    requires game.Valid() && 0 < |game.cubes| && game.initialColors != null
    requires |game.cubes[0].colors.items| == |game.initialColors.items|
    modifies game, game.cubes[0].colors
    ensures game.cubes == old(game.cubes) && game.initialColors == old(game.initialColors)
    ensures game.initialColors.items == old(game.initialColors.items)
    ensures game.cubes[0].colors.items == game.initialColors.items
  {
    var i := 0;
    while i < |changes|
      invariant 0 <= i <= |changes| && game.Valid()
      invariant game.cubes == old(game.cubes) && game.initialColors == old(game.initialColors)
      invariant game.initialColors.items == old(game.initialColors.items)
      invariant |game.cubes[0].colors.items| == |game.initialColors.items|
    {
      game.ChangeCubeColor(0, changes[i]);
      i := i + 1;
    }
    game.ResetCubeColor(0);
  }
}
