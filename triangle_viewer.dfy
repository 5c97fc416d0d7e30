/**
 * The "Triangle Color and Camera Control" window: a triangle whose three
 * vertices come from a space-separated text file, an RGBA colour that held
 * keys raise (R, G, B) or lower (A, the alpha) in steps of 0.01 clamped to
 * [0, 1], C to restore opaque red, and a camera that turns with the mouse.
 */
module TriangleViewer {
  import opened Wrappers
  import opened Geometry
  import opened Input
  import opened Text

  /** How much one frame of a held colour key changes its component. */
  const Step: real := 0.01
  /** Degrees of camera turn per pixel of mouse motion. */
  const MouseSensitivity: real := 0.1

  /** The colour the window starts with and C restores: opaque red. */
  const Initial: seq<real> := [1.0, 0.0, 0.0, 1.0]

  /** Every component lies in [0, 1]. */
  predicate InRange(c: seq<real>)
  {
    forall i :: 0 <= i < |c| ==> 0.0 <= c[i] <= 1.0
  }

  /** What a held R, G or B key does to its component. */
  function Bump(x: real): (y: real)
    ensures y <= 1.0
    ensures x <= 1.0 ==> x <= y
    ensures 0.0 <= x ==> 0.0 <= y
  {
    Min(1.0, x + Step)
  }

  /** What a held A key does to the alpha. */
  function Fade(x: real): (y: real)
    ensures 0.0 <= y
    ensures 0.0 <= x ==> y <= x
    ensures x <= 1.0 ==> y <= 1.0
  {
    Max(0.0, x - Step)
  }

  /** The colour after one frame with `keys` held: R, G, B and A in turn, then C. */
  function ColourFrame(c: seq<real>, keys: set<Key>): (r: seq<real>)
    requires |c| == 4
    ensures |r| == 4
    ensures C !in keys && R !in keys ==> r[0] == c[0]
    ensures C !in keys && G !in keys ==> r[1] == c[1]
    ensures C !in keys && B !in keys ==> r[2] == c[2]
    ensures C !in keys && A !in keys ==> r[3] == c[3]
  {
    var c1 := if R in keys then c[0 := Bump(c[0])] else c;
    var c2 := if G in keys then c1[1 := Bump(c1[1])] else c1;
    var c3 := if B in keys then c2[2 := Bump(c2[2])] else c2;
    var c4 := if A in keys then c3[3 := Fade(c3[3])] else c3;
    if C in keys then Initial else c4
  }

  /** The colour after a run of frames. */
  function ColourFrames(c: seq<real>, frames: seq<set<Key>>): (r: seq<real>)
    requires |c| == 4
    ensures |r| == 4
    decreases |frames|
  {
    if frames == [] then c else ColourFrames(ColourFrame(c, frames[0]), frames[1..])
  }

  /** A raised component never exceeds 1 and a lowered alpha never drops below 0. */
  lemma StepsRespectBounds(c: seq<real>, keys: set<Key>)
    requires |c| == 4 && C !in keys
    ensures forall i :: 0 <= i < 3 && ColourFrame(c, keys)[i] != c[i] ==> ColourFrame(c, keys)[i] <= 1.0
    ensures ColourFrame(c, keys)[3] != c[3] ==> 0.0 <= ColourFrame(c, keys)[3]
  {
  }

  /** C restores exactly opaque red, whatever the colour was and whatever else is held. */
  lemma ResetIsInitial(c: seq<real>, keys: set<Key>)
    requires |c| == 4 && C in keys
    ensures ColourFrame(c, keys) == [1.0, 0.0, 0.0, 1.0]
  {
  }

  /** A frame keeps every component in [0, 1]. */
  lemma FrameKeepsRange(c: seq<real>, keys: set<Key>)
    requires |c| == 4 && InRange(c)
    ensures InRange(ColourFrame(c, keys))
  {
    var r := ColourFrame(c, keys);
    if C !in keys {
      assert r[0] == (if R in keys then Bump(c[0]) else c[0]);
      assert r[3] == (if A in keys then Fade(c[3]) else c[3]);
    }
  }

  /** From any colour in [0, 1], every component stays in [0, 1] across any run of frames. */
  lemma {:induction false} FramesKeepRange(c: seq<real>, frames: seq<set<Key>>)
    requires |c| == 4 && InRange(c)
    ensures InRange(ColourFrames(c, frames))
    decreases |frames|
  {
    if frames != [] {
      FrameKeepsRange(c, frames[0]);
      FramesKeepRange(ColourFrame(c, frames[0]), frames[1..]);
    }
  }

  /** From opaque red, the colour of `InteractiveWindow`'s initialiser, every component stays in [0, 1]. */
  lemma FromInitialInRange(frames: seq<set<Key>>)
    ensures InRange(ColourFrames(Initial, frames))
  {
    FramesKeepRange(Initial, frames);
  }

  /** Without C, R, G and B never decrease and the alpha never increases. */
  lemma FrameMonotone(c: seq<real>, keys: set<Key>)
    requires |c| == 4 && InRange(c) && C !in keys
    ensures forall i :: 0 <= i < 3 ==> c[i] <= ColourFrame(c, keys)[i]
    ensures ColourFrame(c, keys)[3] <= c[3]
  {
  }

  /** Over a run of frames without C, R, G and B never decrease and the alpha never increases. */
  lemma {:induction false} FramesMonotone(c: seq<real>, frames: seq<set<Key>>)
    requires |c| == 4 && InRange(c)
    requires forall f :: 0 <= f < |frames| ==> C !in frames[f]
    ensures forall i :: 0 <= i < 3 ==> c[i] <= ColourFrames(c, frames)[i]
    ensures ColourFrames(c, frames)[3] <= c[3]
    decreases |frames|
  {
    if frames != [] {
      var next := ColourFrame(c, frames[0]);
      FrameMonotone(c, frames[0]);
      FrameKeepsRange(c, frames[0]);
      FramesMonotone(next, frames[1..]);
    }
  }

  /**
   * The total motion of a run of mouse events. The deltas are whole pixel
   * counts (`MouseMoveEventArgs.XDelta` is an `int`), so they are summed as
   * integers and converted once.
   */
  function IntSum(deltas: seq<int>): int
    decreases |deltas|
  {
    if deltas == [] then 0 else deltas[0] + IntSum(deltas[1..])
  }

  /**
   * A camera angle after a run of mouse moves, one event per delta: the angle
   * turns by 0.1 per pixel of total motion, however it is split into events.
   */
  function Turned(angle: real, deltas: seq<int>): (turned: real)
    ensures turned == angle + IntSum(deltas) as real * MouseSensitivity
    decreases |deltas|
  {
    if deltas == [] then angle else Turned(angle + deltas[0] as real * MouseSensitivity, deltas[1..])
  }

  // ---------------------------------------------------------------------------
  // The vertex file

  /** The vertex a line of the file holds: its first three space-separated fields. */
  function LineVertex(line: string, parse: string -> Option<real>): (v: Option<Vec3>)
    ensures v.Some? ==> 3 <= |Split(line, ' ')|
  {
    var parts := Split(line, ' ');
    if |parts| < 3 then None
    else
      var x, y, z := parse(parts[0]), parse(parts[1]), parse(parts[2]);
      if x.Some? && y.Some? && z.Some? then Some(Vec3(x.value, y.value, z.value)) else None
  }

  /**
   * How many of the three slots are filled before the load stops: it stops at
   * a missing line, a line with fewer than three fields or a field that does
   * not parse: where `lines[i]` throws `IndexOutOfRangeException`, `parts[k]`
   * throws `IndexOutOfRangeException` or `float.Parse` throws `FormatException`.
   */
  function LoadedFrom(lines: seq<string>, parse: string -> Option<real>, i: nat): (n: nat)
    requires i <= 3
    ensures i <= n <= 3
    decreases 3 - i
  {
    if i == 3 || |lines| <= i || LineVertex(lines[i], parse).None? then i
    else LoadedFrom(lines, parse, i + 1)
  }

  /** From slot i on, the load fills every slot exactly when lines i to 2 all hold a vertex. */
  lemma {:induction false} LoadedRestIff(lines: seq<string>, parse: string -> Option<real>, i: nat)
    requires i <= 3
    ensures LoadedFrom(lines, parse, i) == 3
        <==> forall j :: i <= j < 3 ==> j < |lines| && LineVertex(lines[j], parse).Some?
    decreases 3 - i
  {
    if i < 3 {
      if |lines| <= i || LineVertex(lines[i], parse).None? {
        // The load stops at slot i, and line i is the witness that not every line holds a vertex.
        assert LoadedFrom(lines, parse, i) == i;
        assert !(i < |lines| && LineVertex(lines[i], parse).Some?);
      } else {
        LoadedRestIff(lines, parse, i + 1);
        assert LoadedFrom(lines, parse, i) == LoadedFrom(lines, parse, i + 1);
      }
    }
  }

  /** The load fills every slot exactly when there are three lines and each holds a vertex. */
  lemma LoadedAllIff(lines: seq<string>, parse: string -> Option<real>)
    ensures LoadedFrom(lines, parse, 0) == 3
        <==> 3 <= |lines| && forall j :: 0 <= j < 3 ==> LineVertex(lines[j], parse).Some?
  {
    LoadedRestIff(lines, parse, 0);
  }

  /** Lines after the third are never read. */
  lemma {:induction false} LaterLinesIgnored(lines: seq<string>, extra: seq<string>, parse: string -> Option<real>, i: nat)
    requires 3 <= |lines| && i <= 3
    ensures LoadedFrom(lines + extra, parse, i) == LoadedFrom(lines, parse, i)
    decreases 3 - i
  {
    if i < 3 {
      assert (lines + extra)[i] == lines[i];
      LaterLinesIgnored(lines, extra, parse, i + 1);
    }
  }

  class InteractiveWindow {
    const vertices: array<Vec3>
    const color: array<real>
    var cameraAngleX: real
    var cameraAngleY: real

    ghost predicate Valid()
      reads this, color
    {
      vertices.Length == 3 && color.Length == 4 && InRange(color[..])
    }

    constructor ()
      ensures Valid() && fresh(vertices) && fresh(color)
      ensures color[..] == Initial && cameraAngleX == 0.0 && cameraAngleY == 0.0
    {
      vertices := new Vec3[3](_ => Zero);
      color := new real[4](i => if i == 0 || i == 3 then 1.0 else 0.0);
      cameraAngleX := 0.0;
      cameraAngleY := 0.0;
      new;
      assert color[..] == Initial;
    }

    /**
     * Fills `vertices[i]` from line i for i = 0, 1, 2, stopping at the first
     * line whose read throws (see `LoadedFrom`); slots before that point already hold their vertex.
     */
    method LoadTriangleVertices(lines: seq<string>, parse: string -> Option<real>) returns (loaded: nat)
      requires Valid()
      modifies vertices
      ensures loaded == LoadedFrom(lines, parse, 0)
      ensures forall j :: 0 <= j < loaded ==> LineVertex(lines[j], parse) == Some(vertices[j])
      ensures forall j :: loaded <= j < 3 ==> vertices[j] == old(vertices[j])
    {
      loaded := 0;
      while loaded < 3
        invariant 0 <= loaded <= 3
        invariant LoadedFrom(lines, parse, 0) == LoadedFrom(lines, parse, loaded)
        invariant forall j :: 0 <= j < loaded ==> j < |lines| && LineVertex(lines[j], parse) == Some(vertices[j])
        invariant forall j :: loaded <= j < 3 ==> vertices[j] == old(vertices[j])
      {
        if |lines| <= loaded {
          return;
        }
        var parts := Split(lines[loaded], ' ');
        if |parts| < 3 {
          return;
        }
        var x := parse(parts[0]);
        var y := parse(parts[1]);
        var z := parse(parts[2]);
        if x.None? || y.None? || z.None? {
          return;
        }
        var vertex := Vec3(x.value, y.value, z.value);
        assert LineVertex(lines[loaded], parse) == Some(vertex);
        vertices[loaded] := vertex;
        loaded := loaded + 1;
      }
    }

    /** One frame of the colour keys. */
    method OnUpdateFrame(keys: set<Key>)
      requires Valid()
      modifies color
      ensures Valid()
      ensures color[..] == ColourFrame(old(color[..]), keys)
    {
      ghost var c := color[..];
      if R in keys { color[0] := Min(1.0, color[0] + Step); }
      c := if R in keys then c[0 := Bump(c[0])] else c;
      assert color[..] == c;
      if G in keys { color[1] := Min(1.0, color[1] + Step); }
      c := if G in keys then c[1 := Bump(c[1])] else c;
      assert color[..] == c;
      if B in keys { color[2] := Min(1.0, color[2] + Step); }
      c := if B in keys then c[2 := Bump(c[2])] else c;
      assert color[..] == c;
      if A in keys { color[3] := Max(0.0, color[3] - Step); }
      c := if A in keys then c[3 := Fade(c[3])] else c;
      assert color[..] == c;
      if C in keys {
        color[0] := 1.0;
        color[1] := 0.0;
        color[2] := 0.0;
        color[3] := 1.0;
      }
      FrameKeepsRange(old(color[..]), keys);
    }

    /** A mouse move turns the camera by 0.1 per pixel on each axis. */
    method OnMouseMove(xDelta: int, yDelta: int)
      modifies this
      ensures cameraAngleX == Turned(old(cameraAngleX), [xDelta])
      ensures cameraAngleY == Turned(old(cameraAngleY), [yDelta])
    {
      cameraAngleX := cameraAngleX + xDelta as real * MouseSensitivity;
      cameraAngleY := cameraAngleY + yDelta as real * MouseSensitivity;
    }
  }
}
