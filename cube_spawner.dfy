/**
 * The "3D Cube Spawner" demo: a growable list of cubes that fall under a
 * constant speed until they reach the ground plane Y = 0. Left click spawns a
 * cube at a random spot above the ground, right click clears the list, `G`
 * switches gravity off and on, `B` picks a random background colour and
 * W/A/S/D move the camera.
 */
module CubeSpawner {
  import opened Geometry
  import opened Input
  import opened Randomness

  /** The gravity value the `G` key switches between it and 0 (`9.8f`). */
  const Gravity: real := 9.8
  /** How far one frame of a held W/A/S/D key moves the camera. */
  const CameraSpeed: real := 0.5

  // ---------------------------------------------------------------------------
  // Falling

  /**
   * Where a cube at `p` is after one frame of `deltaTime` seconds: a cube above
   * the ground drops by `deltaTime * gravity` and is stopped at the ground; a
   * cube on (or below) the ground does not move.
   */
  function Fall(p: Vec3, deltaTime: real, gravity: real): (q: Vec3)
    ensures q.x == p.x && q.z == p.z
    ensures p.y <= 0.0 ==> q == p
    ensures p.y > 0.0 ==> q.y == Max(0.0, p.y - deltaTime * gravity) && q.y >= 0.0
    ensures gravity == 0.0 ==> q == p
    ensures deltaTime * gravity >= 0.0 ==> q.y <= p.y
  {
    var dropped := p.y - deltaTime * gravity;
    if p.y <= 0.0 then p
    else if dropped < 0.0 then Vec3(p.x, 0.0, p.z)
    else Vec3(p.x, dropped, p.z)
  }

  /** Where a cube at `p` is after one frame for each entry of `deltaTimes`. */
  function FallFrames(p: Vec3, deltaTimes: seq<real>, gravity: real): (q: Vec3)
    ensures q.x == p.x && q.z == p.z
    decreases |deltaTimes|
  {
    if deltaTimes == [] then p else FallFrames(Fall(p, deltaTimes[0], gravity), deltaTimes[1..], gravity)
  }

  /** How far gravity would carry a cube over the given frames, were there no ground. */
  function TotalDrop(deltaTimes: seq<real>, gravity: real): real
    decreases |deltaTimes|
  {
    if deltaTimes == [] then 0.0 else deltaTimes[0] * gravity + TotalDrop(deltaTimes[1..], gravity)
  }

  /** The drop over several frames is the total time times gravity. */
  lemma {:induction false} TotalDropIsProduct(deltaTimes: seq<real>, gravity: real)
    ensures TotalDrop(deltaTimes, gravity) == Sum(deltaTimes) * gravity
    decreases |deltaTimes|
  {
    if deltaTimes != [] {
      TotalDropIsProduct(deltaTimes[1..], gravity);
      Distribute(deltaTimes[0], Sum(deltaTimes[1..]), gravity);
    }
  }

  lemma Distribute(a: real, b: real, g: real)
    ensures (a + b) * g == a * g + b * g
  {
  }

  /** Frames of non-negative length under non-negative gravity never lift a cube. */
  lemma {:induction false} TotalDropNonNegative(deltaTimes: seq<real>, gravity: real)
    requires gravity >= 0.0
    requires forall i :: 0 <= i < |deltaTimes| ==> deltaTimes[i] >= 0.0
    ensures TotalDrop(deltaTimes, gravity) >= 0.0
    decreases |deltaTimes|
  {
    if deltaTimes != [] {
      TotalDropNonNegative(deltaTimes[1..], gravity);
      ProductNonNegative(deltaTimes[0], gravity);
    }
  }

  lemma ProductNonNegative(a: real, g: real)
    requires a >= 0.0 && g >= 0.0
    ensures a * g >= 0.0
  {
  }

  /** Two clamped drops in a row are one clamped drop by their sum, when the second drop is not negative. */
  lemma ClampCompose(y: real, first: real, second: real)
    requires y > 0.0 && second >= 0.0
    ensures var y1 := Max(0.0, y - first);
      (if y1 > 0.0 then Max(0.0, y1 - second) else y1) == Max(0.0, y - (first + second))
  {
  }

  /**
   * Over frames of non-negative length with a non-negative gravity, a cube
   * above the ground ends at `max(0, y - drop)`, the drop being the total
   * time times gravity: landing early loses nothing and it never sinks below
   * the ground; X and Z never change.
   */
  lemma {:induction false} FallFramesClosedForm(p: Vec3, deltaTimes: seq<real>, gravity: real)
    requires gravity >= 0.0
    requires forall i :: 0 <= i < |deltaTimes| ==> deltaTimes[i] >= 0.0
    ensures FallFrames(p, deltaTimes, gravity)
         == if p.y > 0.0 then Vec3(p.x, Max(0.0, p.y - Sum(deltaTimes) * gravity), p.z) else p
  {
    FallFramesDrop(p, deltaTimes, gravity);
    TotalDropIsProduct(deltaTimes, gravity);
  }

  lemma {:induction false} FallFramesDrop(p: Vec3, deltaTimes: seq<real>, gravity: real)
    requires gravity >= 0.0
    requires forall i :: 0 <= i < |deltaTimes| ==> deltaTimes[i] >= 0.0
    ensures FallFrames(p, deltaTimes, gravity)
         == if p.y > 0.0 then Vec3(p.x, Max(0.0, p.y - TotalDrop(deltaTimes, gravity)), p.z) else p
    decreases |deltaTimes|
  {
    if deltaTimes != [] {
      var dt, rest := deltaTimes[0], deltaTimes[1..];
      var p1 := Fall(p, dt, gravity);
      assert FallFrames(p, deltaTimes, gravity) == FallFrames(p1, rest, gravity);
      FallFramesDrop(p1, rest, gravity);
      if p.y > 0.0 {
        TotalDropNonNegative(rest, gravity);
        ClampCompose(p.y, dt * gravity, TotalDrop(rest, gravity));
      }
    }
  }

  /** Once on the ground, a cube stays exactly where it is, whatever the frames. */
  lemma {:induction false} GroundedStays(p: Vec3, deltaTimes: seq<real>, gravity: real)
    requires p.y <= 0.0
    ensures FallFrames(p, deltaTimes, gravity) == p
    decreases |deltaTimes|
  {
    if deltaTimes != [] {
      GroundedStays(Fall(p, deltaTimes[0], gravity), deltaTimes[1..], gravity);
    }
  }

  /** Any number of frames keeps a cube that starts at or above the ground at or above it. */
  lemma {:induction false} FallFramesAboveGround(p: Vec3, deltaTimes: seq<real>, gravity: real)
    requires p.y >= 0.0
    ensures FallFrames(p, deltaTimes, gravity).y >= 0.0
    ensures FallFrames(p, deltaTimes, gravity).x == p.x && FallFrames(p, deltaTimes, gravity).z == p.z
    decreases |deltaTimes|
  {
    if deltaTimes != [] {
      FallFramesAboveGround(Fall(p, deltaTimes[0], gravity), deltaTimes[1..], gravity);
    }
  }

  // ---------------------------------------------------------------------------
  // Gravity toggle and camera

  /** The `G` key: 9.8 becomes 0 and every other value becomes 9.8. */
  function ToggledGravity(gravity: real): (g: real)
    ensures g == 0.0 || g == Gravity
    ensures gravity == Gravity ==> g == 0.0
    ensures gravity == 0.0 ==> g == Gravity
  {
    if gravity == Gravity then 0.0 else Gravity
  }

  /** Toggling twice gives back either of the two gravity values. */
  lemma ToggleTwice(gravity: real)
    requires gravity == 0.0 || gravity == Gravity
    ensures ToggledGravity(ToggledGravity(gravity)) == gravity
  {
  }

  /** The camera after one frame: W/S move it along X, A/D along Z, each by `CameraSpeed`. */
  function CameraStep(p: Vec3, keys: set<Key>): (q: Vec3)
    ensures q.y == p.y
    ensures q.x == p.x + (if S in keys then CameraSpeed else 0.0) - (if W in keys then CameraSpeed else 0.0)
    ensures q.z == p.z + (if A in keys then CameraSpeed else 0.0) - (if D in keys then CameraSpeed else 0.0)
  {
    var x1 := if W in keys then p.x - CameraSpeed else p.x;
    var x2 := if S in keys then x1 + CameraSpeed else x1;
    var z1 := if A in keys then p.z + CameraSpeed else p.z;
    var z2 := if D in keys then z1 - CameraSpeed else z1;
    Vec3(x2, p.y, z2)
  }

  /** Opposite keys held together cancel out. */
  lemma OppositeKeysCancel(p: Vec3, keys: set<Key>)
    requires (W in keys <==> S in keys) && (A in keys <==> D in keys)
    ensures CameraStep(p, keys) == p
  {
  }

  // ---------------------------------------------------------------------------
  // Spawning

  /** Where a cube spawns, from three `NextDouble` draws. */
  function SpawnPosition(u0: real, u1: real, u2: real): (p: Vec3)
    ensures 0.0 <= u0 < 1.0 ==> 0.0 <= p.x < 1.0
    ensures 0.0 <= u1 < 1.0 ==> 3.0 <= p.y < 6.0
    ensures 0.0 <= u2 < 1.0 ==> 0.0 <= p.z < 1.0
  {
    Vec3(u0 * 1.0, u1 * 3.0 + 3.0, u2 * 1.0)
  }

  /** The edge length of a spawned cube, from one `NextDouble` draw. */
  function SpawnSize(u: real): (size: real)
    ensures 0.0 <= u < 1.0 ==> 0.5 <= size < 1.0
  {
    u * 0.5 + 0.5
  }

  /** How many cubes a sequence of mouse clicks leaves, starting from `n`. */
  function CubesAfterClicks(n: nat, buttons: seq<MouseButton>): (count: nat)
    ensures count <= n + |buttons|
    ensures Right !in buttons ==> n <= count
    decreases |buttons|
  {
    if buttons == [] then n
    else
      var m := match buttons[0] case Left => n + 1 case Right => 0 case Other => n;
      CubesAfterClicks(m, buttons[1..])
  }

  /** A right click followed by k left clicks leaves exactly k cubes, whatever came before. */
  lemma {:induction false} ClearThenSpawn(n: nat, k: nat)
    ensures CubesAfterClicks(n, [Right] + seq(k, _ => Left)) == k
  {
    SpawnCount(0, k);
    assert ([Right] + seq(k, _ => Left))[1..] == seq(k, _ => Left);
  }

  /** k left clicks add exactly k cubes. */
  lemma {:induction false} SpawnCount(n: nat, k: nat)
    ensures CubesAfterClicks(n, seq(k, _ => Left)) == n + k
    decreases k
  {
    if k > 0 {
      SpawnCount(n + 1, k - 1);
      assert seq(k, _ => Left)[1..] == seq(k - 1, _ => Left);
    }
  }

  // ---------------------------------------------------------------------------
  // The objects

  class Cube {
    var position: Vec3
    const size: real
    const color: Color4

    constructor (position: Vec3, size: real, color: Color4)
      ensures this.position == position && this.size == size && this.color == color
    {
      this.position := position;
      this.size := size;
      this.color := color;
    }

    /** One frame of falling; size and colour are constants and cannot change. */
    method Update(deltaTime: real, gravity: real)
      modifies this
      ensures position == Fall(old(position), deltaTime, gravity)
    {
      if position.y > 0.0 {
        position := Vec3(position.x - 0.0, position.y - deltaTime * gravity, position.z - 0.0);
        if position.y < 0.0 {
          position := Vec3(position.x, 0.0, position.z);
        }
      }
    }
  }

  class Game {
    var cubes: seq<Cube>
    const random: Rng
    var isGridVisible: bool
    var backgroundColor: Color4
    var cameraPosition: Vec3
    var gravity: real

    /**
     * The scene invariant: the list never holds the same cube twice, every cube
     * is at or above the ground, and gravity is one of its two values.
     */
    ghost predicate Valid()
      reads this, cubes
    {
      && random.Valid()
      && (forall i, j :: 0 <= i < j < |cubes| ==> cubes[i] != cubes[j])
      && (forall i :: 0 <= i < |cubes| ==> cubes[i].position.y >= 0.0)
      && (gravity == 0.0 || gravity == Gravity)
    }

    constructor (stream: nat -> real)
      requires forall n: nat :: 0.0 <= stream(n) < 1.0
      ensures Valid() && fresh(random)
      ensures random.stream == stream && random.drawn == 0
      ensures cubes == [] && isGridVisible && backgroundColor == CornflowerBlue
      ensures cameraPosition == Vec3(5.0, 5.0, 5.0) && gravity == Gravity
    {
      random := new Rng(stream);
      cubes := [];
      isGridVisible := true;
      backgroundColor := CornflowerBlue;
      cameraPosition := Vec3(5.0, 5.0, 5.0);
      gravity := Gravity;
    }

    /**
     * Left click: seven draws, in argument order, give the position, the size
     * and the colour (alpha 1) of one new cube appended at the end.
     */
    method SpawnCube()
      requires Valid()
      modifies this, random
      ensures Valid()
      ensures |cubes| == |old(cubes)| + 1 && cubes[..|old(cubes)|] == old(cubes)
      ensures var c, k, u := cubes[|cubes| - 1], old(random.drawn), random.stream;
        && fresh(c)
        && c.position == SpawnPosition(u(k), u(k + 1), u(k + 2))
        && c.size == SpawnSize(u(k + 3))
        && c.color == Color4(u(k + 4), u(k + 5), u(k + 6), 1.0)
        && random.drawn == k + 7
      ensures isGridVisible == old(isGridVisible) && backgroundColor == old(backgroundColor)
      ensures cameraPosition == old(cameraPosition) && gravity == old(gravity)
    {
      // The draws in the order C# evaluates the constructor's arguments.
      var u := random.NextDoubles(7);
      var newCube := new Cube(Vec3(u[0] * 1.0, u[1] * 3.0 + 3.0, u[2] * 1.0), u[3] * 0.5 + 0.5, Color4(u[4], u[5], u[6], 1.0));
      cubes := cubes + [newCube];
    }

    /** Right click: the list becomes empty (so clearing twice is clearing once). */
    method ClearCubes()
      requires Valid()
      modifies this
      ensures Valid() && cubes == []
      ensures isGridVisible == old(isGridVisible) && backgroundColor == old(backgroundColor)
      ensures cameraPosition == old(cameraPosition) && gravity == old(gravity)
    {
      cubes := [];
    }

    method OnMouseDown(button: MouseButton)
      requires Valid()
      modifies this, random
      ensures Valid()
      ensures |cubes| == CubesAfterClicks(|old(cubes)|, [button])
      ensures button == Left ==>
        && |cubes| == |old(cubes)| + 1 && cubes[..|old(cubes)|] == old(cubes)
        && var c, k, u := cubes[|cubes| - 1], old(random.drawn), random.stream;
        && fresh(c)
        && c.position == SpawnPosition(u(k), u(k + 1), u(k + 2))
        && c.size == SpawnSize(u(k + 3))
        && c.color == Color4(u(k + 4), u(k + 5), u(k + 6), 1.0)
        && random.drawn == k + 7
      ensures button != Left ==> random.drawn == old(random.drawn)
      ensures button == Right ==> cubes == []
      ensures button == Other ==> cubes == old(cubes)
      ensures isGridVisible == old(isGridVisible) && backgroundColor == old(backgroundColor)
      ensures cameraPosition == old(cameraPosition) && gravity == old(gravity)
    {
      if button == Left {
        SpawnCube();
      } else if button == Right {
        ClearCubes();
      }
    }

    /** The host delivering a run of mouse clicks, one `OnMouseDown` each, in order. */
    method OnMouseDowns(buttons: seq<MouseButton>)
      requires Valid()
      modifies this, random
      ensures Valid()
      ensures |cubes| == CubesAfterClicks(|old(cubes)|, buttons)
      ensures Right !in buttons ==> |old(cubes)| <= |cubes| && cubes[..|old(cubes)|] == old(cubes)
      ensures isGridVisible == old(isGridVisible) && backgroundColor == old(backgroundColor)
      ensures cameraPosition == old(cameraPosition) && gravity == old(gravity)
    {
      var i := 0;
      while i < |buttons|
        invariant 0 <= i <= |buttons| && Valid()
        invariant CubesAfterClicks(|cubes|, buttons[i..]) == CubesAfterClicks(|old(cubes)|, buttons)
        invariant Right !in buttons[..i] ==> |old(cubes)| <= |cubes| && cubes[..|old(cubes)|] == old(cubes)
        invariant isGridVisible == old(isGridVisible) && backgroundColor == old(backgroundColor)
        invariant cameraPosition == old(cameraPosition) && gravity == old(gravity)
      {
        assert buttons[..i + 1] == buttons[..i] + [buttons[i]];
        assert buttons[i..][1..] == buttons[i + 1..];
        OnMouseDown(buttons[i]);
        i := i + 1;
      }
    }

    /** `B`: three draws give the new background colour, alpha 1. */
    method ChangeBackgroundColor()
      requires random.Valid()
      modifies this, random
      ensures random.Valid()
      ensures backgroundColor
           == Color4(random.stream(old(random.drawn)), random.stream(old(random.drawn) + 1),
                     random.stream(old(random.drawn) + 2), 1.0)
      ensures random.drawn == old(random.drawn) + 3
      ensures cubes == old(cubes) && isGridVisible == old(isGridVisible)
      ensures cameraPosition == old(cameraPosition) && gravity == old(gravity)
    {
      var u := random.NextDoubles(3);
      backgroundColor := Color4(u[0], u[1], u[2], 1.0);
    }

    /** The `foreach` of a frame: every cube falls for `deltaTime` under the current gravity. */
    method UpdateCubes(deltaTime: real)
      requires Valid()
      modifies cubes
      ensures Valid()
      ensures forall i :: 0 <= i < |cubes| ==>
        cubes[i].position == Fall(old(cubes[i].position), deltaTime, gravity)
    {
      var i := 0;
      while i < |cubes|
        invariant 0 <= i <= |cubes|
        invariant cubes == old(cubes)
        invariant forall k :: 0 <= k < i ==> cubes[k].position == Fall(old(cubes[k].position), deltaTime, gravity)
        invariant forall k :: i <= k < |cubes| ==> cubes[k].position == old(cubes[k].position)
      {
        cubes[i].Update(deltaTime, gravity);
        i := i + 1;
      }
    }

    /**
     * One frame: camera keys, then `B`, then `G`, then every cube falls for
     * `deltaTime` under the gravity as it is after this frame's toggle.
     */
    method OnUpdateFrame(keys: set<Key>, deltaTime: real)
      requires Valid()
      modifies this, cubes, random
      ensures Valid()
      ensures cameraPosition == CameraStep(old(cameraPosition), keys)
      ensures gravity == if G in keys then ToggledGravity(old(gravity)) else old(gravity)
      ensures B !in keys ==> backgroundColor == old(backgroundColor) && random.drawn == old(random.drawn)
      ensures B in keys ==>
        && backgroundColor
           == Color4(random.stream(old(random.drawn)), random.stream(old(random.drawn) + 1),
                     random.stream(old(random.drawn) + 2), 1.0)
        && random.drawn == old(random.drawn) + 3
      ensures cubes == old(cubes) && isGridVisible == old(isGridVisible)
      ensures forall i :: 0 <= i < |cubes| ==>
        cubes[i].position == Fall(old(cubes[i].position), deltaTime, gravity)
    {
      cameraPosition := CameraStep(cameraPosition, keys);
      if B in keys {
        ChangeBackgroundColor();
      }
      if G in keys {
        gravity := ToggledGravity(gravity);
      }
      UpdateCubes(deltaTime);
    }
  }
}
