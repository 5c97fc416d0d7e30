# OpenTK demos: verified state-update models

This project models the non-rendering logic of three small C# OpenTK demos.
Each demo is a `GameWindow` whose fields change from frame to frame:

- **Cube spawner** (`tema_4`, module `CubeSpawner`).
  - A growable list of cubes.
  - A left click spawns a cube at a random spot above the ground. A right click clears the list.
  - Each frame, every cube falls by `deltaTime * gravity` and stops at the ground plane Y = 0.
  - `G` switches gravity between 9.8 and 0. `B` draws a random background colour. W/A/S/D move the camera.
- **Colour-manipulation cube** (`tema_5`, module `ColorCube`).
  - One cube whose vertices and vertex colours come from a comma-separated file.
  - When the file is missing, it is first created with eight default lines.
  - Held R/G/B/V/T keys paint every vertex one colour. C restores the colours read at load time. W/A/S/D/Q/E move the camera.
- **Triangle colour controller** (`OpenGL_conn_ImmediateMode`, module `TriangleViewer`).
  - A four-slot RGBA array. R/G/B raise a component by 0.01, clamped at 1. A lowers the alpha by 0.01, clamped at 0. C restores opaque red.
  - The three triangle vertices come from the first three lines of a space-separated file.
  - The camera angles accumulate 0.1 per pixel of mouse motion.

The objects are Dafny classes with the fields of the C# classes:

- `Game`, `Cube` and `InteractiveWindow` keep their names.
- A C# `List<Color4>` is a `ColorList` class, so the difference between an alias and a copy stays visible. `new List<Color4>(colors)` is `ColorList.Copy`.
- The triangle's vertex and colour buffers are Dafny `array`s.

Each method is specified by a function over its inputs or old state. The lemmas beside it prove what the demo promises: the ground clamp, the colour range, the loader's filter and the reset-after-paint round trip.

Some things become parameters rather than being modelled:

- Floating-point numbers are `real`.
- `float.Parse` is a parameter `parse: string -> Option<real>`. `None` stands for a string it rejects.
- `System.Random` is an `Rng` object over a fixed stream of values in [0, 1), with a counter of values drawn.
- A file is its `seq<string>` of lines. A missing file is `None`.
- The keyboard state of a frame is the `set<Key>` of keys held.
- `String.Split(char)` is `Text.Split`, with the C# behaviour: n separators give n + 1 parts, empty parts included.

Shared modules:

- `Wrappers`: `Option`.
- `Geometry`: `Vec3`, `Color4`, `Min`, `Max`, `Sum`.
- `Input`: keys and mouse buttons.
- `Randomness`: `Rng`.
- `Text`: `Split`, `Join`.

## Model

| member | source | states |
|---|---|---|
| CubeSpawner.FallFrames | tema_4/Program.cs:217-227 | where a cube is after one `Update` per frame time, in order; X and Z never change, whatever the frames |
| CubeSpawner.Fall | tema_4/Program.cs:217-227 | one frame of falling: X and Z never change; a cube with Y ≤ 0 is unchanged; a cube above ground ends at max(0, Y − dt·gravity), never below 0; zero gravity is the identity; a non-negative drop never raises the cube |
| CubeSpawner.Cube.constructor | tema_4/Program.cs:210-215 | a new cube holds exactly the given position, edge length and colour |
| CubeSpawner.Cube.Update | tema_4/Program.cs:217-227 | the cube's new position is `Fall` of its old one; size and colour are constants and cannot change |
| CubeSpawner.FallFramesClosedForm | tema_4/Program.cs:217-227 | over any run of frames with non-negative times and gravity, a cube above ground ends at max(0, Y − total time·gravity) with the same X and Z, and a grounded cube stays put |
| CubeSpawner.GroundedStays | tema_4/Program.cs:219-226 | a cube at or below the ground never moves again, whatever the frames and gravity |
| CubeSpawner.FallFramesAboveGround | tema_4/Program.cs:219-226 | a cube that starts at or above the ground stays at or above it over any run of frames, and keeps its X and Z |
| CubeSpawner.TotalDropIsProduct | tema_4/Program.cs:221 | the per-frame drops add up to the total time times gravity |
| CubeSpawner.ToggledGravity | tema_4/Program.cs:73-76 | the G toggle maps 9.8 to 0 and 0 to 9.8, and any value to 0 or 9.8 |
| CubeSpawner.ToggleTwice | tema_4/Program.cs:75 | toggling twice is the identity on the two gravity values |
| CubeSpawner.CameraStep | tema_4/Program.cs:62-65 | W/S change only X (−/+ 0.5), A/D change only Z (+/− 0.5); Y never changes |
| CubeSpawner.OppositeKeysCancel | tema_4/Program.cs:62-65 | holding both or neither of each opposite pair leaves the camera where it was |
| CubeSpawner.SpawnPosition | tema_4/Program.cs:103-107 | draws in [0, 1) put a spawned cube at X, Z in [0, 1) and Y in [3, 6) |
| CubeSpawner.SpawnSize | tema_4/Program.cs:108 | a draw in [0, 1) gives an edge length in [0.5, 1) |
| CubeSpawner.CubesAfterClicks | tema_4/Program.cs:86-98 | the cube count after a run of clicks (left adds one, right empties, others change nothing); it grows by at most one per click, and never shrinks without a right click |
| CubeSpawner.SpawnCount | tema_4/Program.cs:90-93 | k left clicks add exactly k cubes |
| CubeSpawner.ClearThenSpawn | tema_4/Program.cs:86-98 | a right click followed by k left clicks leaves exactly k cubes, whatever was there before |
| CubeSpawner.Game.constructor | tema_4/Program.cs:12-19 | the initial scene: no cubes, grid visible, cornflower-blue background, camera at (5, 5, 5), gravity 9.8 |
| CubeSpawner.Game.SpawnCube | tema_4/Program.cs:100-117 | appends exactly one fresh cube and keeps the earlier ones; seven draws in argument order give its position, size and colour (alpha 1); nothing else changes; the scene invariant (distinct cubes, all at or above ground, gravity 0 or 9.8) is kept |
| CubeSpawner.Game.ClearCubes | tema_4/Program.cs:119-123 | the list becomes empty and nothing else changes |
| CubeSpawner.Game.OnMouseDown | tema_4/Program.cs:86-98 | a left click appends one fresh cube whose position, size and colour (alpha 1) come from the next seven draws, as in `SpawnCube`; a right click clears the list; any other button leaves the list as it was; only a left click draws random values; the other fields never change |
| CubeSpawner.Game.OnMouseDowns | tema_4/Program.cs:86-98 | after a run of clicks the cube count is the one `CubesAfterClicks` gives, and the scene invariant holds; without a right click in the run the earlier cubes stay in their places as a prefix; grid, background, camera and gravity keep their values |
| CubeSpawner.Game.ChangeBackgroundColor | tema_4/Program.cs:125-130 | the background becomes the next three draws with alpha 1, and nothing else changes |
| CubeSpawner.Game.UpdateCubes | tema_4/Program.cs:79-83 | every cube in the list falls by `Fall` with the same dt and gravity; the list itself is unchanged |
| CubeSpawner.Game.OnUpdateFrame | tema_4/Program.cs:56-84 | one frame: the camera moves by `CameraStep`; a held G toggles gravity once; a held B sets the background to the next three draws with alpha 1, and without B neither the background nor the draw counter changes; the list stays the same and every cube falls under the gravity as it is after the toggle |
| Randomness.Rng.NextDouble | tema_4/Program.cs:104 | returns the next value of the stream, in [0, 1), and advances the counter by one |
| Randomness.Rng.NextDoubles | tema_4/Program.cs:102-114 | n consecutive draws in call order, each in [0, 1); the counter advances by n |
| Text.Split | tema_5/Program.cs:69 | `String.Split(char)` always returns at least one part |
| Text.SplitCount | tema_5/Program.cs:69-70 | the number of parts is one more than the number of separators |
| Text.SplitPartsHaveNoSeparator | tema_5/Program.cs:69 | no part contains the separator |
| Text.JoinSplit | tema_5/Program.cs:69 | joining the parts with the separator gives back the line |
| Text.SplitJoin | tema_5/Program.cs:69 | splitting a join of separator-free fields gives back the fields |
| ColorCube.EnsureFileExists | tema_5/Program.cs:42-60 | the lines the loader then reads: an existing file unchanged, a missing one replaced by the eight default lines |
| ColorCube.RecordHasFiveCommas | tema_5/Program.cs:69-70 | a line is kept exactly when it holds five commas |
| ColorCube.ShortLineIsNotRecord | tema_5/Program.cs:69-70 | a three-field line such as "1,2,3" is skipped |
| ColorCube.IsRecord | tema_5/Program.cs:69-70 | the loader's test that a line splits on commas into exactly six fields; `RecordHasFiveCommas` gives its meaning |
| ColorCube.RecordLines | tema_5/Program.cs:67-70 | the lines the loader keeps, in file order; never more than the file holds |
| ColorCube.ParseRecord | tema_5/Program.cs:72-75 | a six-field line parses exactly when all six fields parse, and its colour has alpha 1 |
| ColorCube.RecordLinesAreRecords | tema_5/Program.cs:69-70 | every line the loader keeps splits into exactly six fields |
| ColorCube.MalformedLineSkipped | tema_5/Program.cs:69-70 | appending a line that is not six fields changes neither the loaded data nor the kept lines |
| ColorCube.LoadLine | tema_5/Program.cs:69-78 | one iteration of the `foreach`: nothing survives an earlier failure, and a line that is not six fields leaves the data as it was |
| ColorCube.LoadLineAppends | tema_5/Program.cs:70-78 | a six-field line that parses appends exactly one vertex and one colour and keeps everything loaded before it |
| ColorCube.LoadLines | tema_5/Program.cs:64-82 | what the loop builds from the file's lines: `None` when `float.Parse` throws; otherwise index-aligned lists of equal length, no longer than the file |
| ColorCube.LoadNext | tema_5/Program.cs:67-82 | loading the first i + 1 lines is one loop step on the result for the first i lines |
| ColorCube.LoadLinesFromRecords | tema_5/Program.cs:64-82 | the load succeeds exactly when every kept line parses; then both lists have as many entries as there are kept lines, and entry k is the vertex and colour of the k-th kept line, in file order |
| ColorCube.LoadedColoursOpaque | tema_5/Program.cs:75 | every colour a successful load yields has alpha 1 |
| ColorCube.LoadAborts | tema_5/Program.cs:72-75 | a kept line with a field `float.Parse` rejects makes the whole load fail |
| ColorCube.DefaultLine | tema_5/Program.cs:48-55 | default line k splits into its six literal fields, which parse to default vertex k and colour k |
| ColorCube.DefaultLoad | tema_5/Program.cs:42-59 | with the file missing, the loader reads the eight default lines and yields exactly the eight literal vertices and colours (alpha 1), given a `parse` that reads the numerals 0.5, −0.5, 1.0 and 0.0 |
| ColorCube.DrawableIffEight | tema_5/Program.cs:194-238 | every index that `Draw` passes to `DrawFace` lies within both lists exactly when at least eight vertices and eight colours were loaded |
| ColorCube.Uniform | tema_5/Program.cs:178-184 | the painted list has the old length and every entry is the colour |
| ColorCube.ResetColors | tema_5/Program.cs:186-192 | the first count-of-snapshot entries come from the snapshot, the rest are untouched, and the length is kept |
| ColorCube.ResetAfterChanges | tema_5/Program.cs:186-192 | after any sequence of uniform paints, a reset from the load-time snapshot restores it exactly |
| ColorCube.PaintColours | tema_5/Program.cs:94-103 | the colour keys of a frame keep the number of colours |
| ColorCube.FrameColours | tema_5/Program.cs:94-105 | cube 0's colours after one frame's colour keys and C: the number of colours never changes, and after a reset the first entries are exactly the snapshot |
| ColorCube.FrameWithoutReset | tema_5/Program.cs:94-105 | without a reset, a frame leaves cube 0 in the colour of the last held key of R, G, B, V, T, or unchanged when none is held |
| ColorCube.FrameWithReset | tema_5/Program.cs:104-105 | with C held and a snapshot of matching length, the frame ends on the snapshot, whatever colour keys were also held |
| ColorCube.CameraStep | tema_5/Program.cs:107-113 | W/S move the camera along Z (−/+ 0.05), A/D along X (−/+), Q/E along Y (+/−) |
| ColorCube.ColorList.constructor | tema_5/Program.cs:65 | `new List<Color4>()` is a list with no entries |
| ColorCube.ColorList.Set | tema_5/Program.cs:182 | writing entry i replaces that entry only; the length and every other entry stay as they were |
| ColorCube.ColorList.Copy | tema_5/Program.cs:84 | the copy holds the same entries as the list it copies |
| ColorCube.ColorList.Add | tema_5/Program.cs:78 | the colour is appended at the end |
| ColorCube.Cube.constructor | tema_5/Program.cs:172-176 | the cube keeps the vertices and the very colour list object it is given, not a copy, so later writes through either name are seen by both |
| ColorCube.Cube.ChangeColor | tema_5/Program.cs:178-184 | every entry of the cube's colour list becomes the colour; the length and the vertices stay as they were |
| ColorCube.Cube.ResetColor | tema_5/Program.cs:186-192 | the colour list becomes `ResetColors` of its old self and the snapshot, and the snapshot is not changed, even though it is read while the list is written |
| ColorCube.Game.constructor | tema_5/Program.cs:13-20 | the initial state: no cubes, no snapshot, nothing changed, camera at (0, 0, 5) |
| ColorCube.ReadRecords | tema_5/Program.cs:64-82 | the read loop: a fresh colour list; it succeeds exactly when `LoadLines` does, and then holds exactly the vertices and colours `LoadLines` gives |
| ColorCube.Game.LoadCubeData | tema_5/Program.cs:62-87 | succeeds exactly when the loader function succeeds; on failure nothing changes; on success one fresh cube is appended holding the loaded vertices and a fresh colour list with the loaded colours, plus a fresh snapshot list with the same colours; no two cubes and no cube and the snapshot share a list |
| ColorCube.Game.OnLoad | tema_5/Program.cs:27-40 | the lines read are the file, or the default lines when it is missing, and the load is `LoadCubeData` of them |
| ColorCube.Game.GetRandomColor | tema_5/Program.cs:116-119 | the next three draws with alpha 1 |
| ColorCube.Game.ChangeCubeColor | tema_5/Program.cs:121-129 | an index past the end changes nothing; otherwise only that cube's colours are painted and `colorChanged` is set; other cubes and the snapshot are untouched |
| ColorCube.Game.ResetCubeColor | tema_5/Program.cs:131-138 | an index past the end or a missing snapshot changes nothing; otherwise that cube's colours are reset from the snapshot, which is not changed |
| ColorCube.Game.PaintIfHeld | tema_5/Program.cs:94-103 | one colour-key line of the frame: cube 0 is painted when the key is held and a cube exists |
| ColorCube.Game.PaintKeys | tema_5/Program.cs:94-103 | cube 0's colours are `PaintColours` of the old ones; three values are drawn exactly when V is held; `colorChanged` is set when a cube exists and a colour key is held |
| ColorCube.Game.OnUpdateFrame | tema_5/Program.cs:89-114 | one frame: cube 0's colours become `FrameColours` of the old colours and the old snapshot; the camera moves by `CameraStep`; three draws happen exactly when V is held |
| ColorCube.PaintThenReset | tema_5/Program.cs:121-138 | any run of paints on cube 0 followed by a reset leaves it equal to the load-time snapshot, which itself never changes |
| Geometry.Min | OpenGL_conn_ImmediateMode/Program.cs:45-47 | `Math.Min`: the result is at most both arguments and equals one of them |
| Geometry.Max | OpenGL_conn_ImmediateMode/Program.cs:48 | `Math.Max`: the result is at least both arguments and equals one of them |
| TriangleViewer.Bump | OpenGL_conn_ImmediateMode/Program.cs:45-47 | a raised component never exceeds 1, never drops, and stays non-negative |
| TriangleViewer.Fade | OpenGL_conn_ImmediateMode/Program.cs:48 | a lowered alpha never drops below 0, never rises, and stays at most 1 |
| TriangleViewer.ColourFrame | OpenGL_conn_ImmediateMode/Program.cs:45-54 | the colour after one frame: still four components, and without C a component changes only when its own key (R, G, B, or A for the alpha) is held |
| TriangleViewer.StepsRespectBounds | OpenGL_conn_ImmediateMode/Program.cs:45-48 | a component a frame raises is at most 1, and an alpha it lowers is at least 0 |
| TriangleViewer.ResetIsInitial | OpenGL_conn_ImmediateMode/Program.cs:51-54 | with C held, the colour is exactly (1, 0, 0, 1), whatever it was and whatever else is held |
| TriangleViewer.FrameKeepsRange | OpenGL_conn_ImmediateMode/Program.cs:45-54 | one frame keeps every component in [0, 1] |
| TriangleViewer.FramesKeepRange | OpenGL_conn_ImmediateMode/Program.cs:45-54 | any run of frames keeps every component in [0, 1] |
| TriangleViewer.FromInitialInRange | OpenGL_conn_ImmediateMode/Program.cs:11 | starting from (1, 0, 0, 1), every component stays in [0, 1] across any run of frames |
| TriangleViewer.FrameMonotone | OpenGL_conn_ImmediateMode/Program.cs:45-48 | without C, a frame never lowers R, G or B and never raises the alpha |
| TriangleViewer.FramesMonotone | OpenGL_conn_ImmediateMode/Program.cs:45-48 | over any run of frames without C, R, G and B never decrease and the alpha never increases |
| TriangleViewer.Turned | OpenGL_conn_ImmediateMode/Program.cs:62-63 | an angle after a run of mouse moves, one per delta: it has turned by 0.1 times the total motion, however that was split into events |
| TriangleViewer.LineVertex | OpenGL_conn_ImmediateMode/Program.cs:35-36 | a line yields a vertex only when it splits into at least three space-separated parts |
| TriangleViewer.LoadedFrom | OpenGL_conn_ImmediateMode/Program.cs:33-37 | the number of slots filled is between the starting slot and 3 |
| TriangleViewer.LoadedRestIff | OpenGL_conn_ImmediateMode/Program.cs:33-36 | from slot i on, every slot is filled exactly when lines i to 2 exist and each holds a vertex |
| TriangleViewer.LoadedAllIff | OpenGL_conn_ImmediateMode/Program.cs:32-37 | the load fills all three slots exactly when the file has at least three lines and each of the first three holds a vertex |
| TriangleViewer.LaterLinesIgnored | OpenGL_conn_ImmediateMode/Program.cs:33 | lines after the third are never read |
| TriangleViewer.InteractiveWindow.constructor | OpenGL_conn_ImmediateMode/Program.cs:10-13 | three vertex slots, colour (1, 0, 0, 1), both camera angles 0 |
| TriangleViewer.InteractiveWindow.LoadTriangleVertices | OpenGL_conn_ImmediateMode/Program.cs:30-38 | the number of slots filled is `LoadedFrom`; slot j below it holds the vertex of line j; the slots from there on are untouched |
| TriangleViewer.InteractiveWindow.OnUpdateFrame | OpenGL_conn_ImmediateMode/Program.cs:40-55 | the colour array becomes `ColourFrame` of its old contents and stays within [0, 1] |
| TriangleViewer.InteractiveWindow.OnMouseMove | OpenGL_conn_ImmediateMode/Program.cs:57-64 | each angle grows by 0.1 times its delta |

## Left out

- Rendering is not modelled: `OnRenderFrame`, `Draw`, `DrawFace`, `DrawAxes`, `DrawGrid`, `OnResize`, the projection set-up in `OnLoad`, and `GL.ClearColor`. These are OpenGL calls with nothing to state. What `Draw` demands of the data is `ColorCube.Drawable`.
- Console output (`DisplayMenu`, the `Console.WriteLine` logging) is I/O only.
- The window and its event loop are not modelled: construction with size and title, VSync, `Run(60.0)`, the Escape key and frame timing. The frame time is the parameter `deltaTime`.
- `ZavateI_temaCLI/Program.cs` is not part of this model. It moves a quad by ±0.05 with no invariant or clamp.
- The file system is not modelled. `File.Exists` and `ReadAllLines` become an `Option<seq<string>>` or a `seq<string>`. `WriteAllLines` of the default data is modelled only as the lines the loader then reads.
- `float.Parse` is a parameter, so its culture-dependent number format is not modelled.
- `System.Random` seeding is not modelled. The model assumes only that every value drawn lies in [0, 1).
- Floats are reals. Rounding of the 0.01 steps, of 0.05 and of `deltaTime * gravity` is not modelled. The test `gravity == 9.8f` is exact equality on reals.
- Exceptions become results. `float.Parse` rejecting a field of a kept line is `None` from `LoadLines`, and the game state is unchanged. A missing line or a short line in the triangle file ends `LoadTriangleVertices` with a `loaded` count below 3, which says how many slots were written before the throw. The exception's later effect on the window is not modelled.
- `tema_5`'s `backgroundColor` and `filename` fields are not modelled: they only feed rendering and file I/O. `tema_4`'s `isGridVisible` is kept but never changes: its menu lists V for the grid, but `OnUpdateFrame` handles no V key.
- `ColorCube.Game.ChangeCubeColor` requires a non-negative index, and `ResetCubeColor` does too. The C# guard `cubeIndex < cubes.Count` checks only the upper bound, so a negative index makes `cubes[cubeIndex]` throw `ArgumentOutOfRangeException`. The game itself only ever passes 0.
- `ColorCube.Cube.ResetColor` requires the snapshot to be no longer than the colour list, where `List<Color4>`'s indexer would throw `ArgumentOutOfRangeException`. `LoadCubeData` always makes the snapshot exactly as long as the list it copies, so the game never reaches the throw. `ColorCube.Game.OnUpdateFrame` and `ResetCubeColor` pass the same requirement on to their callers.
- `ColorCube.ColorList` models `List<Color4>` with only the operations the demo uses: the constructor, the copy constructor, `Add` and the indexer's set.
- `OpenGL_conn_ImmediateMode` calls `Keyboard.GetState()` once per `if` line of the colour keys, so a key could change between two of those reads within one frame. The model takes one `set<Key>` snapshot for the whole frame, read by every line.
