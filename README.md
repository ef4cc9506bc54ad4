# Snake game core, modelled in Dafny

This project models the game logic of a small Java3D snake game. A snake moves
across a walled square plane, turns with the arrow keys and grows by seven
segments whenever its head reaches the apple. The apple then respawns at a
random spot. In easy mode the player also gets a camera that moves with the
W/S/A/D/Z/X keys.

All coordinates are integers in hundredths of a world unit:

- the snake moves by 1 per tick;
- the camera moves by 10 per key;
- the walls are at ±500;
- the apple is eaten when the squared distance is below 20² = 400;
- a respawned apple has x and z in [-400, 400);
- every segment and the apple sit at y = -40.

Quarter turns about the vertical axis are exact. Left is (x, z) → (z, −x), which is what
`rotY(+90°)` does in exact arithmetic. Right is (x, z) → (−z, x).

Files and modules:

- `geometry.dfy`, module `Geometry`: vectors, the camera's 3×3 matrix, the two
  rotations and a few arithmetic facts.
- `snake.dfy`, module `SnakeModel` (Snake.java):
  - `SnakeState`: the pure state. It holds the segment chain (head at index 0), the
    separate `headPosition` field, the direction and a count of game-over signals.
  - `Initial`, `Moved`, `Grown`, `GrownN`, `TurnedByKeys`: specification functions
    over that state.
  - `Inv`: the invariant every reachable state keeps.
  - class `Snake`: the mutable object. Its segment list is a `seq` field that the
    methods reassign, and every method is proved against the specification
    functions.
  - class `SnakeBehavior`: the arrow-key listener.
- `game.dfy`, module `GameModel` (GamePanel.java):
  - the difficulty switch;
  - class `AppleCollisionBehavior`: the collision step;
  - class `CameraWASDBehavior`: the key-driven camera, over a shared `ViewTransform`;
  - class `GamePanel`: it creates the game objects and installs the camera only in
    easy mode.

A number of facts about the source are stated and proved:

- **The head field and segment 0 can differ.** `move()` advances `headPosition` before
  the wall check. When the new head is outside the wall, the field has already moved
  but segment 0 has not, and `getHeadPosition()` keeps returning the old segment 0.
  - `Inv` and `Snake.GetHeadPosition` record that the two agree while no game over has
    happened, and whenever the field is inside the walls.
  - Nothing stops the moves after a game over. `WallHitRepeats` proves that, as long
    as no key turns the snake back, every later tick signals game over again, the
    chain stays frozen and the head field keeps going.
  - The arrow keys are not stopped either. `TurnAroundResumes` proves that two left
    turns right after the crossing bring the head field back inside on the next move.
    The chain then starts moving again, with the head position in both segment 0 and
    segment 1.
- **The `appleEaten` flag never blocks anything.** It is set and cleared in the same
  call, so it is false whenever `processStimulus` starts. The invariant
  `AppleCollisionBehavior.Valid` states this. The hit condition therefore reduces to
  the distance test.
- **Zoom moves a full unit, not 0.1.** The Z and X keys move the camera by the whole
  third column of the rotation. The `zoomSpeed` field (GamePanel.java:553) is never
  read.

## Model

| member | source | states |
|---|---|---|
| `Geometry.RotateLeft` | Snake.java:110-116 | a left turn keeps y, is perpendicular to the old direction in the horizontal plane and keeps its length |
| `Geometry.RotateRight` | Snake.java:118-124 | a right turn keeps y, is perpendicular to the old direction in the horizontal plane and keeps its length |
| `Geometry.LeftThenRight` | Snake.java:110-124 | a left turn then a right turn restores the direction, and so does the reverse order |
| `Geometry.FourTurnsRestore` | Snake.java:110-124 | four left turns, or four right turns, restore the direction |
| `Geometry.RotateQuartersStep` | Snake.java:110-124 | a left (right) turn adds (subtracts) one quarter turn, counted modulo 4 |
| `SnakeModel.InBounds` | Snake.java:71-72 | the head is inside exactly when \|x\| ≤ 5 and \|z\| ≤ 5, so a head exactly on a wall is still inside |
| `SnakeModel.Advance` | Snake.java:67-68 | the advanced head field always has y = -0.4, and with an axis-step direction it is exactly one hundredth from the old field |
| `SnakeModel.HeadPosition` | Snake.java:134-140 | the reported head is one of the segments (segment 0), at y = -0.4 whenever all segments are |
| `SnakeModel.TurnedByKey` | Snake.java:160-164 | an arrow key turns the direction perpendicular to itself, keeps y and keeps an axis step an axis step; any other key leaves it unchanged |
| `SnakeModel.TurnedByKeys` | Snake.java:157-166 | a batch of keys keeps y and keeps an axis step an axis step; a batch with no arrow keys leaves the direction unchanged |
| `SnakeModel.GrownN` | GamePanel.java:484-486 | n growth steps add exactly n segments, keep the old ones as a prefix, and leave head field, direction and game-over count unchanged |
| `SnakeModel.Initial` | Snake.java:20-33 | construction gives exactly one segment at the start position with y forced to -0.4, the head field equal to it, direction (0, 0, 0.01), no game over, and the invariant |
| `SnakeModel.Shifted` | Snake.java:80-90 | the shifted chain has the same length, the new head first, and old segment i-1 at each index i ≥ 1 |
| `SnakeModel.Moved` | Snake.java:56-91 | the head field always advances by the direction with y = -0.4 and the count is unchanged. Inside the walls (±5 included), segment 0 becomes the new head and segment i the old segment i-1. Outside, one game over is signalled, no segment changes and the reported head position stays the old segment 0 |
| `SnakeModel.Grown` | Snake.java:95-108 | adding a segment increases the count by exactly one, appends a copy of the old tail and leaves earlier segments, head field and direction unchanged |
| `SnakeModel.TurnsKeepInv` | Snake.java:110-124 | a turn changes only the direction and keeps it a horizontal step of one hundredth along an axis |
| `SnakeModel.MovedKeepsInv` | Snake.java:56-91 | a move keeps every segment at y = -0.4 and keeps the head field and segment 0 in agreement while no game over has happened |
| `SnakeModel.GrownKeepsInv` | Snake.java:95-108 | adding a segment keeps every segment at y = -0.4 |
| `SnakeModel.GrownNAppendsTail` | GamePanel.java:484-486 | n calls of addSegment append exactly n copies of the old tail, so the count grows by exactly n, and change nothing else |
| `SnakeModel.GrownNKeepsInv` | GamePanel.java:484-486 | repeated growth keeps the invariant |
| `SnakeModel.NetTurn` | Snake.java:157-166 | a batch of key events turns the direction by (number of left arrows − number of right arrows) quarter turns; other keys have no effect |
| `SnakeModel.TurnBack` | Snake.java:160-164 | left arrow then right arrow, or right then left, leaves the direction unchanged |
| `SnakeModel.RunKeepsInv` | Snake.java:56-124 | over any sequence of moves, growth and key presses the invariant holds, the segment count never shrinks and game-over signals never drop |
| `SnakeModel.BodyFollowsTrail` | Snake.java:80-90 | after k moves inside the walls, segment i (i ≥ k) sits where segment i-k was: the body follows the head's path |
| `SnakeModel.WallHitRepeats` | Snake.java:66-78 | once a move leaves the field and no key turns the snake, each of the next k moves signals game over again, leaves the chain unchanged and advances the head field by one more step |
| `SnakeModel.TurnAroundResumes` | Snake.java:56-91 | two left turns right after the first wall crossing bring the head field back to its last position inside the walls on the next move. The chain shifts again, with no further game over |
| `SnakeModel.NearWallStaysInside` | Snake.java:71-72 | head at (4.99, -0.4, 0) moving +Z reaches (4.99, -0.4, 0.01) with no game over |
| `SnakeModel.OnWallStepsOut` | Snake.java:67-78 | head exactly at x = 5 moving +X: x = 5.01 signals game over, the chain is unchanged, the field is at 5.01 and the reported head at 5 |
| `SnakeModel.Snake.constructor` | Snake.java:20-33 | the new snake's state is `Initial(startPosition)` and satisfies the invariant |
| `SnakeModel.Snake.Move` | Snake.java:56-91 | copying the positions and then shifting them in place gives exactly `Moved` of the old state, and keeps the invariant |
| `SnakeModel.Snake.AddSegment` | Snake.java:95-108 | the new state is `Grown` of the old one, and the invariant holds |
| `SnakeModel.Snake.TurnLeft` | Snake.java:110-116 | direction becomes its left rotation; segments, head field and game-over count are untouched |
| `SnakeModel.Snake.TurnRight` | Snake.java:118-124 | direction becomes its right rotation; segments, head field and game-over count are untouched |
| `SnakeModel.Snake.GetDirection` | Snake.java:126-128 | the direction is always a horizontal step of one hundredth along X or Z |
| `SnakeModel.Snake.GetHeadPosition` | Snake.java:134-140 | the reported head is at y = -0.4 and equals the head field unless a game over left the field outside the walls |
| `SnakeModel.SnakeBehavior.ProcessStimulus` | Snake.java:152-170 | the key events of one batch are handled in order: left arrow turns left, right arrow turns right, any other key does nothing. Nothing but the direction changes |
| `GameModel.HardInAnyCase` | GamePanel.java:52-58 | hard mode is selected exactly by the sixteen upper/lower-case spellings of "hard" |
| `GameModel.DifficultyOptions` | GamePanel.java:52-58 | the home screen's "Hard" selects hard mode and "Easy" selects easy mode |
| `GameModel.GamePanel.constructor` | GamePanel.java:31-39 | a new panel is in easy mode and has no game objects yet |
| `GameModel.GamePanel.SetDifficultyMode` | GamePanel.java:52-58 | isHardMode is set exactly when the difficulty equals "hard" ignoring case |
| `GameModel.GamePanel.CreateSceneGraph` | GamePanel.java:117-163 | a fresh snake at (0, -0.4, 0), its key listener, the apple at (2, -0.4, 1) with its collision behaviour, and the key camera on the view transform if and only if the mode is easy |
| `GameModel.EqualsIgnoreCase` | GamePanel.java:53 | equal strings match, and matching strings have the same length |
| `GameModel.IsHardDifficulty` | GamePanel.java:53-57 | hard mode needs a four-letter string, and "hard" and "HARD" both select it |
| `GameModel.ShouldEat` | GamePanel.java:478-480 | the apple is eaten only while the flag is clear, and a head exactly on the apple eats it whenever the flag is clear |
| `GameModel.EatenIsNear` | GamePanel.java:477-480 | an apple that triggers is less than 0.2 away along every axis |
| `GameModel.NearIsEaten` | GamePanel.java:477-480 | a not-yet-eaten apple at the head's height, within 0.14 on both X and Z, triggers |
| `GameModel.CloseAppleScenario` | GamePanel.java:477-480 | head (1.9, -0.4, 1) against apple (2, -0.4, 1) triggers when the flag is clear and not when it is set |
| `GameModel.AppleCollisionBehavior.constructor` | GamePanel.java:456-461 | the behaviour starts with the given snake and apple, the flag clear and no sound played |
| `GameModel.AppleCollisionBehavior.RepositionApple` | GamePanel.java:501-510 | the apple's new x and z lie in [-4, 4), its y is -0.4, and the flag is cleared |
| `GameModel.AppleCollisionBehavior.ProcessStimulus` | GamePanel.java:469-499 | the step triggers only when distance² < 0.04 and the flag is clear. On a hit the snake becomes `GrownN(old, 7)`, the apple is respawned in range and exactly one sound is triggered. On a miss, snake, apple and sound count are unchanged. The flag is clear afterwards on both paths |
| `GameModel.CameraKey` | GamePanel.java:580-620 | a key other than W/S/A/D/Z/X leaves the translation unchanged. W/S/A/D move it by 0.1 along X or Z with y unchanged. Z subtracts the third column and X adds it |
| `GameModel.CameraKeys` | GamePanel.java:572-621 | a batch of events with no camera key leaves the translation unchanged |
| `GameModel.CameraWASDBehavior.constructor` | GamePanel.java:556-558 | the behaviour acts on the given view transform |
| `GameModel.WasdMovesOneAxis` | GamePanel.java:580-589 | W, S, A and D each move the camera by 0.1 along exactly one world axis (−Z, +Z, −X, +X), whatever the rotation |
| `GameModel.ZoomRoundTrip` | GamePanel.java:591-616 | Z followed by X, or X followed by Z, restores the translation |
| `GameModel.ZoomScenario` | GamePanel.java:592-603 | with forward column (0, 0, -1), Z moves the camera by +1 along Z |
| `GameModel.NetCameraMove` | GamePanel.java:566-626 | a batch of camera keys moves the translation by 0.1·(#D − #A) along X, 0.1·(#S − #W) along Z and (#X − #Z) times the third column; other keys do nothing |
| `GameModel.CameraWASDBehavior.ProcessStimulus` | GamePanel.java:566-626 | each event reads the view transform, moves its translation by its key and writes it back, so the final translation is `CameraKeys` of the old one; the rotation is untouched |

## Left out

- Rendering is not modelled. This covers the scene graph, lighting and background,
  the ground, border, billboard, segment cubes, tetrahedron apple geometry and the
  morph, plus texture loading (`loadTexture`, `textured_App`). These are renderer
  calls and file I/O with no game logic.
- `updateCameraPosition` (GamePanel.java:178-209), the hard-mode camera, is not
  modelled. It runs once at set-up, uses floating-point `atan2`/`rotY`, and its
  final `lookAt` replaces the transform it built. `GamePanel.CreateSceneGraph`
  therefore does not compute any view transform.
- The easy-mode initial `lookAt`/`invert` (GamePanel.java:157-158) is floating-point
  trigonometry and is not modelled. The camera starts from whatever rotation and
  translation the view transform holds.
- `AppleMorphPickBehavior` is not modelled: mouse picking relies on the renderer's
  ray casting, and the weight toggle is only visual.
- The timers (`SnakeMoveBehavior` every 20 ms, the collision check every 100 ms)
  are not modelled. A tick is an explicit call of `Snake.Move` or
  `AppleCollisionBehavior.ProcessStimulus`.
- Swing navigation (MainApp.java, HomePanel.java, GameOverPanel.java) is reduced to one
  thing. `MainApp.instance.showGameOverScreen()` becomes the `gameOverSignals` counter.
  The null check on `MainApp.instance` is not modelled: every wall hit counts as one
  signal.
- Audio playback (AudioLoader.java) is reduced to the `audioTriggers` counter, which
  goes up once per eaten apple.
- Console output (`System.out.println`) is not modelled.
- Self-collision is not modelled because the source does not implement it.
- Floating point is not modelled; the model uses exact integer hundredths.
  - The source adds 0.01f to a float every tick, so its positions drift off the
    hundredth grid, and a wall test at exactly ±5 may not fire on the same tick as in
    the model.
  - `Math.toRadians(90)` gives a cosine that is not exactly 0, so the source's direction
    picks up tiny off-axis components after turns. The model's turns are exact.
  - The squared-distance test stands for `diff.length() < 0.2f`.
- `AppleCollisionBehavior.RepositionApple`: the random draw
  `(float)(Math.random() * 8 - 4)` is modelled as an arbitrary integer in [-400, 400).
  The float cast can round a draw just below 4 up to exactly 4.0f, and positions
  between hundredths are not represented.
- `GameModel.HardInAnyCase`: case folding covers ASCII letters only. Java's
  `equalsIgnoreCase` also folds other Unicode letters.
- A null difficulty string, which gives easy mode in the source, is not modelled.
- The wakeup plumbing of Java3D behaviours is reduced to a batch of key codes handled
  in order. This covers the wakeup criteria loop, the `instanceof` checks on events
  and re-arming with `wakeupOn`.
