/**
 * The game logic of the game panel: the difficulty switch, the apple
 * collision step (growth by seven, random respawn, one sound per apple) and
 * the key-driven camera of easy mode. Positions are in hundredths of a unit.
 */
module GameModel {
  import opened Geometry
  import opened SnakeModel

  /** Key codes of `java.awt.event.KeyEvent`. */
  const VK_W: int := 87
  const VK_S: int := 83
  const VK_A: int := 65
  const VK_D: int := 68
  const VK_Z: int := 90
  const VK_X: int := 88

  /** `movementSpeed` of the camera: 0.1 units. */
  const MOVEMENT_SPEED: int := 10
  /** The head eats the apple when closer than 0.2 units; compared squared. */
  const EAT_DISTANCE: nat := 20
  /** Segments added per apple. */
  const GROWTH_PER_APPLE: nat := 7
  /** The apple's elevation (-0.4). */
  const APPLE_Y: int := -40
  /** A respawned apple has x and z in [-SPAWN_HALF, SPAWN_HALF): [-4, 4). */
  const SPAWN_HALF: int := 400
  /** The snake starts at (0, -0.4, 0); the apple at (2, -0.4, 1). */
  const SNAKE_START: Vec3 := Vec3(0, -40, 0)
  const APPLE_START: Vec3 := Vec3(200, -40, 100)

  // ---------------------------------------------------------------------------
  // Difficulty

  /** Java's upper-case mapping, on ASCII letters. */
  function UpperAscii(c: char): char {
    if 'a' <= c <= 'z' then (c as int - 'a' as int + 'A' as int) as char else c
  }

  /** Java's case-insensitive string equality: same length, and each pair of characters equal up to case. */
  predicate EqualsIgnoreCase(a: string, b: string): (r: bool)
    ensures a == b ==> r
    ensures r ==> |a| == |b|
  {
    |a| == |b| && forall i :: 0 <= i < |a| ==> UpperAscii(a[i]) == UpperAscii(b[i])
  }

  /** `setDifficultyMode`: hard mode exactly for "hard" in any letter case. */
  predicate IsHardDifficulty(difficulty: string): (r: bool)
    ensures r ==> |difficulty| == 4
    ensures difficulty == "hard" || difficulty == "HARD" ==> r
  {
    EqualsIgnoreCase("hard", difficulty)
  }

  /** The sixteen spellings of "hard" are exactly the strings that select hard mode. */
  lemma HardInAnyCase(s: string)
    ensures IsHardDifficulty(s) <==>
              |s| == 4 && s[0] in "hH" && s[1] in "aA" && s[2] in "rR" && s[3] in "dD"
  {
    if |s| == 4 {
      UpperIsLetter(s[0], 'h', 'H');
      UpperIsLetter(s[1], 'a', 'A');
      UpperIsLetter(s[2], 'r', 'R');
      UpperIsLetter(s[3], 'd', 'D');
      if s[0] in "hH" && s[1] in "aA" && s[2] in "rR" && s[3] in "dD" {
        forall i | 0 <= i < 4 ensures UpperAscii("hard"[i]) == UpperAscii(s[i]) {
        }
      } else {
        assert !(UpperAscii("hard"[0]) == UpperAscii(s[0]) && UpperAscii("hard"[1]) == UpperAscii(s[1])
                 && UpperAscii("hard"[2]) == UpperAscii(s[2]) && UpperAscii("hard"[3]) == UpperAscii(s[3]));
      }
    }
  }

  lemma UpperIsLetter(c: char, lower: char, upper: char)
    requires 'a' <= lower <= 'z' && upper as int == lower as int - 'a' as int + 'A' as int
    ensures UpperAscii(c) == upper <==> c == lower || c == upper
  {
  }

  /** The two options the home screen offers map to the two modes. */
  lemma DifficultyOptions()
    ensures IsHardDifficulty("Hard") && !IsHardDifficulty("Easy")
  {
    HardInAnyCase("Hard");
    HardInAnyCase("Easy");
  }

  // ---------------------------------------------------------------------------
  // Apple collision

  function DistanceSq(a: Vec3, b: Vec3): int {
    NormSq(Sub(a, b))
  }

  /**
   * The apple is eaten when the head is closer to it than 0.2 units and the
   * eaten flag is clear. A head exactly on the apple always eats a fresh one.
   */
  predicate ShouldEat(head: Vec3, apple: Vec3, appleEaten: bool): (r: bool)
    ensures r ==> !appleEaten
    ensures head == apple ==> (r <==> !appleEaten)
  {
    DistanceSq(head, apple) < EAT_DISTANCE * EAT_DISTANCE && !appleEaten
  }

  /** Where `repositionApple` may put the apple. */
  predicate InSpawnRange(p: Vec3) {
    -SPAWN_HALF <= p.x < SPAWN_HALF && -SPAWN_HALF <= p.z < SPAWN_HALF && p.y == APPLE_Y
  }

  /** An eaten apple was less than 0.2 units away along every axis. */
  lemma EatenIsNear(head: Vec3, apple: Vec3, appleEaten: bool)
    ensures ShouldEat(head, apple, appleEaten) ==>
              && Abs(head.x - apple.x) < EAT_DISTANCE
              && Abs(head.y - apple.y) < EAT_DISTANCE
              && Abs(head.z - apple.z) < EAT_DISTANCE
  {
    if ShouldEat(head, apple, appleEaten) {
      var d := Sub(head, apple);
      assert d.x * d.x >= 0 && d.y * d.y >= 0 && d.z * d.z >= 0;
      SquareBelow(d.x, EAT_DISTANCE);
      SquareBelow(d.y, EAT_DISTANCE);
      SquareBelow(d.z, EAT_DISTANCE);
    }
  }

  /** At the same height, within 0.14 units on both X and Z, a fresh apple is eaten. */
  lemma NearIsEaten(head: Vec3, apple: Vec3)
    requires head.y == apple.y
    requires Abs(head.x - apple.x) <= 14 && Abs(head.z - apple.z) <= 14
    ensures ShouldEat(head, apple, false)
  {
    var d := Sub(head, apple);
    MulMono(Abs(d.x), 14);
    MulMono(Abs(d.z), 14);
    assert Abs(d.x) * Abs(d.x) == d.x * d.x;
    assert Abs(d.z) * Abs(d.z) == d.z * d.z;
  }

  /** Head (1.9, -0.4, 1.0) against apple (2.0, -0.4, 1.0): 0.1 apart, eaten. */
  lemma CloseAppleScenario()
    ensures ShouldEat(Vec3(190, -40, 100), Vec3(200, -40, 100), false)
    ensures !ShouldEat(Vec3(190, -40, 100), Vec3(200, -40, 100), true)
  {
  }

  /**
   * The collision behaviour: checks the distance between the snake's head
   * segment and the apple, and on a hit grows the snake, respawns the apple
   * and triggers the eating sound.
   */
  class AppleCollisionBehavior {
    const snake: Snake
    /** Translation of the apple's transform group. */
    var applePosition: Vec3
    var appleEaten: bool
    /** Calls of `AudioLoader.playAudio` so far. */
    var audioTriggers: nat

    ghost predicate Valid()
      reads this, snake
    {
      snake.Valid() && !appleEaten
    }

    constructor (snake: Snake, applePosition: Vec3)
      ensures this.snake == snake && this.applePosition == applePosition
      ensures !appleEaten && audioTriggers == 0
      ensures snake.Valid() ==> Valid()
    {
      this.snake := snake;
      this.applePosition := applePosition;
      appleEaten := false;
      audioTriggers := 0;
    }

    /** `Math.random()` is an arbitrary choice within the spawn range. */
    method RepositionApple()
      modifies this
      ensures InSpawnRange(applePosition)
      ensures !appleEaten && audioTriggers == old(audioTriggers)
    {
      var newX :| -SPAWN_HALF <= newX < SPAWN_HALF;
      var newZ :| -SPAWN_HALF <= newZ < SPAWN_HALF;
      applePosition := Vec3(newX, APPLE_Y, newZ);
      appleEaten := false;
    }

    method ProcessStimulus()
      requires Valid()
      modifies this, snake
      ensures Valid()
      ensures ShouldEat(HeadPosition(old(snake.State())), old(applePosition), old(appleEaten)) ==>
                && snake.State() == GrownN(old(snake.State()), GROWTH_PER_APPLE)
                && InSpawnRange(applePosition)
                && audioTriggers == old(audioTriggers) + 1
      ensures !ShouldEat(HeadPosition(old(snake.State())), old(applePosition), old(appleEaten)) ==>
                && snake.State() == old(snake.State())
                && applePosition == old(applePosition)
                && audioTriggers == old(audioTriggers)
    {
      var headPos := snake.GetHeadPosition();
      var applePos := applePosition;
      var diff := Sub(headPos, applePos);
      if NormSq(diff) < EAT_DISTANCE * EAT_DISTANCE && !appleEaten {
        appleEaten := true;
        ghost var s0 := snake.State();
        var i := 0;
        while i < GROWTH_PER_APPLE
          invariant 0 <= i <= GROWTH_PER_APPLE
          invariant snake.Valid() && snake.State() == GrownN(s0, i)
          invariant audioTriggers == old(audioTriggers)
        {
          snake.AddSegment();
          i := i + 1;
        }
        RepositionApple();
        audioTriggers := audioTriggers + 1;
      }
    }
  }

  // ---------------------------------------------------------------------------
  // Easy-mode camera

  /** The camera's transform after one key: W/S along Z, A/D along X, Z/X along the third column. */
  function CameraKey(translation: Vec3, rotation: Mat3, keyCode: int): (r: Vec3)
    ensures !IsCameraKey(keyCode) ==> r == translation
    ensures keyCode == VK_Z ==> Add(r, Column2(rotation)) == translation
    ensures keyCode == VK_X ==> Sub(r, Column2(rotation)) == translation
    ensures keyCode in {VK_W, VK_S, VK_A, VK_D} ==>
              r.y == translation.y && Abs(r.x - translation.x) + Abs(r.z - translation.z) == MOVEMENT_SPEED
  {
    if keyCode == VK_W then translation.(z := translation.z - MOVEMENT_SPEED)
    else if keyCode == VK_S then translation.(z := translation.z + MOVEMENT_SPEED)
    else if keyCode == VK_A then translation.(x := translation.x - MOVEMENT_SPEED)
    else if keyCode == VK_D then translation.(x := translation.x + MOVEMENT_SPEED)
    else if keyCode == VK_Z then Sub(translation, Column2(rotation))
    else if keyCode == VK_X then Add(translation, Column2(rotation))
    else translation
  }

  /** The keys the camera reacts to. */
  predicate IsCameraKey(keyCode: int) {
    keyCode in {VK_W, VK_S, VK_A, VK_D, VK_Z, VK_X}
  }

  /** The translation after a batch of key events, handled in order; other keys leave it alone. */
  function CameraKeys(translation: Vec3, rotation: Mat3, keyCodes: seq<int>): (r: Vec3)
    ensures (forall i :: 0 <= i < |keyCodes| ==> !IsCameraKey(keyCodes[i])) ==> r == translation
  {
    if keyCodes == [] then translation
    else CameraKey(CameraKeys(translation, rotation, keyCodes[..|keyCodes| - 1]), rotation,
                   keyCodes[|keyCodes| - 1])
  }

  /** W, S, A and D move by 0.1 along exactly one world axis, whatever the rotation. */
  lemma WasdMovesOneAxis(t: Vec3, rotation: Mat3, keyCode: int)
    requires keyCode in {VK_W, VK_S, VK_A, VK_D}
    ensures var r := CameraKey(t, rotation, keyCode);
            r.y == t.y
            && (r.x == t.x) != (r.z == t.z)
            && Abs(r.x - t.x) + Abs(r.z - t.z) == MOVEMENT_SPEED
            && (keyCode == VK_W ==> r.z < t.z) && (keyCode == VK_S ==> r.z > t.z)
            && (keyCode == VK_A ==> r.x < t.x) && (keyCode == VK_D ==> r.x > t.x)
  {
  }

  /** Zooming in then out (or out then in) returns the camera to where it was. */
  lemma ZoomRoundTrip(t: Vec3, rotation: Mat3)
    ensures CameraKey(CameraKey(t, rotation, VK_Z), rotation, VK_X) == t
    ensures CameraKey(CameraKey(t, rotation, VK_X), rotation, VK_Z) == t
  {
  }

  /** Key 'Z' with forward column (0, 0, -1) moves the camera by +1 along Z. */
  lemma ZoomScenario(t: Vec3)
    ensures CameraKey(t, Mat3(100, 0, 0, 0, 100, 0, 0, 0, -100), VK_Z) == Vec3(t.x, t.y, t.z + 100)
  {
  }

  /**
   * The net effect of a batch of camera keys: 0.1 per D minus A along X,
   * 0.1 per S minus W along Z, and the third column once per X minus Z;
   * so the order of the keys does not matter.
   */
  lemma {:induction false} NetCameraMove(t: Vec3, rotation: Mat3, keyCodes: seq<int>)
    ensures CameraKeys(t, rotation, keyCodes)
            == Add(Add(t, Vec3(MOVEMENT_SPEED * (Count(keyCodes, VK_D) - Count(keyCodes, VK_A)), 0,
                               MOVEMENT_SPEED * (Count(keyCodes, VK_S) - Count(keyCodes, VK_W)))),
                   Scale(Count(keyCodes, VK_X) - Count(keyCodes, VK_Z), Column2(rotation)))
  {
    if keyCodes != [] {
      var init := keyCodes[..|keyCodes| - 1];
      NetCameraMove(t, rotation, init);
      var k := Count(init, VK_X) - Count(init, VK_Z);
      var c := Column2(rotation);
      assert Scale(k + 1, c) == Add(Scale(k, c), c) by {
        assert (k + 1) * c.x == k * c.x + c.x;
        assert (k + 1) * c.y == k * c.y + c.y;
        assert (k + 1) * c.z == k * c.z + c.z;
      }
      assert Scale(k - 1, c) == Sub(Scale(k, c), c) by {
        assert (k - 1) * c.x == k * c.x - c.x;
        assert (k - 1) * c.y == k * c.y - c.y;
        assert (k - 1) * c.z == k * c.z - c.z;
      }
    }
  }

  /** The view platform's transform: rotation part and translation. */
  class ViewTransform {
    var rotation: Mat3
    var translation: Vec3

    constructor (rotation: Mat3, translation: Vec3)
      ensures this.rotation == rotation && this.translation == translation
    {
      this.rotation := rotation;
      this.translation := translation;
    }
  }

  /** The key listener that moves the camera in easy mode. */
  class CameraWASDBehavior {
    const viewTG: ViewTransform

    constructor (viewTG: ViewTransform)
      ensures this.viewTG == viewTG
    {
      this.viewTG := viewTG;
    }

    /** Handle one batch of key-pressed events, each read from and written back to the view. */
    method ProcessStimulus(keyCodes: seq<int>)
      modifies viewTG
      ensures viewTG.translation == CameraKeys(old(viewTG.translation), old(viewTG.rotation), keyCodes)
      ensures viewTG.rotation == old(viewTG.rotation)
    {
      var n := 0;
      while n < |keyCodes|
        invariant 0 <= n <= |keyCodes|
        invariant viewTG.rotation == old(viewTG.rotation)
        invariant viewTG.translation == CameraKeys(old(viewTG.translation), old(viewTG.rotation), keyCodes[..n])
      {
        assert keyCodes[..n + 1][..n] == keyCodes[..n];
        var code := keyCodes[n];
        var rotation := viewTG.rotation;
        var translation := viewTG.translation;
        if code == VK_W {
          translation := translation.(z := translation.z - MOVEMENT_SPEED);
        } else if code == VK_S {
          translation := translation.(z := translation.z + MOVEMENT_SPEED);
        } else if code == VK_A {
          translation := translation.(x := translation.x - MOVEMENT_SPEED);
        } else if code == VK_D {
          translation := translation.(x := translation.x + MOVEMENT_SPEED);
        } else if code == VK_Z {
          var forward := Column2(rotation);
          translation := Sub(translation, forward);
        } else if code == VK_X {
          var forward := Column2(rotation);
          translation := Add(translation, forward);
        }
        viewTG.translation := translation;
        n := n + 1;
      }
      assert keyCodes[..n] == keyCodes;
    }
  }

  // ---------------------------------------------------------------------------
  // The panel

  class GamePanel {
    var isHardMode: bool
    var snake: Snake?
    var snakeBehavior: SnakeBehavior?
    var appleCollision: AppleCollisionBehavior?
    var camera: CameraWASDBehavior?

    constructor ()
      ensures !isHardMode
      ensures snake == null && snakeBehavior == null && appleCollision == null && camera == null
    {
      isHardMode := false;
      snake, snakeBehavior, appleCollision, camera := null, null, null, null;
    }

    method SetDifficultyMode(difficulty: string)
      modifies this`isHardMode
      ensures isHardMode == IsHardDifficulty(difficulty)
    {
      if EqualsIgnoreCase("hard", difficulty) {
        isHardMode := true;
      } else {
        isHardMode := false;
      }
    }

    /**
     * The game objects of the scene: a snake at the start position with its
     * key listener, the apple and its collision behaviour, and the key-driven
     * camera on the given view transform only in easy mode.
     */
    method CreateSceneGraph(viewTG: ViewTransform)
      modifies this
      ensures isHardMode == old(isHardMode)
      ensures snake != null && fresh(snake) && snake.Valid() && snake.State() == Initial(SNAKE_START)
      ensures snakeBehavior != null && fresh(snakeBehavior) && snakeBehavior.snake == snake
      ensures appleCollision != null && fresh(appleCollision) && appleCollision.snake == snake
      ensures appleCollision.Valid() && appleCollision.applePosition == APPLE_START
      ensures appleCollision.audioTriggers == 0
      ensures (camera != null) == !isHardMode
      ensures camera != null ==> fresh(camera) && camera.viewTG == viewTG
    {
      var s := new Snake(SNAKE_START);
      snake := s;
      snakeBehavior := new SnakeBehavior(s);
      appleCollision := new AppleCollisionBehavior(s, Vec3(200, APPLE_Y, 100));
      if isHardMode {
        camera := null;
      } else {
        camera := new CameraWASDBehavior(viewTG);
      }
    }
  }
}
