/**
 * The snake body of the game: an ordered chain of segment positions (head at
 * index 0), a separate head-position field, a direction vector, and the
 * left/right-arrow dispatch. Positions are in hundredths of a unit.
 */
module SnakeModel {
  import opened Geometry

  /** Every segment sits at this elevation (-0.4). */
  const FIXED_Y: int := -40
  /** Walls of the playing field: a head with |x| or |z| above 5 units hits them. */
  const WALL: int := 500
  /** Key codes of `java.awt.event.KeyEvent`. */
  const VK_LEFT: int := 37
  const VK_RIGHT: int := 39

  /** Direction at construction: (0, 0, 0.01). */
  const START_DIRECTION: Vec3 := Vec3(0, 0, 1)

  /** The state of one snake, as the fields of the source's `Snake` hold it. */
  datatype SnakeState = SnakeState(
    segments: seq<Vec3>,   // transform positions of the segments, head first
    head: Vec3,            // the separate `headPosition` field
    direction: Vec3,       // added to the head on every move
    gameOvers: nat         // how many times the game-over screen was requested
  )

  /** A horizontal step of one hundredth along X or Z. */
  predicate IsAxisStep(d: Vec3) {
    d.y == 0 && Abs(d.x) + Abs(d.z) == 1
  }

  /** The head is inside the walls; exactly on a wall still counts as inside. */
  predicate InBounds(p: Vec3): (r: bool)
    ensures r <==> Abs(p.x) <= WALL && Abs(p.z) <= WALL
  {
    -WALL <= p.x <= WALL && -WALL <= p.z <= WALL
  }

  predicate AllAtFixedY(segs: seq<Vec3>) {
    forall i :: 0 <= i < |segs| ==> segs[i].y == FIXED_Y
  }

  /**
   * What every reachable snake state satisfies: a non-empty chain whose
   * segments all sit at FIXED_Y, a horizontal unit-step direction, and a head
   * field that agrees with segment 0 unless it has already left the field
   * (which only a game over leaves behind).
   */
  predicate Inv(s: SnakeState) {
    && |s.segments| >= 1
    && AllAtFixedY(s.segments)
    && s.head.y == FIXED_Y
    && IsAxisStep(s.direction)
    && (s.gameOvers == 0 ==> s.segments[0] == s.head)
    && (InBounds(s.head) ==> s.segments[0] == s.head)
  }

  /** `getHeadPosition()`: the position of segment 0, not the `headPosition` field. */
  function HeadPosition(s: SnakeState): (r: Vec3)
    requires |s.segments| >= 1
    ensures r in s.segments
    ensures AllAtFixedY(s.segments) ==> r.y == FIXED_Y
  {
    s.segments[0]
  }

  /** The state the constructor builds from a start position. */
  function Initial(start: Vec3): (r: SnakeState)
    ensures Inv(r)
    ensures r.segments == [Vec3(start.x, FIXED_Y, start.z)]
    ensures r.head == r.segments[0] && r.direction == START_DIRECTION && r.gameOvers == 0
  {
    var h := start.(y := FIXED_Y);
    SnakeState([h], h, START_DIRECTION, 0)
  }

  /**
   * The head field after a move: the direction is added to it and its height
   * is then forced back to FIXED_Y. With a unit axis step as direction the
   * head moves by exactly one hundredth.
   */
  function Advance(head: Vec3, direction: Vec3): (r: Vec3)
    ensures r.y == FIXED_Y
    ensures IsAxisStep(direction) ==> Abs(r.x - head.x) + Abs(r.z - head.z) == 1
  {
    Add(head, direction).(y := FIXED_Y)
  }

  /** The chain after the head moved to `newHead`: each segment takes its predecessor's place. */
  function Shifted(segs: seq<Vec3>, newHead: Vec3): (r: seq<Vec3>)
    requires |segs| >= 1
    ensures |r| == |segs|
    ensures r[0] == newHead
    ensures forall i :: 1 <= i < |r| ==> r[i] == segs[i - 1]
  {
    [newHead] + segs[..|segs| - 1]
  }

  /** One call of `move()`. */
  function Moved(s: SnakeState): (r: SnakeState)
    requires |s.segments| >= 1
    ensures r.head == Advance(s.head, s.direction) && r.direction == s.direction
    ensures |r.segments| == |s.segments|
    ensures InBounds(r.head) ==>
              r.gameOvers == s.gameOvers && r.segments[0] == r.head
              && forall i :: 1 <= i < |r.segments| ==> r.segments[i] == s.segments[i - 1]
    ensures !InBounds(r.head) ==>
              r.gameOvers == s.gameOvers + 1 && r.segments == s.segments
              && HeadPosition(r) == HeadPosition(s)
  {
    var h := Advance(s.head, s.direction);
    if InBounds(h) then s.(segments := Shifted(s.segments, h), head := h)
    else s.(head := h, gameOvers := s.gameOvers + 1)
  }

  /** One call of `addSegment()`: a copy of the tail is appended. */
  function Grown(s: SnakeState): (r: SnakeState)
    requires |s.segments| >= 1
    ensures |r.segments| == |s.segments| + 1
    ensures r.segments[..|s.segments|] == s.segments
    ensures r.segments[|s.segments|] == s.segments[|s.segments| - 1]
    ensures r.head == s.head && r.direction == s.direction && r.gameOvers == s.gameOvers
  {
    s.(segments := s.segments + [s.segments[|s.segments| - 1]])
  }

  /** n calls of `addSegment()` in a row. */
  function GrownN(s: SnakeState, n: nat): (r: SnakeState)
    requires |s.segments| >= 1
    ensures |r.segments| == |s.segments| + n
    ensures r.segments[..|s.segments|] == s.segments
    ensures r.head == s.head && r.direction == s.direction && r.gameOvers == s.gameOvers
  {
    if n == 0 then s else Grown(GrownN(s, n - 1))
  }

  /** n copies of p. */
  function Repeat(p: Vec3, n: nat): (r: seq<Vec3>)
    ensures |r| == n && forall i :: 0 <= i < n ==> r[i] == p
  {
    if n == 0 then [] else Repeat(p, n - 1) + [p]
  }

  /** The effect of one key code on the direction (`SnakeBehavior.processStimulus`). */
  function TurnedByKey(d: Vec3, keyCode: int): (r: Vec3)
    ensures r.y == d.y
    ensures IsAxisStep(d) ==> IsAxisStep(r)
    ensures keyCode != VK_LEFT && keyCode != VK_RIGHT ==> r == d
    ensures keyCode == VK_LEFT || keyCode == VK_RIGHT ==> r.x * d.x + r.z * d.z == 0
  {
    if keyCode == VK_LEFT then RotateLeft(d)
    else if keyCode == VK_RIGHT then RotateRight(d)
    else d
  }

  /** The direction after a batch of key events, handled in order. */
  function TurnedByKeys(d: Vec3, keyCodes: seq<int>): (r: Vec3)
    ensures r.y == d.y
    ensures IsAxisStep(d) ==> IsAxisStep(r)
    ensures (forall i :: 0 <= i < |keyCodes| ==> keyCodes[i] != VK_LEFT && keyCodes[i] != VK_RIGHT) ==> r == d
  {
    if keyCodes == [] then d
    else TurnedByKey(TurnedByKeys(d, keyCodes[..|keyCodes| - 1]), keyCodes[|keyCodes| - 1])
  }

  function Count(keyCodes: seq<int>, code: int): nat {
    if keyCodes == [] then 0
    else Count(keyCodes[..|keyCodes| - 1], code) + (if keyCodes[|keyCodes| - 1] == code then 1 else 0)
  }

  // ---------------------------------------------------------------------------
  // Properties of the specification functions

  /** Turning replaces only the direction, and keeps it a horizontal unit step. */
  lemma TurnsKeepInv(s: SnakeState, keyCode: int)
    requires Inv(s)
    ensures Inv(s.(direction := TurnedByKey(s.direction, keyCode)))
  {
  }

  lemma MovedKeepsInv(s: SnakeState)
    requires Inv(s)
    ensures Inv(Moved(s))
  {
    var r := Moved(s);
    if InBounds(r.head) {
      forall i | 0 <= i < |r.segments| ensures r.segments[i].y == FIXED_Y {
        if i > 0 {
          assert r.segments[i] == s.segments[i - 1];
        }
      }
    }
  }

  lemma GrownKeepsInv(s: SnakeState)
    requires Inv(s)
    ensures Inv(Grown(s))
  {
    var r := Grown(s);
    forall i | 0 <= i < |r.segments| ensures r.segments[i].y == FIXED_Y {
      if i < |s.segments| {
        assert r.segments[i] == r.segments[..|s.segments|][i];
      }
    }
  }

  /** n growth steps append exactly n copies of the old tail and change nothing else. */
  lemma {:induction false} GrownNAppendsTail(s: SnakeState, n: nat)
    requires |s.segments| >= 1
    ensures GrownN(s, n).segments == s.segments + Repeat(s.segments[|s.segments| - 1], n)
    ensures |GrownN(s, n).segments| == |s.segments| + n
    ensures GrownN(s, n).head == s.head && GrownN(s, n).direction == s.direction
    ensures GrownN(s, n).gameOvers == s.gameOvers
  {
    var tail := s.segments[|s.segments| - 1];
    if n > 0 {
      GrownNAppendsTail(s, n - 1);
      var p := GrownN(s, n - 1);
      assert p.segments == s.segments + Repeat(tail, n - 1);
      assert p.segments[|p.segments| - 1] == tail;
      calc {
        GrownN(s, n).segments;
        p.segments + [tail];
        s.segments + Repeat(tail, n - 1) + [tail];
        s.segments + (Repeat(tail, n - 1) + [tail]);
      }
    }
  }

  lemma {:induction false} GrownNKeepsInv(s: SnakeState, n: nat)
    requires Inv(s)
    ensures Inv(GrownN(s, n))
  {
    if n > 0 {
      GrownNKeepsInv(s, n - 1);
      GrownKeepsInv(GrownN(s, n - 1));
    }
  }

  /** A batch of key events turns the direction by (#left - #right) quarter turns. */
  lemma {:induction false} NetTurn(d: Vec3, keyCodes: seq<int>)
    ensures TurnedByKeys(d, keyCodes)
            == RotateQuarters(d, Count(keyCodes, VK_LEFT) - Count(keyCodes, VK_RIGHT))
  {
    if keyCodes != [] {
      var init := keyCodes[..|keyCodes| - 1];
      var k := Count(init, VK_LEFT) - Count(init, VK_RIGHT);
      NetTurn(d, init);
      RotateQuartersStep(d, k);
    }
  }

  /** A left and a right turn in either order cancel. */
  lemma TurnBack(d: Vec3)
    ensures TurnedByKeys(d, [VK_LEFT, VK_RIGHT]) == d
    ensures TurnedByKeys(d, [VK_RIGHT, VK_LEFT]) == d
  {
    assert [VK_LEFT, VK_RIGHT][..1] == [VK_LEFT] && [VK_LEFT][..0] == [];
    assert [VK_RIGHT, VK_LEFT][..1] == [VK_RIGHT] && [VK_RIGHT][..0] == [];
    assert TurnedByKeys(d, [VK_LEFT]) == RotateLeft(d);
    assert TurnedByKeys(d, [VK_RIGHT]) == RotateRight(d);
    LeftThenRight(d);
  }

  /** What may happen to a snake between two observations. */
  datatype Step = MoveTick | GrowOnce | KeyPress(keyCode: int)

  function Apply(s: SnakeState, e: Step): SnakeState
    requires |s.segments| >= 1
  {
    match e
    case MoveTick => Moved(s)
    case GrowOnce => Grown(s)
    case KeyPress(c) => s.(direction := TurnedByKey(s.direction, c))
  }

  function Run(s: SnakeState, steps: seq<Step>): (r: SnakeState)
    requires |s.segments| >= 1
    ensures |r.segments| >= 1
  {
    if steps == [] then s
    else
      var p := Run(s, steps[..|steps| - 1]);
      Apply(p, steps[|steps| - 1])
  }

  /**
   * Over any sequence of moves, growth and key presses the invariant holds,
   * the segment count never shrinks and once a game over was signalled the
   * signal count never drops back.
   */
  lemma {:induction false} RunKeepsInv(s: SnakeState, steps: seq<Step>)
    requires Inv(s)
    ensures Inv(Run(s, steps))
    ensures |Run(s, steps).segments| >= |s.segments|
    ensures Run(s, steps).gameOvers >= s.gameOvers
  {
    if steps != [] {
      var p := Run(s, steps[..|steps| - 1]);
      RunKeepsInv(s, steps[..|steps| - 1]);
      match steps[|steps| - 1]
      case MoveTick => MovedKeepsInv(p);
      case GrowOnce => GrownKeepsInv(p);
      case KeyPress(c) => TurnsKeepInv(p, c);
    }
  }

  /**
   * After k moves that all stayed inside the walls, segment i (i >= k) sits
   * where segment i - k sat before: the body follows the head's trail.
   */
  lemma {:induction false} BodyFollowsTrail(s: SnakeState, k: nat)
    requires |s.segments| >= 1
    requires forall j :: 0 <= j < k ==> InBounds(Moved(MovedN(s, j)).head)
    ensures |MovedN(s, k).segments| == |s.segments|
    ensures forall i :: k <= i < |s.segments| ==> MovedN(s, k).segments[i] == s.segments[i - k]
  {
    if k > 0 {
      BodyFollowsTrail(s, k - 1);
    }
  }

  function MovedN(s: SnakeState, n: nat): (r: SnakeState)
    requires |s.segments| >= 1
    ensures |r.segments| == |s.segments|
  {
    if n == 0 then s else Moved(MovedN(s, n - 1))
  }

  /**
   * Nothing stops the moves after the head first crosses a wall. As long as
   * no key turns the snake, every later move crosses it further, signals
   * game over again and leaves the chain where it was, while the head field
   * runs on along the direction.
   */
  lemma {:induction false} WallHitRepeats(s: SnakeState, k: nat)
    requires Inv(s) && InBounds(s.head) && !InBounds(Advance(s.head, s.direction))
    ensures MovedN(s, k).segments == s.segments
    ensures MovedN(s, k).gameOvers == s.gameOvers + k
    ensures MovedN(s, k).direction == s.direction
    ensures MovedN(s, k).head == Vec3(s.head.x + k * s.direction.x, FIXED_Y, s.head.z + k * s.direction.z)
  {
    if k > 0 {
      WallHitRepeats(s, k - 1);
      var d := s.direction;
      var p := MovedN(s, k - 1);
      assert MovedN(s, k) == Moved(p);
      assert (k - 1) * d.x + d.x == k * d.x && (k - 1) * d.z + d.z == k * d.z;
      assert Advance(p.head, d).x == s.head.x + k * d.x;
      assert Advance(p.head, d).z == s.head.z + k * d.z;
      StillOutside(s.head, d, k);
    }
  }

  /** k >= 1 steps along d from a point inside, whose first step leaves the field, end outside. */
  lemma StillOutside(h: Vec3, d: Vec3, k: nat)
    requires IsAxisStep(d) && InBounds(h) && !InBounds(Advance(h, d)) && k >= 1
    ensures !InBounds(Vec3(h.x + k * d.x, FIXED_Y, h.z + k * d.z))
  {
    if d.x == 1 || d.x == -1 {
      assert d.z == 0;
    } else {
      assert d.x == 0;
    }
  }

  /**
   * The key listener is not stopped either: two left turns right after the
   * first wall crossing reverse the direction, the next move brings the head
   * field back to where it was before the crossing, inside the walls, and
   * the chain moves again (with the head position in segments 0 and 1).
   */
  lemma TurnAroundResumes(s: SnakeState)
    requires Inv(s) && InBounds(s.head) && !InBounds(Advance(s.head, s.direction))
    ensures var back := Moved(s).(direction := TurnedByKeys(s.direction, [VK_LEFT, VK_LEFT]));
            var r := Moved(back);
            && Moved(s).gameOvers == s.gameOvers + 1 && Moved(s).segments == s.segments
            && r.head == s.head && InBounds(r.head)
            && r.gameOvers == s.gameOvers + 1
            && r.segments == Shifted(s.segments, s.head)
  {
    assert [VK_LEFT, VK_LEFT][..1] == [VK_LEFT] && [VK_LEFT][..0] == [];
    assert TurnedByKeys(s.direction, [VK_LEFT]) == RotateLeft(s.direction);
    assert TurnedByKeys(s.direction, [VK_LEFT, VK_LEFT]) == RotateLeft(RotateLeft(s.direction));
  }

  // ---------------------------------------------------------------------------
  // Scenarios

  /** Head at (4.99, -0.4, 0) moving +Z: the head reaches (4.99, -0.4, 0.01), no game over. */
  lemma NearWallStaysInside()
    ensures var s := SnakeState([Vec3(499, FIXED_Y, 0)], Vec3(499, FIXED_Y, 0), Vec3(0, 0, 1), 0);
            Moved(s).segments == [Vec3(499, FIXED_Y, 1)] && Moved(s).gameOvers == 0
  {
  }

  /** Head exactly on the wall at x = 5 moving +X: x = 5.01 is outside, game over, chain unchanged. */
  lemma OnWallStepsOut()
    ensures var s := SnakeState([Vec3(500, FIXED_Y, 0)], Vec3(500, FIXED_Y, 0), Vec3(1, 0, 0), 0);
            Moved(s).segments == s.segments && Moved(s).gameOvers == 1
            && Moved(s).head == Vec3(501, FIXED_Y, 0) && HeadPosition(Moved(s)) == Vec3(500, FIXED_Y, 0)
  {
  }

  // ---------------------------------------------------------------------------
  // The mutable snake

  class Snake {
    var segments: seq<Vec3>
    var headPosition: Vec3
    var direction: Vec3
    /** Calls of `MainApp.instance.showGameOverScreen()` so far. */
    var gameOverSignals: nat

    function State(): SnakeState
      reads this
    {
      SnakeState(segments, headPosition, direction, gameOverSignals)
    }

    ghost predicate Valid()
      reads this
    {
      Inv(State())
    }

    constructor (startPosition: Vec3)
      ensures Valid()
      ensures State() == Initial(startPosition)
    {
      headPosition := startPosition.(y := FIXED_Y);
      direction := START_DIRECTION;
      segments := [headPosition];
      gameOverSignals := 0;
      new;
      assert State() == Initial(startPosition);
    }

    method Move()
      requires Valid()
      modifies this
      ensures Valid()
      ensures State() == Moved(old(State()))
    {
      ghost var s0 := State();
      var prevPositions: seq<Vec3> := [];
      var k := 0;
      while k < |segments|
        invariant 0 <= k <= |segments|
        invariant prevPositions == segments[..k]
      {
        prevPositions := prevPositions + [segments[k]];
        k := k + 1;
      }
      assert prevPositions == segments == s0.segments;

      headPosition := Add(headPosition, direction);
      headPosition := headPosition.(y := FIXED_Y);
      assert headPosition == Advance(s0.head, s0.direction);

      if headPosition.x < -WALL || headPosition.x > WALL
         || headPosition.z < -WALL || headPosition.z > WALL {
        gameOverSignals := gameOverSignals + 1;
        assert State() == Moved(s0);
        MovedKeepsInv(s0);
        return;
      }

      assert InBounds(headPosition);
      segments := segments[0 := headPosition];
      var i := 1;
      while i < |segments|
        invariant 1 <= i <= |segments| == |prevPositions|
        invariant segments[0] == headPosition
        invariant forall j :: 1 <= j < i ==> segments[j] == prevPositions[j - 1]
        invariant forall j :: i <= j < |segments| ==> segments[j] == prevPositions[j]
        invariant headPosition == Advance(s0.head, s0.direction)
        invariant direction == s0.direction && gameOverSignals == s0.gameOvers
      {
        segments := segments[i := prevPositions[i - 1]];
        i := i + 1;
      }
      assert segments == Shifted(prevPositions, headPosition);
      assert State() == Moved(s0);
      MovedKeepsInv(s0);
    }

    method AddSegment()
      requires Valid()
      modifies this
      ensures Valid()
      ensures State() == Grown(old(State()))
    {
      GrownKeepsInv(State());
      var tailPos := segments[|segments| - 1];
      segments := segments + [tailPos];
    }

    method TurnLeft()
      requires Valid()
      modifies this
      ensures Valid()
      ensures direction == RotateLeft(old(direction))
      ensures segments == old(segments) && headPosition == old(headPosition)
      ensures gameOverSignals == old(gameOverSignals)
    {
      TurnsKeepInv(State(), VK_LEFT);
      direction := RotateLeft(direction);
    }

    method TurnRight()
      requires Valid()
      modifies this
      ensures Valid()
      ensures direction == RotateRight(old(direction))
      ensures segments == old(segments) && headPosition == old(headPosition)
      ensures gameOverSignals == old(gameOverSignals)
    {
      TurnsKeepInv(State(), VK_RIGHT);
      direction := RotateRight(direction);
    }

    function GetDirection(): (d: Vec3)
      reads this
      requires Valid()
      ensures IsAxisStep(d)
    {
      direction
    }

    function GetHeadPosition(): (p: Vec3)
      reads this
      requires Valid()
      ensures p.y == FIXED_Y
      ensures gameOverSignals == 0 || InBounds(headPosition) ==> p == headPosition
    {
      segments[0]
    }
  }

  /** The key listener of the snake: left arrow turns left, right arrow turns right. */
  class SnakeBehavior {
    const snake: Snake

    constructor (snake: Snake)
      ensures this.snake == snake
    {
      this.snake := snake;
    }

    /** Handle one batch of key-pressed events, in order. */
    method ProcessStimulus(keyCodes: seq<int>)
      requires snake.Valid()
      modifies snake
      ensures snake.Valid()
      ensures snake.direction == TurnedByKeys(old(snake.direction), keyCodes)
      ensures snake.segments == old(snake.segments) && snake.headPosition == old(snake.headPosition)
      ensures snake.gameOverSignals == old(snake.gameOverSignals)
    {
      var n := 0;
      while n < |keyCodes|
        invariant 0 <= n <= |keyCodes|
        invariant snake.Valid()
        invariant snake.direction == TurnedByKeys(old(snake.direction), keyCodes[..n])
        invariant snake.segments == old(snake.segments) && snake.headPosition == old(snake.headPosition)
        invariant snake.gameOverSignals == old(snake.gameOverSignals)
      {
        ghost var next := TurnedByKey(snake.direction, keyCodes[n]);
        assert keyCodes[..n + 1][..n] == keyCodes[..n];
        assert TurnedByKeys(old(snake.direction), keyCodes[..n + 1]) == next;
        if keyCodes[n] == VK_LEFT {
          snake.TurnLeft();
        } else if keyCodes[n] == VK_RIGHT {
          snake.TurnRight();
        }
        n := n + 1;
      }
      assert keyCodes[..n] == keyCodes;
    }
  }
}
