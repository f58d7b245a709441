/** The snake game's logic (snake_game/game.py) without rendering: a snake
    on a 30 by 20 grid that wraps at the edges, resets when it runs into its
    own body, grows when it eats and ignores a key press pointing straight
    back. The frame loop's key presses and the random food positions are
    inputs. */
module SnakeGame {

  const Width: int := 600
  const Height: int := 400
  const GridSize: int := 20
  const GridWidth: int := Width / GridSize
  const GridHeight: int := Height / GridSize

  datatype Pos = Pos(x: int, y: int)

  /** The four values `snake.direction` takes: (0,-1), (0,1), (-1,0) and (1,0). */
  datatype Direction = Up | Down | Left | Right

  datatype Key = KeyUp | KeyDown | KeyLeft | KeyRight | OtherKey

  function DeltaX(d: Direction): int {
    match d
    case Left => -1
    case Right => 1
    case _ => 0
  }

  function DeltaY(d: Direction): int {
    match d
    case Up => -1
    case Down => 1
    case _ => 0
  }

  function Opposite(d: Direction): Direction {
    match d
    case Up => Down
    case Down => Up
    case Left => Right
    case Right => Left
  }

  const Centre: Pos := Pos(GridWidth / 2, GridHeight / 2)

  predicate InGrid(p: Pos) {
    0 <= p.x < GridWidth && 0 <= p.y < GridHeight
  }

  /** One cell in direction d, wrapping around the edges (Python's % with a
      positive modulus, which is Dafny's). */
  function Step(p: Pos, d: Direction): Pos {
    Pos((p.x + DeltaX(d)) % GridWidth, (p.y + DeltaY(d)) % GridHeight)
  }

  /** Cell a is one step from cell b. */
  predicate Adjacent(a: Pos, b: Pos) {
    exists d: Direction :: Step(b, d) == a
  }

  predicate NoRepeats(ps: seq<Pos>) {
    forall i, j :: 0 <= i < j < |ps| ==> ps[i] != ps[j]
  }

  // ---------------------------------------------------------------------------
  // The snake as a value

  datatype State = State(length: int, positions: seq<Pos>, direction: Direction, score: int)

  /** What reset() leaves: length 3, one cell at the centre, heading right, score 0. */
  const Initial: State := State(3, [Centre], Right, 0)

  /** The invariant of the game: a body of one to `length` cells inside the
      grid, each one step from the next, never overlapping itself, and 10
      points for every cell grown beyond 3. */
  ghost predicate ValidState(s: State) {
    3 <= s.length && 1 <= |s.positions| <= s.length &&
    s.score == 10 * (s.length - 3) &&
    Body(s.positions)
  }

  /** Cells inside the grid, each one step from the next, never overlapping. */
  ghost predicate Body(ps: seq<Pos>) {
    (forall i :: 0 <= i < |ps| ==> InGrid(ps[i])) &&
    (forall i :: 0 <= i < |ps| - 1 ==> Adjacent(ps[i], ps[i + 1])) &&
    NoRepeats(ps)
  }

  /** update(): the next head; a reset when it lies on the body after the
      head, otherwise the head is put in front and the last cell dropped once
      the body is longer than `length`. */
  function Advanced(s: State): State
    requires |s.positions| > 0
  {
    var head := Step(s.positions[0], s.direction);
    if head in s.positions[1..] then Initial
    else
      var grown := [head] + s.positions;
      State(s.length, if |grown| > s.length then grown[..|grown| - 1] else grown, s.direction, s.score)
  }

  /** The eat rule of main: one cell longer and 10 points more. */
  function Eaten(s: State): State {
    State(s.length + 1, s.positions, s.direction, s.score + 10)
  }

  lemma InitialValid()
    ensures ValidState(Initial)
  {
  }

  /** Wrapping keeps every step inside the grid, and a step always leaves the cell. */
  lemma StepInGrid(p: Pos, d: Direction)
    requires InGrid(p)
    ensures InGrid(Step(p, d))
    ensures Step(p, d) != p
    ensures Step(p, d).x == (p.x + DeltaX(d)) % 30 && Step(p, d).y == (p.y + DeltaY(d)) % 20
  {
  }

  /** A step that misses the body moves the head one cell on, shifts every
      old cell one place back and grows the body by one until it is `length`
      long; a step onto the body resets the snake. */
  lemma AdvancedMoves(s: State)
    requires ValidState(s)
    ensures var head := Step(s.positions[0], s.direction);
      var r := Advanced(s);
      (head in s.positions[1..] ==> r == Initial) &&
      (head !in s.positions[1..] ==>
        r.positions[0] == head &&
        |r.positions| == (if |s.positions| < s.length then |s.positions| + 1 else s.length) &&
        (forall i :: 0 <= i < |r.positions| - 1 ==> r.positions[i + 1] == s.positions[i]) &&
        r.length == s.length && r.direction == s.direction && r.score == s.score)
  {
  }

  /** update() keeps the invariant. */
  lemma AdvancedValid(s: State)
    requires ValidState(s)
    ensures ValidState(Advanced(s))
  {
    var ps := s.positions;
    var head := Step(ps[0], s.direction);
    if head !in ps[1..] {
      StepInGrid(ps[0], s.direction);
      NotInTail(head, ps);
      BodyGrows(head, ps, s.direction);
      var grown := [head] + ps;
      if |grown| > s.length {
        BodyPrefix(grown, |grown| - 1);
      }
    }
  }

  lemma NotInTail(x: Pos, ps: seq<Pos>)
    requires |ps| > 0 && x != ps[0] && x !in ps[1..]
    ensures x !in ps
  {
  }

  /** A new head one step in front of the body, on a free cell of the grid, extends the body. */
  lemma BodyGrows(head: Pos, ps: seq<Pos>, d: Direction)
    requires Body(ps) && |ps| > 0
    requires head == Step(ps[0], d) && InGrid(head) && head !in ps
    ensures Body([head] + ps)
  {
    var grown := [head] + ps;
    assert Adjacent(grown[0], grown[1]);
    assert forall i :: 1 <= i < |grown| ==> grown[i] == ps[i - 1];
  }

  /** Dropping cells from the tail keeps the body a body. */
  lemma BodyPrefix(ps: seq<Pos>, n: nat)
    requires Body(ps) && n <= |ps|
    ensures Body(ps[..n])
  {
    assert forall i :: 0 <= i < n ==> ps[..n][i] == ps[i];
  }

  /** Eating keeps the invariant: the score stays ten per extra cell. */
  lemma EatenValid(s: State)
    requires ValidState(s)
    ensures ValidState(Eaten(s))
    ensures Eaten(s).length == s.length + 1 && Eaten(s).score == s.score + 10
  {
  }

  // ---------------------------------------------------------------------------
  // Steering

  /** The key handling of main as written: each press is checked against the
      direction as the earlier presses of the same frame left it. */
  function TurnAsWritten(dir: Direction, key: Key): Direction {
    match key
    case KeyUp => if dir != Down then Up else dir
    case KeyDown => if dir != Up then Down else dir
    case KeyLeft => if dir != Right then Left else dir
    case KeyRight => if dir != Left then Right else dir
    case OtherKey => dir
  }

  function SteerAsWritten(dir: Direction, keys: seq<Key>): Direction {
    if |keys| == 0 then dir else TurnAsWritten(SteerAsWritten(dir, keys[..|keys| - 1]), keys[|keys| - 1])
  }

  /** One press never picks the reverse of the direction it is checked against. */
  lemma TurnAsWrittenNeverReverses(dir: Direction, key: Key)
    ensures TurnAsWritten(dir, key) != Opposite(dir)
  {
  }

  /** Two presses in one frame do reverse the snake: moving right, Up then
      Left leaves it heading left, straight back into its neck. */
  lemma DoublePressReversesAsWritten()
    ensures SteerAsWritten(Right, [KeyUp, KeyLeft]) == Opposite(Right)
  {
    assert [KeyUp, KeyLeft][..1] == [KeyUp];
    assert [KeyUp][..0] == [];
  }

  /** The reversal ends the game: a three-cell snake moving right whose
      direction becomes left runs into its neck and is reset. */
  lemma ReversalResets()
    ensures Advanced(State(3, [Pos(5, 5), Pos(4, 5), Pos(3, 5)], Left, 0)) == Initial
  {
    assert [Pos(5, 5), Pos(4, 5), Pos(3, 5)][1..][0] == Pos(4, 5);
  }

  /** The key handling as intended: a press is refused when it points against
      `moved`, the direction of the last step, however many presses the frame holds. */
  function Turn(moved: Direction, dir: Direction, key: Key): Direction {
    match key
    case KeyUp => if moved != Down then Up else dir
    case KeyDown => if moved != Up then Down else dir
    case KeyLeft => if moved != Right then Left else dir
    case KeyRight => if moved != Left then Right else dir
    case OtherKey => dir
  }

  function Steer(moved: Direction, dir: Direction, keys: seq<Key>): Direction {
    if |keys| == 0 then dir else Turn(moved, Steer(moved, dir, keys[..|keys| - 1]), keys[|keys| - 1])
  }

  /** However many keys a frame holds, the next step never goes back the way the snake came. */
  lemma {:induction false} SteerNeverReverses(moved: Direction, dir: Direction, keys: seq<Key>)
    requires dir != Opposite(moved)
    ensures Steer(moved, dir, keys) != Opposite(moved)
    decreases |keys|
  {
    if |keys| > 0 {
      SteerNeverReverses(moved, dir, keys[..|keys| - 1]);
    }
  }

  /** A single press in a frame is handled as the source handles it. */
  lemma SinglePressAgrees(dir: Direction, key: Key)
    ensures Steer(dir, dir, [key]) == TurnAsWritten(dir, key)
  {
    assert [key][..0] == [];
  }

  /** The double press of the finding: Up is taken, Left refused. */
  lemma DoublePressCorrected()
    ensures Steer(Right, Right, [KeyUp, KeyLeft]) == Up
  {
    assert [KeyUp, KeyLeft][..1] == [KeyUp];
    assert [KeyUp][..0] == [];
  }

  // ---------------------------------------------------------------------------
  // Food

  predicate HasFree(choices: seq<Pos>, occupied: seq<Pos>) {
    exists i :: 0 <= i < |choices| && choices[i] !in occupied
  }

  /** The first of the random positions that is not on the snake. */
  function FirstFree(choices: seq<Pos>, occupied: seq<Pos>): (p: Pos)
    requires HasFree(choices, occupied)
    ensures p in choices && p !in occupied
  {
    if choices[0] !in occupied then choices[0]
    else
      assert HasFree(choices[1..], occupied) by {
        var i :| 0 <= i < |choices| && choices[i] !in occupied;
        assert choices[1..][i - 1] == choices[i];
      }
      FirstFree(choices[1..], occupied)
  }

  /** The state after the snake, heading `dir`, moves one step and eats when
      its head lands on the food. */
  function FrameWith(s: State, food: Pos, dir: Direction): State
    requires |s.positions| > 0
  {
    var moved := Advanced(State(s.length, s.positions, dir, s.score));
    if moved.positions[0] == food then Eaten(moved) else moved
  }

  /** The state after one frame of main from s: the keys steer as written,
      the snake moves, and it eats when its head lands on the food. */
  function FrameState(s: State, food: Pos, keys: seq<Key>): State
    requires |s.positions| > 0
  {
    FrameWith(s, food, SteerAsWritten(s.direction, keys))
  }

  /** The frame of main eats. */
  predicate Ate(s: State, food: Pos, keys: seq<Key>)
    requires |s.positions| > 0
  {
    Advanced(State(s.length, s.positions, SteerAsWritten(s.direction, keys), s.score)).positions[0] == food
  }

  /** The same frame with the corrected steering. */
  function CorrectedFrameState(s: State, food: Pos, keys: seq<Key>): State
    requires |s.positions| > 0
  {
    FrameWith(s, food, Steer(s.direction, s.direction, keys))
  }

  /** A step in any direction followed by the eat rule keeps the invariant;
      eating adds one cell and 10 points to the moved snake, so a frame that
      eats ends with a score of at least 10, and a frame that does not eat
      leaves the moved snake as it is. */
  lemma FrameWithValid(s: State, food: Pos, dir: Direction)
    requires ValidState(s)
    ensures ValidState(FrameWith(s, food, dir))
    ensures var moved := Advanced(State(s.length, s.positions, dir, s.score));
      var r := FrameWith(s, food, dir);
      (moved.positions[0] == food ==> r.length == moved.length + 1 && r.score == moved.score + 10 && r.score >= 10) &&
      (moved.positions[0] != food ==> r == moved)
  {
    var steered := State(s.length, s.positions, dir, s.score);
    AdvancedValid(steered);
    EatenValid(Advanced(steered));
  }

  /** A frame of main keeps the invariant, whatever keys it holds. */
  lemma FrameValid(s: State, food: Pos, keys: seq<Key>)
    requires ValidState(s)
    ensures ValidState(FrameState(s, food, keys))
    ensures var moved := Advanced(State(s.length, s.positions, SteerAsWritten(s.direction, keys), s.score));
      (Ate(s, food, keys) ==>
        FrameState(s, food, keys).length == moved.length + 1 &&
        FrameState(s, food, keys).score == moved.score + 10 &&
        FrameState(s, food, keys).score >= 10) &&
      (!Ate(s, food, keys) ==> FrameState(s, food, keys) == moved)
  {
    FrameWithValid(s, food, SteerAsWritten(s.direction, keys));
  }

  /** The corrected frame keeps the invariant too, and its step never goes
      back the way the snake came. */
  lemma CorrectedFrameValid(s: State, food: Pos, keys: seq<Key>)
    requires ValidState(s)
    ensures ValidState(CorrectedFrameState(s, food, keys))
    ensures Steer(s.direction, s.direction, keys) != Opposite(s.direction)
  {
    FrameWithValid(s, food, Steer(s.direction, s.direction, keys));
    SteerNeverReverses(s.direction, s.direction, keys);
  }

  /** The snake of three cells heading right, as in DoublePressReversesAsWritten. */
  const HeadingRight: State := State(3, [Pos(5, 5), Pos(4, 5), Pos(3, 5)], Right, 0)

  /** Up then Left in one frame of main: the snake turns back into its neck
      and the game starts over (eating at once only when the food lies on the
      centre). */
  lemma DoublePressFrameResets(food: Pos)
    ensures FrameState(HeadingRight, food, [KeyUp, KeyLeft]) == (if food == Centre then Eaten(Initial) else Initial)
  {
    DoublePressReversesAsWritten();
    ReversalResets();
  }

  /** The same frame with the corrected steering turns up and keeps the body. */
  lemma DoublePressFrameCorrected(food: Pos)
    ensures CorrectedFrameState(HeadingRight, food, [KeyUp, KeyLeft]).positions == [Pos(5, 4), Pos(5, 5), Pos(4, 5)]
    ensures CorrectedFrameState(HeadingRight, food, [KeyUp, KeyLeft]).length == (if food == Pos(5, 4) then 4 else 3)
  {
  }

  // ---------------------------------------------------------------------------
  // The objects

  class Snake {
    var length: int
    var positions: seq<Pos>
    var direction: Direction
    var score: int

    function Current(): State
      reads this
    {
      State(length, positions, direction, score)
    }

    ghost predicate Valid()
      reads this
    {
      ValidState(Current())
    }

    constructor ()
      ensures Current() == Initial && Valid()
    {
      length := 3;
      positions := [Centre];
      direction := Right;
      score := 0;
    }

    method Reset()
      modifies this
      ensures Current() == Initial && Valid()
    {
      length := 3;
      positions := [Centre];
      direction := Right;
      score := 0;
    }

    /** get_head_position: the head, always a cell of the grid. */
    function GetHeadPosition(): (p: Pos)
      reads this
      requires Valid()
      ensures p == positions[0] && InGrid(p)
    {
      positions[0]
    }

    method Update()
      requires Valid()
      modifies this
      ensures Valid()
      ensures Current() == Advanced(old(Current()))
    {
      AdvancedValid(Current());
      var head := GetHeadPosition();
      var newPosition := Pos((head.x + DeltaX(direction)) % GridWidth, (head.y + DeltaY(direction)) % GridHeight);
      if newPosition in positions[1..] {
        Reset();
      } else {
        positions := [newPosition] + positions;
        if |positions| > length {
          positions := positions[..|positions| - 1];
        }
      }
    }
  }

  /** main's loop state: the snake and the food position. */
  class Game {
    const snake: Snake
    var food: Pos

    ghost predicate Valid()
      reads this, snake
    {
      snake.Valid() && InGrid(food)
    }

    constructor (firstFood: Pos)
      requires InGrid(firstFood)
      ensures Valid() && fresh(snake) && snake.Current() == Initial && food == firstFood
    {
      snake := new Snake();
      food := firstFood;
    }

    /** The re-placement loop: randomize, and again while the food is on the snake. */
    method RespawnFood(choices: seq<Pos>)
      requires snake.Valid()
      requires HasFree(choices, snake.positions)
      requires forall i :: 0 <= i < |choices| ==> InGrid(choices[i])
      modifies this
      ensures Valid()
      ensures food == FirstFree(choices, snake.positions)
    {
      food := choices[0];
      var i := 1;
      while food in snake.positions
        invariant 1 <= i <= |choices|
        invariant food == choices[i - 1]
        invariant forall j :: 0 <= j < i - 1 ==> choices[j] in snake.positions
        invariant FirstFree(choices, snake.positions) == FirstFree(choices[i - 1..], snake.positions)
        decreases |choices| - i
      {
        assert HasFree(choices[i - 1..], snake.positions);
        assert choices[i - 1..][1..] == choices[i..];
        food := choices[i];
        i := i + 1;
      }
    }

    /** One pass of main's loop: the key presses of the frame, update, and the
        eat rule with the food re-placed off the snake. */
    method Frame(keys: seq<Key>, choices: seq<Pos>)
      requires Valid()
      requires Ate(snake.Current(), food, keys) ==> HasFree(choices, FrameState(snake.Current(), food, keys).positions)
      requires forall i :: 0 <= i < |choices| ==> InGrid(choices[i])
      modifies this, snake
      ensures Valid()
      ensures snake.Current() == FrameState(old(snake.Current()), old(food), keys)
      ensures Ate(old(snake.Current()), old(food), keys) ==> food == FirstFree(choices, snake.positions)
      ensures !Ate(old(snake.Current()), old(food), keys) ==> food == old(food)
    {
      var k := 0;
      while k < |keys|
        invariant 0 <= k <= |keys|
        invariant snake.direction == SteerAsWritten(old(snake.direction), keys[..k])
        invariant snake.length == old(snake.length) && snake.positions == old(snake.positions)
        invariant snake.score == old(snake.score) && food == old(food)
      {
        assert keys[..k + 1][..k] == keys[..k];
        var key := keys[k];
        if key == KeyUp && snake.direction != Down {
          snake.direction := Up;
        } else if key == KeyDown && snake.direction != Up {
          snake.direction := Down;
        } else if key == KeyLeft && snake.direction != Right {
          snake.direction := Left;
        } else if key == KeyRight && snake.direction != Left {
          snake.direction := Right;
        }
        k := k + 1;
      }
      assert keys[..k] == keys;
      snake.Update();
      if snake.GetHeadPosition() == food {
        EatenValid(snake.Current());
        snake.length := snake.length + 1;
        snake.score := snake.score + 10;
        RespawnFood(choices);
      }
    }
  }
}
