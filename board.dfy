/** A paddle ("board") moved vertically by the up and down keys. */
module Boards {
  import opened Config

  /** Pixels a board moves per tick. */
  const BOARD_SPEED: int := 5
  const BOARD_WIDTH: int := 20
  const BOARD_HEIGHT: int := 120

  /** A board's simulated fields, (x, y) being its top-left corner; its colour is not modelled. */
  datatype BoardState = BoardState(x: int, y: int, speed: int, width: int, height: int)

  /** What `Board::new(x, y)` builds. */
  function NewBoard(x: int, y: int): (b: BoardState) {
    BoardState(x, y, BOARD_SPEED, BOARD_WIDTH, BOARD_HEIGHT)
  }

  /** The up branch: taken only when the top edge stays strictly greater than 0. */
  function MoveUp(b: BoardState, up: bool): (r: BoardState) {
    if up && b.y - b.speed > 0 then b.(y := b.y - b.speed) else b
  }

  /** The down branch: taken only when the bottom edge stays strictly less than `HEIGHT`. */
  function MoveDown(b: BoardState, down: bool): (r: BoardState) {
    if down && b.y + b.height + b.speed < HEIGHT then b.(y := b.y + b.speed) else b
  }

  /** One `Board::update`: the up branch, then, independently, the down branch. */
  function BoardStep(b: BoardState, up: bool, down: bool): (r: BoardState)
    ensures r.x == b.x && r.speed == b.speed && r.width == b.width && r.height == b.height
    ensures !up && !down ==> r == b
    ensures up && !down ==> r.y == (if b.y - b.speed > 0 then b.y - b.speed else b.y)
    ensures !up && down ==> r.y == (if b.y + b.height + b.speed < HEIGHT then b.y + b.speed else b.y)
    ensures r.y - b.y in {-b.speed, 0, b.speed}
  {
    MoveDown(MoveUp(b, up), down)
  }

  /** The board lies strictly inside the court vertically (and its speed is not negative). */
  predicate Clamped(b: BoardState) {
    0 <= b.speed && 0 < b.y && b.y + b.height < HEIGHT
  }

  /** A board built at the source's starting height `HEIGHT / 2 - 60` is clamped. */
  lemma NewBoardClamped(x: int)
    ensures NewBoard(x, HEIGHT / 2 - 60).y == 180
    ensures Clamped(NewBoard(x, HEIGHT / 2 - 60))
  {
  }

  /** Every update keeps a clamped board clamped, whatever keys are held. */
  lemma StepKeepsClamped(b: BoardState, up: bool, down: bool)
    requires Clamped(b)
    ensures Clamped(BoardStep(b, up, down))
  {
  }

  /**
   * Both keys held on a clamped board: when the up move is taken the down move is never
   * vetoed and the net movement is zero; when the up move is refused (the board is within
   * one step of the top) the down move alone is taken.
   */
  lemma BothKeys(b: BoardState)
    requires Clamped(b)
    ensures b.y - b.speed > 0 ==> BoardStep(b, true, true).y == b.y
    ensures b.y - b.speed <= 0 ==>
      BoardStep(b, true, true).y == (if b.y + b.height + b.speed < HEIGHT then b.y + b.speed else b.y)
  {
  }

  /** A board that has been driven up to y = 5 moves down when both keys are held. */
  lemma BothKeysNearTopMovesDown(x: int)
    ensures Clamped(NewBoard(x, 5))
    ensures BoardStep(NewBoard(x, 5), true, true).y == 10
  {
  }

  /** The mutable board of the source, with the same fields. */
  class Board {
    var x: int
    var y: int
    var speed: int
    var width: int
    var height: int

    function State(): BoardState
      reads this
    {
      BoardState(x, y, speed, width, height)
    }

    constructor (x0: int, y0: int)
      ensures State() == NewBoard(x0, y0)
    {
      x := x0;
      y := y0;
      speed := BOARD_SPEED;
      width := BOARD_WIDTH;
      height := BOARD_HEIGHT;
    }

    /** Applies the two independent guarded moves in the source's order; only `y` changes. */
    method Update(up: bool, down: bool)
      modifies this`y
      ensures State() == BoardStep(old(State()), up, down)
    {
      if up && y - speed > 0 {
        y := y - speed;
      }
      if down && y + height + speed < HEIGHT {
        y := y + speed;
      }
    }
  }
}
