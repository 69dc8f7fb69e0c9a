/** The frame loop of `main`: one ball and two boards driven by the same pair of keys. */
module Game {
  import opened Config
  import opened Balls
  import opened Boards

  /** The up/down key states polled for one frame. */
  datatype Keys = Keys(up: bool, down: bool)

  /** Everything the loop updates. */
  datatype World = World(ball: BallState, left: BoardState, right: BoardState)

  /** Left board's column. */
  const LEFT_X: int := 10
  /** Right board's column. */
  const RIGHT_X: int := WIDTH - 30

  /** The three objects `main` builds before its loop. */
  function InitialWorld(): (w: World) {
    World(NewBall(), NewBoard(LEFT_X, HEIGHT / 2 - 60), NewBoard(RIGHT_X, HEIGHT / 2 - 60))
  }

  /** One iteration: the ball first, then the left and the right board, with the same keys. */
  function TickState(w: World, k: Keys): (r: World) {
    World(Step(w.ball), BoardStep(w.left, k.up, k.down), BoardStep(w.right, k.up, k.down))
  }

  /** The world after one iteration per element of `frames`, in order. */
  function Run(w: World, frames: seq<Keys>): (r: World)
    decreases |frames|
  {
    if frames == [] then w else TickState(Run(w, frames[..|frames| - 1]), frames[|frames| - 1])
  }

  /** The two boards agree on everything but their column. */
  predicate LockStep(w: World) {
    w.left.y == w.right.y && w.left.speed == w.right.speed &&
    w.left.width == w.right.width && w.left.height == w.right.height
  }

  /** What holds of the world at the start of every iteration of `main`'s loop. */
  predicate Steady(w: World) {
    InCourt(w.ball) && Clamped(w.left) && Clamped(w.right) && LockStep(w) &&
    w.left.x == LEFT_X && w.right.x == RIGHT_X &&
    w.left.speed == BOARD_SPEED && w.left.width == BOARD_WIDTH && w.left.height == BOARD_HEIGHT
  }

  lemma InitialSteady()
    ensures Steady(InitialWorld())
  {
  }

  lemma TickKeepsSteady(w: World, k: Keys)
    requires Steady(w)
    ensures Steady(TickState(w, k))
  {
  }

  /** Over any number of frames the world stays steady: boards in lock-step and clamped, ball in court. */
  lemma {:induction false} RunKeepsSteady(w: World, frames: seq<Keys>)
    requires Steady(w)
    ensures Steady(Run(w, frames))
    decreases |frames|
  {
    if frames != [] {
      RunKeepsSteady(w, frames[..|frames| - 1]);
      TickKeepsSteady(Run(w, frames[..|frames| - 1]), frames[|frames| - 1]);
    }
  }

  /** Two boards that start in lock-step stay in lock-step under shared keys, from any state. */
  lemma {:induction false} RunKeepsLockStep(w: World, frames: seq<Keys>)
    requires LockStep(w)
    ensures LockStep(Run(w, frames))
    ensures Run(w, frames).left.x == w.left.x && Run(w, frames).right.x == w.right.x
    decreases |frames|
  {
    if frames != [] {
      RunKeepsLockStep(w, frames[..|frames| - 1]);
    }
  }

  /** From any state, ticks change the ball's velocity only in sign and never change its radius. */
  lemma {:induction false} RunKeepsBallSpeeds(w: World, frames: seq<Keys>)
    ensures Abs(Run(w, frames).ball.speedX) == Abs(w.ball.speedX)
    ensures Abs(Run(w, frames).ball.speedY) == Abs(w.ball.speedY)
    ensures Run(w, frames).ball.radius == w.ball.radius
    decreases |frames|
  {
    if frames != [] {
      RunKeepsBallSpeeds(w, frames[..|frames| - 1]);
    }
  }

  /**
   * In a steady world every value one tick computes fits the source's `i32`: the wall
   * tests, the negated speeds, the position after the reflection, both board guards
   * (the down guard on the `y` the up branch left) and each moved `y`.
   */
  lemma SteadyFitsI32(w: World, k: Keys)
    requires Steady(w)
    ensures IsI32(w.ball.x + w.ball.radius) && IsI32(w.ball.x - w.ball.radius)
    ensures IsI32(w.ball.y + w.ball.radius) && IsI32(w.ball.y - w.ball.radius)
    ensures IsI32(-w.ball.speedX) && IsI32(-w.ball.speedY)
    ensures IsI32(Step(w.ball).x) && IsI32(Step(w.ball).y)
    ensures IsI32(w.left.y - w.left.speed) && IsI32(MoveUp(w.left, k.up).y)
    ensures IsI32(MoveUp(w.left, k.up).y + w.left.height + w.left.speed)
    ensures IsI32(BoardStep(w.left, k.up, k.down).y)
    ensures IsI32(w.right.y - w.right.speed) && IsI32(MoveUp(w.right, k.up).y)
    ensures IsI32(MoveUp(w.right, k.up).y + w.right.height + w.right.speed)
    ensures IsI32(BoardStep(w.right, k.up, k.down).y)
  {
  }

  /** One pass of the loop body over the three objects `main` owns. */
  method Tick(ball: Ball, left: Board, right: Board, k: Keys)
    requires left != right
    modifies ball, left, right
    ensures World(ball.State(), left.State(), right.State())
         == TickState(World(old(ball.State()), old(left.State()), old(right.State())), k)
  {
    ball.Update();
    left.Update(k.up, k.down);
    right.Update(k.up, k.down);
  }

  /**
   * `main` without its window: build the ball and the two boards, then run one
   * iteration per frame in `frames` (the loop ends where the window would be closed).
   */
  method Play(frames: seq<Keys>) returns (w: World)
    ensures w == Run(InitialWorld(), frames)
    ensures Steady(w)
  {
    var ball := new Ball();
    var left := new Board(LEFT_X, HEIGHT / 2 - 60);
    var right := new Board(RIGHT_X, HEIGHT / 2 - 60);
    var i := 0;
    while i < |frames|
      invariant 0 <= i <= |frames|
      invariant World(ball.State(), left.State(), right.State()) == Run(InitialWorld(), frames[..i])
    {
      assert frames[..i + 1][..i] == frames[..i];
      Tick(ball, left, right, frames[i]);
      i := i + 1;
    }
    w := World(ball.State(), left.State(), right.State());
    assert frames[..|frames|] == frames;
    InitialSteady();
    RunKeepsSteady(InitialWorld(), frames);
  }
}
