/** The ball: integer position and velocity, reflected by the four court walls. */
module Balls {
  import opened Config

  /** The ball's 20.0 radius after the `as i32` cast the update performs. */
  const RADIUS: int := 20
  /** Initial speed along each axis, in pixels per tick. */
  const INITIAL_SPEED: int := 5

  /** The ball's simulated fields; its colour is only drawn and is not modelled. */
  datatype BallState = BallState(x: int, y: int, speedX: int, speedY: int, radius: int)

  /** What `Ball::new` builds: a ball at the court centre moving down and right. */
  function NewBall(): (b: BallState) {
    BallState(WIDTH / 2, HEIGHT / 2, INITIAL_SPEED, INITIAL_SPEED, RADIUS)
  }

  /** The left/right test: inclusive on both sides. */
  predicate TouchesSideWall(s: BallState) {
    s.x + s.radius >= WIDTH || s.x - s.radius <= 0
  }

  /** The bottom/top test: inclusive at the bottom, strict at the top. */
  predicate TouchesTopOrBottom(s: BallState) {
    s.y + s.radius >= HEIGHT || s.y - s.radius < 0
  }

  /** One tick of `Ball::update`: reflect first, then move by the new velocity. */
  function Step(s: BallState): (t: BallState)
    ensures t.radius == s.radius
    ensures Abs(t.speedX) == Abs(s.speedX) && Abs(t.speedY) == Abs(s.speedY)
    ensures s.speedX != 0 ==> (t.speedX != s.speedX <==> TouchesSideWall(s))
    ensures s.speedY != 0 ==> (t.speedY != s.speedY <==> TouchesTopOrBottom(s))
    ensures t.x - s.x == t.speedX && t.y - s.y == t.speedY
  {
    var vx := if TouchesSideWall(s) then -s.speedX else s.speedX;
    var vy := if TouchesTopOrBottom(s) then -s.speedY else s.speedY;
    BallState(s.x + vx, s.y + vy, vx, vy, s.radius)
  }

  /**
   * An inductive invariant that contains every state a ball started by `NewBall` can
   * be in at the start of a tick (it also admits some unreachable states): speeds of magnitude 5, the centre on the 5-pixel grid, horizontally within
   * [RADIUS, WIDTH - RADIUS] and vertically within [RADIUS - 5, HEIGHT - RADIUS].
   * The ball only sits on an extreme column or row while moving towards that wall.
   */
  predicate InCourt(s: BallState) {
    s.radius == RADIUS &&
    (s.speedX == INITIAL_SPEED || s.speedX == -INITIAL_SPEED) &&
    (s.speedY == INITIAL_SPEED || s.speedY == -INITIAL_SPEED) &&
    s.x % INITIAL_SPEED == 0 && s.y % INITIAL_SPEED == 0 &&
    RADIUS <= s.x <= WIDTH - RADIUS &&
    RADIUS - INITIAL_SPEED <= s.y <= HEIGHT - RADIUS &&
    (s.x == WIDTH - RADIUS ==> s.speedX > 0) &&
    (s.x == RADIUS ==> s.speedX < 0) &&
    (s.y == HEIGHT - RADIUS ==> s.speedY > 0) &&
    (s.y == RADIUS - INITIAL_SPEED ==> s.speedY < 0)
  }

  lemma NewBallInCourt()
    ensures InCourt(NewBall())
  {
  }

  /** From the initial state one tick moves the ball to (405, 245) with its velocity kept. */
  lemma NewBallFirstStep()
    ensures Step(NewBall()) == BallState(405, 245, 5, 5, 20)
  {
  }

  /**
   * `InCourt` is kept by every tick. Its edges say the ball never crosses the side walls
   * or the bottom wall, but may overlap the top wall by one tick of travel.
   */
  lemma StepStaysInCourt(s: BallState)
    requires InCourt(s)
    ensures InCourt(Step(s))
    ensures 0 <= Step(s).x - Step(s).radius && Step(s).x + Step(s).radius <= WIDTH
    ensures -INITIAL_SPEED <= Step(s).y - Step(s).radius && Step(s).y + Step(s).radius <= HEIGHT
  {
  }

  /** The mutable ball of the source, with the same fields. */
  class Ball {
    var x: int
    var y: int
    var speedX: int
    var speedY: int
    var radius: int

    function State(): BallState
      reads this
    {
      BallState(x, y, speedX, speedY, radius)
    }

    constructor ()
      ensures State() == NewBall()
    {
      x := WIDTH / 2;
      y := HEIGHT / 2;
      speedX := INITIAL_SPEED;
      speedY := INITIAL_SPEED;
      radius := RADIUS;
    }

    /** Reflects off the walls, then advances by the new velocity; the radius stays. */
    method Update()
      modifies this`x, this`y, this`speedX, this`speedY
      ensures State() == Step(old(State()))
    {
      var r := radius;
      if x + r >= WIDTH || x - r <= 0 {
        speedX := speedX * -1;
      }
      if y + r >= HEIGHT || y - r < 0 {
        speedY := speedY * -1;
      }
      x := x + speedX;
      y := y + speedY;
    }
  }
}
