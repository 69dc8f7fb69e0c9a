# Bounce-only Pong court, modelled in Dafny

This project models the per-frame simulation of a small Pong game written in Rust on raylib (`src/main.rs`). A ball bounces inside an 800×480 court. Two boards (paddles) at columns 10 and `WIDTH - 30` move up and down with the same two keys. In this variant there is no scoring, no computer player and no ball–board collision.

- `config.dfy` (module `Config`): the court constants `WIDTH`, `HEIGHT` and `FPS`, the `i32` range, and `Abs`.
- `ball.dfy` (module `Balls`): the ball's state as a value (`BallState`), one tick as a function (`Step`), and the mutable `Ball` class whose `Update` method is proved to change its fields exactly as `Step` says. `InCourt` is an invariant that contains every state the ball can be in at the start of a tick.
- `board.dfy` (module `Boards`): the same for a board (`BoardState`, `BoardStep`, class `Board`), with the clamp invariant `Clamped` and the facts about holding both keys.
- `game.dfy` (module `Game`): the body of `main`'s loop (`Tick`: the ball first, then the left board, then the right board, all with the same keys) and the loop itself (`Play`). The loop runs once per element of a finite sequence of key states, because the window-close signal is external. `Run` is the value-level specification of that loop, and `Steady` is its invariant.

Points where the code decides:
- The ball's side-wall test is inclusive on both sides (`x + r >= WIDTH`, `x - r <= 0`). Its vertical test is inclusive at the bottom and strict at the top (`y - r < 0`). From the initial state the ball's centre stays in [20, 780] × [15, 460], so the ball may overlap the top wall by 5 pixels but never the other walls (`Balls.StepStaysInCourt`).
- A board stays strictly inside the court (`0 < y` and `y + height < HEIGHT`), not within `[0, HEIGHT - height]`. The model follows the code.
- When both keys are held, the net movement is zero only if the up move is taken. A board within one step of the top (y = 5, which it reaches from y = 180 by holding up) moves down instead (`Boards.BothKeys`, `Boards.BothKeysNearTopMovesDown`).
- The radius is the `f32` value 20.0, but the update only uses `radius as i32`. It is modelled as the integer 20.

## Model

| member | source | states |
|---|---|---|
| `Balls.Step` | src/main.rs:30-42 | one tick keeps the radius and both speed magnitudes; a non-zero `speed_x` changes sign exactly when `x + r >= WIDTH` or `x - r <= 0`; a non-zero `speed_y` changes sign exactly when `y + r >= HEIGHT` or `y - r < 0`; the position then moves by the new velocity |
| `Balls.Ball.Update` | src/main.rs:30-42 | the method's reflect-then-move steps leave the object in state `Step(old state)`; it changes only `x`, `y`, `speed_x`, `speed_y` |
| `Balls.Ball.constructor` | src/main.rs:19-28 | a new ball is at (WIDTH/2, HEIGHT/2) = (400, 240) with velocity (5, 5) and radius 20 |
| `Balls.NewBallInCourt` | src/main.rs:19-28 | the new ball satisfies the in-court invariant |
| `Balls.NewBallFirstStep` | src/main.rs:19-42 | one tick from the new ball gives position (405, 245) with velocity (5, 5) unchanged |
| `Balls.StepStaysInCourt` | src/main.rs:30-42 | the in-court invariant (speeds ±5, centre on the 5-pixel grid within [20, 780] × [15, 460]) survives every tick; so the ball's edge never crosses the side or bottom walls and overlaps the top wall by at most 5 pixels |
| `Boards.BoardStep` | src/main.rs:72-80 | an update changes only `y`, and by `-speed`, 0 or `+speed`; with no key `y` is unchanged; up alone moves by `-speed` exactly when `y - speed > 0`; down alone moves by `+speed` exactly when `y + height + speed < HEIGHT` |
| `Boards.Board.Update` | src/main.rs:72-80 | the two sequential guarded moves leave the object in state `BoardStep(old state, up, down)`; only `y` changes |
| `Boards.Board.constructor` | src/main.rs:61-70 | a new board has the given position, speed 5, width 20 and height 120 |
| `Boards.NewBoardClamped` | src/main.rs:61-70 | a board built at `HEIGHT / 2 - 60` has y = 180 and is strictly inside the court |
| `Boards.StepKeepsClamped` | src/main.rs:72-80 | every update keeps `0 < y && y + height < HEIGHT` (with a non-negative speed, as the source's speed of 5 is), for every key combination |
| `Boards.BothKeys` | src/main.rs:73-79 | both keys on a clamped board: if the up move is taken, the down move is never vetoed and the net movement is zero; otherwise only the guarded down move applies |
| `Boards.BothKeysNearTopMovesDown` | src/main.rs:73-79 | a clamped board at y = 5 with both keys held moves to y = 10 |
| `Game.InitialSteady` | src/main.rs:94-96 | the ball and the two boards that `main` builds satisfy the loop invariant |
| `Game.TickKeepsSteady` | src/main.rs:100-105 | one iteration (ball, left board, right board, shared keys) keeps the loop invariant |
| `Game.RunKeepsSteady` | src/main.rs:98-105 | after any sequence of frames: ball in court with speeds ±5, both boards clamped, at the same `y`, at columns 10 and `WIDTH - 30` |
| `Game.RunKeepsLockStep` | src/main.rs:104-105 | from any state, two boards that agree on `y`, speed and size keep agreeing under shared keys, and neither column changes |
| `Game.RunKeepsBallSpeeds` | src/main.rs:101 | from any state, any number of ticks leaves the ball's radius and the magnitudes of both speeds unchanged |
| `Game.SteadyFitsI32` | src/main.rs:30-80 | in every steady state and for any keys, every value one tick computes fits in `i32`: the ball's wall-test sums and differences, the negated speeds, the position after the reflection, both board guards (the down guard on the `y` the up move left) and each moved `y` |
| `Game.Tick` | src/main.rs:100-105 | the loop body updates the ball, then the left board, then the right board with the same keys, giving `TickState` of the old states |
| `Game.Play` | src/main.rs:94-105 | after building the objects and running one iteration per frame, the final state is `Run(InitialWorld(), frames)` and satisfies the loop invariant |

## Left out
- Window creation, `set_target_fps` and the `window_should_close` condition (src/main.rs:88-92, 98): window handling and frame pacing are external. The loop runs for a given finite sequence of frames.
- Keyboard polling (`is_key_down`): each frame's up/down state is a `Keys` value. Both boards are handed the same value, because the key state a frame reports is fixed for that frame.
- All drawing (`Ball::draw`, `Board::draw`, `draw_line`, `clear_background`) and the `color` fields: these only render and change no simulation state.
- The `f32` radius: only its `as i32` value, 20, is used by the simulation.
- `Balls.Ball.Update`: i32 overflow (a panic in debug builds, wrap-around in release) is not modelled, because coordinates are unbounded integers. `Game.SteadyFitsI32` shows that no state reachable from `main`'s start comes near the `i32` limits.
- `Boards.Board.Update`: i32 overflow (a panic in debug builds, wrap-around in release) is likewise not modelled; `Game.SteadyFitsI32` covers the reachable states.
- Scoring, ball reset and randomisation, a computer-driven board and ball–board collision: none of these exist in this source file.
