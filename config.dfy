/** Court configuration of the bounce-only Pong court (src/main.rs:4-6). */
module Config {
  /** Court width in pixels. */
  const WIDTH: int := 800
  /** Court height in pixels. */
  const HEIGHT: int := 480
  /** Target frame rate; it only paces the loop and never enters the simulation. */
  const FPS: int := 60

  /** The range of the source's `i32` coordinates. */
  predicate IsI32(v: int) {
    -0x8000_0000 <= v < 0x8000_0000
  }

  function Abs(v: int): (a: int)
    ensures a >= 0 && (a == v || a == -v)
  {
    if v < 0 then -v else v
  }
}
