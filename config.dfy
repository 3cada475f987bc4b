/** Screen, world and player constants of the game, and the integer
    `Math.max`/`Math.min` the movement code clamps with. Every value the
    movement code computes is a small integer, so JavaScript's double
    arithmetic is exact on them and `int` models it faithfully. */
module Config {
  /** Size of the visible canvas (the viewport). */
  const WIDTH: int := 800
  const HEIGHT: int := 500
  /** Size of the whole world. */
  const MAX_WIDTH: int := 1200
  const MAX_HEIGHT: int := 800
  /** Dead-zone margin: the camera follows the player only inside it. */
  const MAP_SCROLL_PADDING: int := 100

  const PLAYER_SIZE: int := 20
  /** Distance the player (and a following camera) moves per frame and held key. */
  const PLAYER_SPEED: int := 10

  function Max(a: int, b: int): (m: int)
    ensures m >= a && m >= b && (m == a || m == b)
  {
    if a >= b then a else b
  }

  function Min(a: int, b: int): (m: int)
    ensures m <= a && m <= b && (m == a || m == b)
  {
    if a <= b then a else b
  }
}
