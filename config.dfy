/** The fixed parameters of the game: the playfield size, the sprite radii,
    the per-tick speeds and the number of obstacles. */
module Config {
  const SCREEN_WIDTH: int := 800
  const SCREEN_HEIGHT: int := 600

  const CHAR_RADIUS: int := 25
  const CHAR_SPEED: int := 5
  /** The player's image is scaled to a square of side CHAR_RADIUS * 2. */
  const CHAR_SIZE: int := CHAR_RADIUS * 2

  const ENEMY_RADIUS: int := 25
  const ENEMY_SPEED: int := 2
  const ENEMY_SIZE: int := ENEMY_RADIUS * 2

  const ENEMY_COUNT: int := 10

  /** Headings of the player's ship, in degrees of counter-clockwise rotation. */
  const HEADING_UP: int := 0
  const HEADING_LEFT: int := 90
  const HEADING_DOWN: int := 180
  const HEADING_RIGHT: int := 270

  function Abs(n: int): (r: int)
    ensures r >= 0 && (r == n || r == -n)
  {
    if n < 0 then -n else n
  }
}
