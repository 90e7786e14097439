/** The player record (src/player.rs); its sprite and texture are left out. */
module Players {
  import opened Shapes

  const MovementSpeed: real := 1.0

  /**
   * `speed` is the downward velocity and `offsetY` how far the player has
   * fallen below its resting height, counted negatively while falling.
   */
  datatype Player = Player(shape: Shape, speed: real, offsetY: real)

  /** `Player::new`: starts at `MOVEMENT_SPEED` with no offset. */
  function New(shape: Shape): (p: Player)
    ensures p.shape == shape && p.speed == MovementSpeed && p.offsetY == 0.0
  {
    Player(shape, MovementSpeed, 0.0)
  }
}
