/** Game-wide constants of settings.py. */
module Settings {
  /** Frames per second of the fixed-rate frame driver. */
  const FPS: int := 30
  const SCREEN_WIDTH: int := 256
  const SCREEN_HEIGHT: int := 200

  /** Countdown value a (re)started level begins with. */
  const STARTING_TIME: int := 500
  const TILE_SIZE: int := 16
  /** Width in pixels of the shipped level: its first row has 220 characters. */
  const WORLD_WIDTH: int := 220 * TILE_SIZE
  const ITEM_SIZE: int := 16

  /** Gravity added to a vertical velocity every frame, and the cap for entities. */
  const GRAVITY: int := 1
  const MAX_ACCELERATION: int := 10

  const GOOMBA_SPEED: int := 1
  const KOOPA_SPEED: int := 1
  /** Half-width of the band a walking KoopaTroopa patrols around its spawn x. */
  const KOOPA_AREA: int := 64
}
