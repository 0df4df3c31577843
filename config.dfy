/** The numeric constants of the game configuration (src/config.ts). */
module Config {
  const CANVAS_WIDTH: real := 1920.0
  const CANVAS_HEIGHT: real := 1080.0
  const DEFAULT_ENTITY_COUNT: int := 8
  const MIN_RADIUS: real := 10.0
  const MAX_RADIUS: real := 30.0
  const MIN_VELOCITY: real := -100.0
  const MAX_VELOCITY: real := 100.0
  /** Pointer hit radius, in world units. */
  const CLICK_RADIUS: real := 15.0
}
