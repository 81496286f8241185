/** Shared value types of the game core (src/core/types.ts) and the axis-aligned
    rectangle that PIXI.Rectangle provides to the collision code. */
module CoreTypes {

  datatype Vector2 = Vector2(x: real, y: real)

  /** x, y is the top-left corner. */
  datatype Rect = Rect(x: real, y: real, width: real, height: real)

  datatype GameConfig = GameConfig(
    width: real,
    height: real,
    backgroundColor: int,
    gravity: real,
    targetFPS: int)

  /** The input record: the three movement intents plus the extra actions the
      key map writes (restart, next, debug). */
  datatype InputState = InputState(
    left: bool,
    right: bool,
    jump: bool,
    restart: bool,
    next: bool,
    debug: bool)

  const NoInput := InputState(false, false, false, false, false, false)

  datatype GameState = Loading | Menu | Playing | Paused | GameOver
}
