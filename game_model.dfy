/**
 * The record types and constants of the game: settings, the published state,
 * falling balls and the paddle direction.
 */
module GameModel {

  /** The four user-configurable knobs; the engine itself never validates them. */
  datatype GameSettings = GameSettings(
    fallingSpeed: int,      // pixels a ball falls per animation frame
    fallingFrequency: int,  // milliseconds between spawns
    playerSpeed: int,       // pixels the paddle moves per held-key frame
    gameTime: int)          // round length in seconds

  /** The settings the engine holds before the form has produced any. */
  const DefaultSettings := GameSettings(0, 0, 0, 0)

  /** The snapshot the engine publishes to its observers. */
  datatype GameState = GameState(caughtObjects: int, timeRemaining: int, running: bool)

  /** The state the engine's state cell holds when it is created. */
  function InitialState(): GameState {
    GameState(0, 0, false)
  }

  /** A falling ball: centre (x, y) and radius, in canvas pixels (y grows downwards). */
  datatype Ball = Ball(x: real, y: real, radius: real)

  /** The two paddle directions. */
  datatype Direction = Left | Right
}
