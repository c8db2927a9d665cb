/**
 * The host game framework as the agent sees it: positions, observations of
 * grid objects, the discrete actions and the per-tick game observation.
 * These are read-only inputs to the learner.
 */
module Host {

  /** A 2D vector of the host framework (pixel positions, directions). */
  datatype Vec = Vec(x: real, y: real)

  /** One object seen on the game grid: its identity, its type tag and its pixel position. */
  datatype Observation = Observation(obsID: int, itype: int, position: Vec)

  /** The discrete actions the host offers. */
  datatype Action = ActionNil | ActionUp | ActionDown | ActionLeft | ActionRight | ActionUse | ActionEscape

  /** grid[i][j] lists the observations in column i, row j. */
  type Grid = seq<seq<seq<Observation>>>

  /** What the host hands to the agent on each tick. */
  datatype GameObservation = GameObservation(
    avatarPosition: Vec,
    avatarOrientation: Vec,
    avatarSpeed: real,
    lastAction: Action,
    grid: Grid,
    score: real,
    blockSize: int,
    availableActions: seq<Action>)

  /** Every column of the grid has as many rows as the first one. */
  ghost predicate RectangularGrid(grid: Grid)
  {
    forall i :: 0 <= i < |grid| ==> |grid[i]| == |grid[0]|
  }

  /**
   * What the host guarantees about an observation: a positive block size,
   * a non-empty rectangular grid, and an avatar whose pixel position lies
   * on the board.
   */
  ghost predicate WellFormed(obs: GameObservation)
  {
    && obs.blockSize > 0
    && |obs.grid| > 0
    && RectangularGrid(obs.grid)
    && 0.0 <= obs.avatarPosition.x < (|obs.grid| * obs.blockSize) as real
    && 0.0 <= obs.avatarPosition.y
  }
}
