/**
 * AgentState of the first agent generation (GVG_AI): what the agent makes of
 * one game observation. The agent keeps its cell and the landing portal's
 * cell, an orientation angle accumulated from its turns, and the four
 * features of its ZoneState: orientation zone, displacement zone, compass
 * towards the portal (overridden to NORTH when a wall lies below a sideways
 * move) and a fast flag.
 *
 * `Math.atan` of the avatar's heading is supplied by the caller (atanDeg,
 * see Geometry.IsAtanDegrees). Floats are reals.
 */
module AgentStates {
  import opened Host
  import opened Wrappers
  import opened Geometry
  import opened ZoneStates
  import opened Portals
  import opened Walls
  import GeneratorV1

  /** Radians added by a left turn and removed by a right turn. */
  const ANGLE_DIFF: real := 0.2
  /** Speeds above this are fast. */
  const SPEED_LIMIT: real := 5.5
  /** Rows below the agent that the wall search reads. */
  const LENGTHOFVISION := 3

  /** Widths in degrees of the three green zones. */
  const ANGLECENTRALGREENZONE := 30
  const ANGLELEFTGREENZONE := 30
  const ANGLERIGHTGREENZONE := 30

  /** Frames of degreesToRegion: zones centred on 90 (UPPER) or 270 (DOWN) degrees. */
  const UPPER := 0
  const DOWN := 1

  // ---------------------------------------------------------------- zones

  /** The three green zones. */
  predicate IsGreenZone(v: int)
    ensures IsGreenZone(v) ==> IsZone(v) && v != LEFTREDZONE && v != RIGHTREDZONE
    ensures IsZone(v) && !IsGreenZone(v) ==> v == LEFTREDZONE || v == RIGHTREDZONE
  {
    v == CENTRALGREENZONE || v == LEFTGREENZONE || v == RIGHTGREENZONE
  }

  /**
   * degreesToRegion: the zone of an angle in [0, 360). UPPER centres the
   * 30-degree central zone on 90 with the left zone counter-clockwise of it;
   * any other frame centres it on 270 with the left zone clockwise of it.
   * The ties go to the first test that matches, and every angle gets a zone:
   * the `-1` fallback is never reached.
   */
  function DegreesToRegion(degrees: real, axis: int): (r: int)
    ensures IsZone(r)
    ensures axis == UPPER ==>
      && (r == RIGHTREDZONE <==> degrees < 45.0 || degrees > 270.0)
      && (r == LEFTREDZONE <==> 135.0 < degrees <= 270.0)
      && (r == RIGHTGREENZONE <==> 45.0 <= degrees <= 75.0)
      && (r == CENTRALGREENZONE <==> 75.0 < degrees <= 105.0)
      && (r == LEFTGREENZONE <==> 105.0 < degrees <= 135.0)
    ensures axis != UPPER ==>
      && (r == RIGHTREDZONE <==> degrees > 315.0 || degrees < 90.0)
      && (r == LEFTREDZONE <==> 90.0 <= degrees < 225.0)
      && (r == RIGHTGREENZONE <==> 285.0 <= degrees <= 315.0)
      && (r == CENTRALGREENZONE <==> 255.0 <= degrees < 285.0)
      && (r == LEFTGREENZONE <==> 225.0 <= degrees < 255.0)
  {
    var upperValue := 90;
    var downValue := 270;
    var initialValue := if axis == UPPER then upperValue else downValue;
    var iniCentralGreenZone := initialValue - ANGLECENTRALGREENZONE / 2;
    var finCentralGreenZone := initialValue + ANGLECENTRALGREENZONE / 2;
    var iniLeftGreenZone :=
      if axis == UPPER then finCentralGreenZone else iniCentralGreenZone - ANGLELEFTGREENZONE;
    var finLeftGreenZone :=
      if axis == UPPER then finCentralGreenZone + ANGLELEFTGREENZONE else iniCentralGreenZone;
    var iniRightGreenZone :=
      if axis == UPPER then iniCentralGreenZone - ANGLERIGHTGREENZONE else finCentralGreenZone;
    var finRightGreenZone :=
      if axis == UPPER then iniCentralGreenZone else finCentralGreenZone + ANGLERIGHTGREENZONE;
    if axis == UPPER && (degrees < iniRightGreenZone as real || degrees > downValue as real) then RIGHTREDZONE
    else if axis == UPPER && degrees > finLeftGreenZone as real then LEFTREDZONE
    else if axis != UPPER && (degrees > finRightGreenZone as real || degrees < upperValue as real) then RIGHTREDZONE
    else if axis != UPPER && degrees < iniLeftGreenZone as real then LEFTREDZONE
    else if finRightGreenZone as real >= degrees >= iniRightGreenZone as real then RIGHTGREENZONE
    else if finCentralGreenZone as real >= degrees >= iniCentralGreenZone as real then CENTRALGREENZONE
    else if finLeftGreenZone as real >= degrees >= iniLeftGreenZone as real then LEFTGREENZONE
    else -1
  }

  /** The lower frame is the upper one reflected in the horizontal axis. */
  lemma LowerFrameMirrorsUpper(degrees: real)
    ensures DegreesToRegion(degrees, UPPER) == DegreesToRegion(360.0 - degrees, DOWN)
  {
  }

  /** The green zones together cover 45..135 degrees in the upper frame and 225..315 in the lower one. */
  lemma GreenBands(degrees: real)
    ensures IsGreenZone(DegreesToRegion(degrees, UPPER)) <==> 45.0 <= degrees <= 135.0
    ensures IsGreenZone(DegreesToRegion(degrees, DOWN)) <==> 225.0 <= degrees <= 315.0
  {
  }

  // ---------------------------------------------------------------- orientation

  /** updateOrientation's change to the accumulated angle for the last action. */
  function Turned(orientationRad: real, lastAction: Action): (r: real)
    ensures lastAction == ActionLeft ==> r == orientationRad + ANGLE_DIFF
    ensures lastAction == ActionRight ==> r == orientationRad - ANGLE_DIFF
    ensures lastAction != ActionLeft && lastAction != ActionRight ==> r == orientationRad
  {
    var turned := if lastAction == ActionLeft then orientationRad + ANGLE_DIFF else orientationRad;
    if lastAction == ActionRight then turned - ANGLE_DIFF else turned
  }

  /** A left turn followed by a right turn restores the angle. */
  lemma TurnsCancel(orientationRad: real)
    ensures Turned(Turned(orientationRad, ActionLeft), ActionRight) == orientationRad
    ensures Turned(Turned(orientationRad, ActionRight), ActionLeft) == orientationRad
  {
  }

  /** perceiveOrientation: the accumulated angle in degrees, brought into [0, 360), in the upper frame. */
  function PerceiveOrientation(orientationRad: real): (r: int)
    ensures IsZone(r)
  {
    DegreesToRegion(NormaliseDegrees(ToDegrees(orientationRad)), UPPER)
  }

  lemma WholeDifference(a: real, b: real)
    requires IsWhole(a) && IsWhole(b)
    ensures IsWhole(b - a)
  {
    var k := b.Floor - a.Floor;
    assert b - a == k as real;
  }

  /** Two normalised angles a whole number of turns apart are equal. */
  lemma NormaliseFullTurn(d: real)
    ensures NormaliseDegrees(d + 360.0) == NormaliseDegrees(d)
  {
    var r1 := NormaliseDegrees(d);
    var r2 := NormaliseDegrees(d + 360.0);
    assert (d + 360.0) / 360.0 == d / 360.0 + 1.0;
    WholeDifference(d / 360.0 - r1 / 360.0, (d + 360.0) / 360.0 - r2 / 360.0);
    var w := 1.0 + (r1 - r2) / 360.0;
    assert (d + 360.0) / 360.0 - r2 / 360.0 - (d / 360.0 - r1 / 360.0) == w;
    assert 0.0 < w < 2.0;
    assert w.Floor == 1;
  }

  /** A full turn of the agent leaves its orientation zone unchanged. */
  lemma OrientationFullTurn(orientationRad: real)
    ensures PerceiveOrientation(orientationRad + 2.0 * PI) == PerceiveOrientation(orientationRad)
  {
    assert ToDegrees(orientationRad + 2.0 * PI) == ToDegrees(orientationRad) + 360.0;
    NormaliseFullTurn(ToDegrees(orientationRad));
  }

  // ---------------------------------------------------------------- displacement

  /** What the caller supplies for the heading (x, -y): toDegrees(atan(-y / x)). */
  predicate AtanOfHeading(heading: Vec, atanDeg: real)
  {
    heading.x != 0.0 ==> IsAtanDegrees(-heading.y / heading.x, atanDeg)
  }

  /**
   * perceiveDisplacement: the avatar's heading with y flipped to point up,
   * its angle in [0, 360) as calculateDegreesFromVector computes it, in the
   * lower frame. Because that angle is 0 for a leftward vector, a
   * horizontal heading lands in the right red zone whichever way it points.
   */
  function PerceiveDisplacement(heading: Vec, atanDeg: real): (r: int)
    requires AtanOfHeading(heading, atanDeg)
    ensures IsZone(r)
    ensures heading.y == 0.0 && heading.x != 0.0 ==> r == RIGHTREDZONE
  {
    DegreesToRegion(CalculateDegreesFromVectorAsWritten(heading.x, -heading.y, atanDeg), DOWN)
  }

  /**
   * A rising avatar (moving up the screen) is always in a red displacement
   * zone, one falling straight down is in the central green zone, and so is
   * one that does not move (its zero heading counts as straight down).
   */
  lemma DisplacementZones(heading: Vec, atanDeg: real)
    requires AtanOfHeading(heading, atanDeg)
    ensures heading.y < 0.0 ==> PerceiveDisplacement(heading, atanDeg) in {LEFTREDZONE, RIGHTREDZONE}
    ensures heading.x == 0.0 && heading.y >= 0.0 ==> PerceiveDisplacement(heading, atanDeg) == CENTRALGREENZONE
  {
    var d := CalculateDegreesFromVectorAsWritten(heading.x, -heading.y, atanDeg);
    if heading.y < 0.0 {
      assert 0.0 <= d <= 180.0;
    }
  }

  // ---------------------------------------------------------------- compass

  /** overPosition: same column, A higher up the screen than B. */
  predicate OverPosition(a: Cell, b: Cell)
    ensures OverPosition(a, b) <==> UnderPosition(b, a)
    ensures OverPosition(a, b) ==> !UnderPosition(a, b) && !LeftPosition(a, b) && !RightPosition(a, b)
    ensures a != b ==> OverPosition(a, b) || UnderPosition(a, b) || LeftPosition(a, b) || RightPosition(a, b)
  {
    a.x == b.x && a.y < b.y
  }

  /** underPosition: same column, A lower than B. */
  predicate UnderPosition(a: Cell, b: Cell)
    ensures UnderPosition(a, b) ==> a != b && !LeftPosition(a, b) && !RightPosition(a, b)
  {
    a.x == b.x && a.y > b.y
  }

  /** leftPosition. */
  predicate LeftPosition(a: Cell, b: Cell)
    ensures LeftPosition(a, b) <==> RightPosition(b, a)
    ensures LeftPosition(a, b) ==> !RightPosition(a, b)
  {
    a.x < b.x
  }

  /** rightPosition. */
  predicate RightPosition(a: Cell, b: Cell)
    ensures RightPosition(a, b) ==> a != b
  {
    a.x > b.x
  }

  /**
   * perceiveCompass: which way the portal lies. Up or down when the portal
   * is in the agent's column, sideways otherwise; SOUTH when there is no
   * portal and when the agent is on it.
   */
  function PerceiveCompass(agent: Cell, portal: Option<Cell>): (c: int)
    ensures IsCompass(c)
    ensures portal == None ==> c == SOUTH
    ensures portal.Some? ==>
      && (c == EAST <==> agent.x < portal.value.x)
      && (c == WEST <==> agent.x > portal.value.x)
      && (c == NORTH <==> agent.x == portal.value.x && agent.y > portal.value.y)
      && (c == SOUTH <==> agent.x == portal.value.x && agent.y <= portal.value.y)
  {
    if portal == None then SOUTH
    else if OverPosition(agent, portal.value) then SOUTH
    else if UnderPosition(agent, portal.value) then NORTH
    else if LeftPosition(agent, portal.value) then EAST
    else if RightPosition(agent, portal.value) then WEST
    else SOUTH
  }

  /** The one-cell move a compass value asks for; y grows down the screen. */
  function Heading(compass: int): Cell
    requires IsCompass(compass)
  {
    if compass == NORTH then Cell(0, -1)
    else if compass == SOUTH then Cell(0, 1)
    else if compass == EAST then Cell(1, 0)
    else Cell(-1, 0)
  }

  /** The cell reached from c by the move d. */
  function Step(c: Cell, d: Cell): Cell
  {
    Cell(c.x + d.x, c.y + d.y)
  }

  /** Following the compass one cell brings the agent strictly closer to a portal it is not on. */
  lemma CompassLeadsToPortal(agent: Cell, portal: Cell)
    requires agent != portal
    ensures SquaredDistance(Step(agent, Heading(PerceiveCompass(agent, Some(portal)))), portal)
            < SquaredDistance(agent, portal)
  {
    var c := PerceiveCompass(agent, Some(portal));
    var dx := agent.x - portal.x;
    var dy := agent.y - portal.y;
    if c == EAST {
      assert (dx + 1) * (dx + 1) == dx * dx + 2 * dx + 1;
    } else if c == WEST {
      assert (dx - 1) * (dx - 1) == dx * dx - 2 * dx + 1;
    } else if c == NORTH {
      assert (dy - 1) * (dy - 1) == dy * dy - 2 * dy + 1;
    } else {
      assert dx == 0 && dy < 0;
      assert (dy + 1) * (dy + 1) == dy * dy + 2 * dy + 1;
    }
  }

  /** How far a move from one cell to another goes along a compass direction. */
  function Progress(compass: int, from: Cell, to: Cell): int
    requires IsCompass(compass)
  {
    Heading(compass).x * (to.x - from.x) + Heading(compass).y * (to.y - from.y)
  }

  /**
   * obeyCompass, on the two snapshots' cells: TRUE when the move went the
   * way the previous compass pointed, FALSE when it went the opposite way,
   * NONE when it did not move along that axis, ERROR when the compass value
   * is not a compass code.
   */
  function ObeyCompass(previousPos: Cell, currentPos: Cell, previousCompass: int): (r: int)
    ensures r == ERROR <==> !IsCompass(previousCompass)
    ensures IsCompass(previousCompass) ==>
      && (r == TRUE <==> Progress(previousCompass, previousPos, currentPos) > 0)
      && (r == FALSE <==> Progress(previousCompass, previousPos, currentPos) < 0)
      && (r == NONE <==> Progress(previousCompass, previousPos, currentPos) == 0)
  {
    var difx := currentPos.x - previousPos.x;
    var dify := currentPos.y - previousPos.y;
    if previousCompass == NORTH then
      (if dify == 0 then NONE else if dify < 0 then TRUE else FALSE)
    else if previousCompass == SOUTH then
      (if dify == 0 then NONE else if dify < 0 then FALSE else TRUE)
    else if previousCompass == WEST then
      (if difx == 0 then NONE else if difx < 0 then TRUE else FALSE)
    else if previousCompass == EAST then
      (if difx == 0 then NONE else if difx < 0 then FALSE else TRUE)
    else ERROR
  }

  /** Undoing a move turns an obeyed compass into a disobeyed one. */
  lemma ReversedMove(p: Cell, q: Cell, compass: int)
    requires IsCompass(compass)
    ensures ObeyCompass(p, q, compass) == TRUE <==> ObeyCompass(q, p, compass) == FALSE
  {
  }

  // ---------------------------------------------------------------- walls below the agent

  /** The rows correctCompass projects: from the agent's row down lengthOfVision rows. */
  function DownWalls(grid: Grid, agent: Cell): (w: seq<Option<Observation>>)
    requires |grid| > 0 && Scannable(grid)
    ensures |w| == |grid|
  {
    Walls.Walls(grid, if agent.y < 0 then 0 else agent.y, agent.y + LENGTHOFVISION)
  }

  predicate Sideways(compass: int)
  {
    compass == WEST || compass == EAST
  }

  /** correctCompass's new compass: NORTH when a sideways move has a block below within one column. */
  function CorrectedCompass(grid: Grid, agent: Cell, compass: int): (c: int)
    requires |grid| > 0 && Scannable(grid)
    requires Sideways(compass) ==> 0 <= agent.x < |grid|
    ensures c == compass || (Sideways(compass) && c == NORTH)
  {
    if Sideways(compass) && IsCollisionPossible(DownWalls(grid, agent), agent.x) then NORTH else compass
  }

  /** Row r is the first row of lo..hi in column k holding a non-player observation, and that observation is a block. */
  predicate FirstWallIsBlock(grid: Grid, k: int, lo: int, hi: int, r: int)
    requires |grid| > 0 && Scannable(grid) && 0 <= k < |grid|
  {
    && lo <= r <= hi && IsWallAt(grid, k, r) && IsBlock(Top(grid, k, r))
    && forall r' :: lo <= r' < r ==> !IsWallAt(grid, k, r')
  }

  /** The window of cells correctCompass inspects: rows lo..hi and columns within one of the agent's. */
  function LowRow(agent: Cell): nat
  {
    if agent.y < 0 then 0 else agent.y
  }

  /**
   * A sideways compass is overridden only when, in some column within one
   * of the agent's, the first non-player observation at or below the agent
   * (at most lengthOfVision rows down) is a block.
   */
  lemma CorrectionSound(grid: Grid, agent: Cell, compass: int) returns (k: int, r: int)
    requires |grid| > 0 && Scannable(grid) && 0 <= agent.x < |grid| && Sideways(compass)
    requires CorrectedCompass(grid, agent, compass) == NORTH
    ensures agent.x - 1 <= k <= agent.x + 1 && 0 <= k < |grid|
    ensures FirstWallIsBlock(grid, k, LowRow(agent), LastRow(LowRow(agent), agent.y + LENGTHOFVISION), r)
  {
    var w := DownWalls(grid, agent);
    k :| agent.x - 1 <= k <= agent.x + 1 && 0 <= k < |w| && IsBlock(w[k]);
    r := WallsFirst(grid, LowRow(agent), agent.y + LENGTHOFVISION, k);
  }

  /** Conversely, such a block always overrides a sideways compass. */
  lemma CorrectionComplete(grid: Grid, agent: Cell, compass: int, k: int, r: int)
    requires |grid| > 0 && Scannable(grid) && 0 <= agent.x < |grid| && Sideways(compass)
    requires agent.x - 1 <= k <= agent.x + 1 && 0 <= k < |grid|
    requires FirstWallIsBlock(grid, k, LowRow(agent), LastRow(LowRow(agent), agent.y + LENGTHOFVISION), r)
    ensures CorrectedCompass(grid, agent, compass) == NORTH
  {
    var w := DownWalls(grid, agent);
    var r0 := WallsFirst(grid, LowRow(agent), agent.y + LENGTHOFVISION, k);
    assert w[k].Some?;
    assert r0 == r;
    assert IsBlock(w[k]);
  }

  /** The agent's column lies on the board of a well-formed observation. */
  lemma AgentOnBoard(obs: GameObservation)
    requires WellFormed(obs)
    ensures 0 <= CalculateCell(obs.avatarPosition, obs.blockSize).x < |obs.grid|
  {
    var c := CalculateCell(obs.avatarPosition, obs.blockSize);
    var b := obs.blockSize as real;
    CellContains(obs.avatarPosition, obs.blockSize);
    if c.x >= |obs.grid| {
      MulLe(|obs.grid| as real, c.x as real, b);
      assert false;
    }
  }

  /** perceiveFast. */
  function PerceiveFast(speed: real): (f: int)
    ensures IsFlag(f) && (f == TRUE <==> speed > SPEED_LIMIT)
  {
    if speed > SPEED_LIMIT then TRUE else FALSE
  }

  /**
   * The position updatePortalPos stores: that of the portal getMiddleNeighbor
   * takes, at index size / 2 - 1, from the run grown around the portal
   * nearest the agent.
   */
  ghost predicate LandingPortal(grid: Grid, agent: Cell, blockSize: int, position: Vec)
    requires blockSize > 0 && Scannable(grid) && |Portals.Portals(grid)| > 0
  {
    exists p :: MiddlePortalAsWritten(grid, agent, blockSize, p) && p.position == position
  }

  /**
   * What updatePortalPos needs of the board: a portal, and a second one
   * beside the portal nearest the agent (with a lone portal the index of
   * getMiddleNeighbor is -1 and the source throws).
   */
  predicate Locatable(grid: Grid, agent: Cell, blockSize: int)
    requires blockSize > 0 && Scannable(grid)
  {
    |Portals.Portals(grid)| > 0 && NearestHasNeighbor(grid, agent, blockSize)
  }

  /**
   * What perceive needs of the observation: a positive block size, a grid
   * whose columns are as tall as the first, and the avatar in one of its
   * columns (isCollisionPossible reads the agent's column of the projected
   * rows).
   */
  predicate OnBoard(obs: GameObservation)
  {
    && obs.blockSize > 0 && |obs.grid| > 0 && Scannable(obs.grid)
    && 0 <= CalculateCell(obs.avatarPosition, obs.blockSize).x < |obs.grid|
  }

  /** The host's guarantees put the avatar on the board. */
  lemma WellFormedIsOnBoard(obs: GameObservation)
    requires WellFormed(obs)
    ensures OnBoard(obs)
  {
    AgentOnBoard(obs);
  }

  /** What perceive needs: the observation on the board and the atan of the avatar's heading. */
  predicate Perceivable(obs: GameObservation, atanDeg: real)
  {
    OnBoard(obs) && AtanOfHeading(obs.avatarOrientation, atanDeg)
  }

  /** The features perceive stores, for the turned angle and the portal cell it ends with. */
  function Features(obs: GameObservation, atanDeg: real, orientationRad: real, portal: Option<Cell>): ZoneState
    requires Perceivable(obs, atanDeg)
  {
    var agent := CalculateCell(obs.avatarPosition, obs.blockSize);
    ZoneState(
      PerceiveOrientation(orientationRad),
      PerceiveDisplacement(obs.avatarOrientation, atanDeg),
      CorrectedCompass(obs.grid, agent, PerceiveCompass(agent, portal)),
      PerceiveFast(obs.avatarSpeed))
  }

  /** Every state perceive can store is one of the states of the generated table. */
  lemma FeaturesInSpace(obs: GameObservation, atanDeg: real, orientationRad: real, portal: Option<Cell>)
    requires Perceivable(obs, atanDeg)
    ensures Features(obs, atanDeg, orientationRad, portal) in GeneratorV1.Space()
  {
    GeneratorV1.SpaceMembers(Features(obs, atanDeg, orientationRad, portal));
  }

  /** The nearest wall perceive leaves behind, given the one before it. */
  function WallAfter(obs: GameObservation, portal: Option<Cell>, blockSize: int, previous: Option<Observation>)
    : Option<Observation>
    requires OnBoard(obs) && blockSize > 0
  {
    var agent := CalculateCell(obs.avatarPosition, obs.blockSize);
    var c := PerceiveCompass(agent, portal);
    if !Sideways(c) then previous
    else if CorrectedCompass(obs.grid, agent, c) == NORTH then Nearest(DownWalls(obs.grid, agent), agent, blockSize)
    else None
  }

  class AgentState {
    /** The ZoneState features. */
    var orientation: int
    var displacement: int
    var compass: int
    var fast: int

    var agentCell: Cell
    var portalCell: Option<Cell>
    var agentReal: Vec
    var portalReal: Option<Vec>
    var orientationRad: real
    var agentDead: bool
    var agentWinner: bool
    var blockSize: int
    var score: real
    var nearestWall: Option<Observation>

    /** A positive block size, and a portal cell that is the cell of the portal position when there is one. */
    ghost predicate Valid()
      reads this
    {
      && blockSize > 0
      && (portalCell == None <==> portalReal == None)
      && (portalReal.Some? ==> portalCell == Some(CalculateCell(portalReal.value, blockSize)))
    }

    /** The features as a value. */
    function Value(): ZoneState
      reads this
    {
      ZoneState(orientation, displacement, compass, fast)
    }

    /** A state perceiving its first observation, facing 0 radians. */
    constructor (obs: GameObservation, atanDeg: real)
      requires Perceivable(obs, atanDeg)
      requires Locatable(obs.grid, CalculateCell(obs.avatarPosition, obs.blockSize), obs.blockSize)
      ensures Valid() && portalCell.Some? && blockSize == obs.blockSize
      ensures LandingPortal(obs.grid, agentCell, blockSize, portalReal.value)
      ensures agentCell == CalculateCell(obs.avatarPosition, obs.blockSize)
      ensures orientationRad == Turned(0.0, obs.lastAction)
      ensures Value() == Features(obs, atanDeg, orientationRad, portalCell)
      ensures score == obs.score && agentReal == obs.avatarPosition
      ensures nearestWall == WallAfter(obs, portalCell, blockSize, None)
      ensures !agentDead && !agentWinner
    {
      orientationRad := 0.0;
      blockSize := obs.blockSize;
      score := obs.score;
      portalCell := None;
      portalReal := None;
      nearestWall := None;
      new;
      Perceive(obs, atanDeg);
    }

    /**
     * The copy constructor: features, cells, positions, angle, score, block
     * size and the dead flag are copied; the winner flag and the nearest
     * wall are not.
     */
    constructor Copy(obj: AgentState)
      requires obj.Valid()
      ensures Valid() && Value() == obj.Value()
      ensures agentCell == obj.agentCell && portalCell == obj.portalCell
      ensures agentReal == obj.agentReal && portalReal == obj.portalReal
      ensures orientationRad == obj.orientationRad && score == obj.score && blockSize == obj.blockSize
      ensures agentDead == obj.agentDead && !agentWinner && nearestWall == None
    {
      orientation := obj.orientation;
      displacement := obj.displacement;
      compass := obj.compass;
      fast := obj.fast;
      agentCell := obj.agentCell;
      portalCell := obj.portalCell;
      agentReal := obj.agentReal;
      portalReal := obj.portalReal;
      orientationRad := obj.orientationRad;
      score := obj.score;
      blockSize := obj.blockSize;
      agentDead := obj.agentDead;
      agentWinner := false;
      nearestWall := None;
    }

    /**
     * perceive: reads position, score and speed, clears both end-of-game
     * flags, locates the portal only while none is known, turns, and stores
     * the four features.
     */
    method Perceive(obs: GameObservation, atanDeg: real)
      requires Valid() && Perceivable(obs, atanDeg)
      requires portalCell == None ==> Locatable(obs.grid, CalculateCell(obs.avatarPosition, obs.blockSize), blockSize)
      modifies this
      ensures Valid() && portalCell.Some? && blockSize == old(blockSize)
      ensures agentReal == obs.avatarPosition && agentCell == CalculateCell(obs.avatarPosition, obs.blockSize)
      ensures score == obs.score && !agentDead && !agentWinner
      ensures orientationRad == Turned(old(orientationRad), obs.lastAction)
      ensures old(portalCell).Some? ==> portalCell == old(portalCell) && portalReal == old(portalReal)
      ensures old(portalCell) == None ==> LandingPortal(obs.grid, agentCell, blockSize, portalReal.value)
      ensures Value() == Features(obs, atanDeg, orientationRad, portalCell)
      ensures nearestWall == WallAfter(obs, portalCell, blockSize, old(nearestWall))
    {
      agentReal := obs.avatarPosition;
      agentCell := CalculateCell(agentReal, obs.blockSize);
      score := obs.score;
      agentDead := false;
      agentWinner := false;
      if portalCell == None {
        UpdatePortalPos(obs.grid);
      }
      PerceiveFeatures(obs, atanDeg);
    }

    /**
     * The second half of perceive: turns, then fills the four features in
     * position order and stores them with update. The compass is corrected
     * for walls below a sideways move, and correctCompass is then called once
     * more with the code 0, which is not sideways.
     */
    method PerceiveFeatures(obs: GameObservation, atanDeg: real)
      requires Valid() && Perceivable(obs, atanDeg) && portalCell.Some?
      requires agentCell == CalculateCell(obs.avatarPosition, obs.blockSize)
      modifies this`orientationRad, this`nearestWall, this`orientation, this`displacement, this`compass, this`fast
      ensures orientationRad == Turned(old(orientationRad), obs.lastAction)
      ensures Value() == Features(obs, atanDeg, orientationRad, portalCell)
      ensures nearestWall == WallAfter(obs, portalCell, blockSize, old(nearestWall))
    {
      var arrayStateValues := [0, 0, 0, 0];

      UpdateOrientation(obs.lastAction);
      arrayStateValues := arrayStateValues[POSORIENTATION := PerceiveOrientation(orientationRad)];

      arrayStateValues := arrayStateValues[POSDISPLACEMENT := PerceiveDisplacement(obs.avatarOrientation, atanDeg)];

      var compassValue := PerceiveCompass(agentCell, portalCell);
      compassValue := CorrectCompass(obs.grid, compassValue);
      arrayStateValues := arrayStateValues[POSCOMPASS := compassValue];

      arrayStateValues := arrayStateValues[POSFAST := PerceiveFast(obs.avatarSpeed)];

      var ignored := CorrectCompass(obs.grid, 0);

      Update(arrayStateValues);
    }

    /** updateOrientation: a left turn adds ANGLE_DIFF radians, a right turn removes them. */
    method UpdateOrientation(lastAction: Action)
      modifies this`orientationRad
      ensures orientationRad == Turned(old(orientationRad), lastAction)
    {
      if lastAction == ActionLeft {
        orientationRad := orientationRad + ANGLE_DIFF;
      }
      if lastAction == ActionRight {
        orientationRad := orientationRad - ANGLE_DIFF;
      }
    }

    /**
     * updatePortalPos: the portal at index size / 2 - 1 of the run of
     * portals around the nearest one, and its cell.
     */
    method UpdatePortalPos(grid: Grid)
      requires Valid() && Scannable(grid) && Locatable(grid, agentCell, blockSize)
      modifies this`portalReal, this`portalCell
      ensures Valid() && portalCell.Some?
      ensures LandingPortal(grid, agentCell, blockSize, portalReal.value)
    {
      var portal := LocatePortalAsWritten(grid, agentCell, blockSize);
      portalReal := Some(portal.position);
      portalCell := Some(CalculateCell(portal.position, blockSize));
    }

    /**
     * correctCompass: for a sideways compass, searches the rows below the
     * agent; on a possible collision records the nearest wall and answers
     * NORTH, otherwise clears the nearest wall. Any other compass passes
     * through untouched.
     */
    method CorrectCompass(grid: Grid, currentCompass: int) returns (c: int)
      requires Valid() && |grid| > 0 && Scannable(grid)
      requires Sideways(currentCompass) ==> 0 <= agentCell.x < |grid|
      modifies this`nearestWall
      ensures c == CorrectedCompass(grid, agentCell, currentCompass)
      ensures nearestWall == (if !Sideways(currentCompass) then old(nearestWall)
                              else if c == NORTH then Nearest(DownWalls(grid, agentCell), agentCell, blockSize)
                              else None)
    {
      if currentCompass == WEST || currentCompass == EAST {
        var iniDown := agentCell.y;
        var finDown := iniDown + LENGTHOFVISION;
        var downWalls := SearchWalls(grid, iniDown, finDown);
        nearestWall := None;
        if IsCollisionPossible(downWalls[..], agentCell.x) {
          nearestWall := GetNearest(downWalls[..], agentCell, blockSize);
          return NORTH;
        }
      }
      return currentCompass;
    }

    /** State.update: the four features from an array, in position order. */
    method Update(arrayStateValues: seq<int>)
      requires |arrayStateValues| >= NUMATTRIBUTES
      modifies this`orientation, this`displacement, this`compass, this`fast
      ensures Value() == Decode(arrayStateValues)
    {
      orientation := arrayStateValues[POSORIENTATION];
      displacement := arrayStateValues[POSDISPLACEMENT];
      compass := arrayStateValues[POSCOMPASS];
      fast := arrayStateValues[POSFAST];
    }

    method SetAgentDead(value: bool)
      modifies this`agentDead
      ensures agentDead == value
    {
      agentDead := value;
    }

    method SetAgentWinner(value: bool)
      modifies this`agentWinner
      ensures agentWinner == value
    {
      agentWinner := value;
    }

    predicate PortalExist()
      reads this
    {
      portalCell.Some?
    }

    predicate IsFast()
      reads this
    {
      fast == TRUE
    }

    predicate IsOrientationInGreenZone()
      reads this
    {
      IsGreenZone(orientation)
    }

    predicate IsDisplacementInGreenZone()
      reads this
    {
      IsGreenZone(displacement)
    }

    /** isAgentOverPortal: the portal must be known. */
    predicate IsAgentOverPortal()
      requires portalCell.Some?
      reads this
    {
      OverPosition(agentCell, portalCell.value)
    }
  }
}
