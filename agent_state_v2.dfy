/**
 * The perception of the third agent (GVG_AI_V2 AgentState): the accumulated
 * orientation and the avatar's heading, each quantised into ten regions of
 * STEP = 36 degrees; a flag saying whether the heading lies in the region of
 * the direction to the portal; and a speed flag with hysteresis.
 *
 * Math.atan is supplied by the caller as a function meeting IsAtanDegrees on
 * every argument. The orientation vector (Math.cos, Math.sin) and the
 * normalised goal vector (Math.sqrt) are not stored; normalising by a
 * positive length changes no angle (AngleScales), so the goal region is
 * computed on the vector before normalisation.
 */
module AgentStatesV2 {
  import opened Host
  import opened Wrappers
  import opened Geometry
  import opened Portals
  import opened StatesV2
  import AgentStates
  import GeneratorV2

  const MIN_SPEED_LIMIT: real := 4.5
  const MAX_SPEED_LIMIT: real := 6.0
  /** Width of one region, in degrees. */
  const STEP := 36
  /** The heading used when the avatar does not move: straight down. */
  const DEFAULTVECTOR := Vec(0.0, -1.0)

  /** What the caller supplies for `toDegrees(atan(q))`, for every q. */
  ghost predicate IsAtan(atan: real -> real)
  {
    forall q :: IsAtanDegrees(q, atan(q))
  }

  /** `(int)(degrees / STEP)` for an angle in [0, 360): the region holding the angle. */
  function Region(degrees: real): (r: int)
    requires 0.0 <= degrees < 360.0
    ensures 0 <= r < NUMZONEVALUES
  {
    var t := degrees / STEP as real;
    var n := Trunc(t);
    assert n as real <= t < n as real + 1.0;
    RegionBelowTen(t, n);
    n
  }

  /** A quotient by STEP of an angle below 360 truncates below NUMZONEVALUES. */
  lemma RegionBelowTen(t: real, n: int)
    requires 0.0 <= t * 36.0 < 360.0 && n as real <= t
    ensures n < NUMZONEVALUES
  {
  }

  /** Region r covers the angles [r * STEP, (r + 1) * STEP). */
  lemma RegionBounds(degrees: real)
    requires 0.0 <= degrees < 360.0
    ensures (Region(degrees) * STEP) as real <= degrees < ((Region(degrees) + 1) * STEP) as real
  {
    var t := degrees / STEP as real;
    assert degrees == t * 36.0;
    var n := Trunc(t);
    MulLe(n as real, t, 36.0);
    MulLt(t, n as real + 1.0, 36.0);
  }

  /**
   * calculateDegreesFromVector on v, with atan applied to v.y / v.x: the
   * angle of v's quadrant, 90 or 270 on the vertical axis, and 0 for a
   * horizontal vector whichever way it points.
   */
  function Angle(v: Vec, atan: real -> real): (d: real)
    requires IsAtan(atan)
    ensures 0.0 <= d < 360.0
    ensures v.y == 0.0 && v.x != 0.0 ==> d == 0.0
    ensures v.x == 0.0 ==> d == (if v.y > 0.0 then 90.0 else 270.0)
    ensures v.x != 0.0 && v.y > 0.0 ==> 0.0 < d < 180.0 && (v.x < 0.0 <==> d > 90.0)
    ensures v.x != 0.0 && v.y < 0.0 ==> 180.0 < d < 360.0 && (v.x < 0.0 <==> d < 270.0)
  {
    CalculateDegreesFromVectorAsWritten(v.x, v.y, if v.x != 0.0 then atan(v.y / v.x) else 0.0)
  }

  /** Stretching a vector by a positive factor does not change its angle. */
  lemma AngleScales(v: Vec, k: real, atan: real -> real)
    requires IsAtan(atan) && k > 0.0
    ensures Angle(Vec(k * v.x, k * v.y), atan) == Angle(v, atan)
  {
    if v.x != 0.0 {
      assert (k * v.y) / (k * v.x) == v.y / v.x;
    }
  }

  // ---------------------------------------------------------------- orientation

  /** perceiveOrientation: the accumulated angle in degrees, brought into [0, 360), by region. */
  function PerceiveOrientation(orientationRad: real): (r: int)
    ensures 0 <= r < NUMZONEVALUES
  {
    Region(NormaliseDegrees(ToDegrees(orientationRad)))
  }

  /** A full turn of the agent leaves its orientation region unchanged. */
  lemma OrientationFullTurn(orientationRad: real)
    ensures PerceiveOrientation(orientationRad + 2.0 * PI) == PerceiveOrientation(orientationRad)
  {
    assert ToDegrees(orientationRad + 2.0 * PI) == ToDegrees(orientationRad) + 360.0;
    AgentStates.NormaliseFullTurn(ToDegrees(orientationRad));
  }

  // ---------------------------------------------------------------- displacement

  /** The vector perceiveDisplacement measures: the heading with y flipped, or straight down when it is zero. */
  function DisplacementVector(heading: Vec): (v: Vec)
    ensures v != Vec(0.0, 0.0)
    ensures heading != Vec(0.0, 0.0) ==> v == Vec(heading.x, -heading.y)
  {
    var flipped := Vec(heading.x, -heading.y);
    if flipped.x == 0.0 && flipped.y == 0.0 then DEFAULTVECTOR else flipped
  }

  /**
   * perceiveDisplacement: the region of the flipped heading. A horizontal
   * heading is in region 0 whichever way it points, as
   * calculateDegreesFromVector yields 0 for a leftward vector.
   */
  function PerceiveDisplacement(heading: Vec, atan: real -> real): (r: int)
    requires IsAtan(atan)
    ensures 0 <= r < NUMZONEVALUES
    ensures heading.y == 0.0 && heading.x != 0.0 ==> r == 0
  {
    Region(Angle(DisplacementVector(heading), atan))
  }

  /**
   * Screen y grows downwards: a rising avatar (y < 0) is in regions 0..4, a
   * falling one in regions 5..9, a still one in region 7 (270 degrees), and
   * a purely horizontal heading in region 0, whether it points right or,
   * since calculateDegreesFromVector yields 0 for it, left.
   */
  lemma DisplacementRegions(heading: Vec, atan: real -> real)
    requires IsAtan(atan)
    ensures heading.y < 0.0 ==> PerceiveDisplacement(heading, atan) < 5
    ensures heading.y > 0.0 ==> PerceiveDisplacement(heading, atan) >= 5
    ensures heading.y == 0.0 && heading.x != 0.0 ==> PerceiveDisplacement(heading, atan) == 0
    ensures heading == Vec(0.0, 0.0) ==> PerceiveDisplacement(heading, atan) == 7
  {
  }

  // ---------------------------------------------------------------- goal

  /** The direction from the agent to the portal, y flipped (before normalisation). */
  function GoalVector(agent: Vec, portal: Vec): Vec
  {
    Vec(portal.x - agent.x, -(portal.y - agent.y))
  }

  /**
   * The region of the direction to the portal. On the portal itself the
   * normalised vector is 0/0, every comparison in calculateDegreesFromVector
   * fails on it, and the cast to int yields region 0. A portal in the
   * agent's row is in region 0 on either side; one straight above is in
   * region 2 (90 degrees) and one straight below in region 7 (270 degrees).
   */
  function GoalRegion(agent: Vec, portal: Vec, atan: real -> real): (r: int)
    requires IsAtan(atan)
    ensures 0 <= r < NUMZONEVALUES
    ensures agent == portal ==> r == 0
    ensures portal.y == agent.y ==> r == 0
    ensures portal.x == agent.x && portal.y < agent.y ==> r == 2
    ensures portal.x == agent.x && portal.y > agent.y ==> r == 7
  {
    var g := GoalVector(agent, portal);
    if g.x == 0.0 && g.y == 0.0 then 0 else Region(Angle(g, atan))
  }

  /** perceiveGoal: TRUE exactly when the displacement region is the goal region. */
  function PerceiveGoal(agent: Vec, portal: Vec, displacementRegion: int, atan: real -> real): (r: int)
    requires IsAtan(atan)
    ensures r == TRUE || r == FALSE
    ensures r == TRUE <==> GoalRegion(agent, portal, atan) == displacementRegion
  {
    if GoalRegion(agent, portal, atan) == displacementRegion then TRUE else FALSE
  }

  /** An avatar heading straight at the portal perceives its goal as TRUE. */
  lemma HeadingAtPortal(agent: Vec, portal: Vec, k: real, atan: real -> real)
    requires IsAtan(atan) && agent != portal && k > 0.0
    ensures var heading := Vec(k * (portal.x - agent.x), k * (portal.y - agent.y));
      PerceiveGoal(agent, portal, PerceiveDisplacement(heading, atan), atan) == TRUE
  {
    var g := GoalVector(agent, portal);
    var heading := Vec(k * (portal.x - agent.x), k * (portal.y - agent.y));
    assert g != Vec(0.0, 0.0);
    assert heading != Vec(0.0, 0.0);
    assert DisplacementVector(heading) == Vec(k * g.x, k * g.y);
    AngleScales(g, k, atan);
  }

  // ---------------------------------------------------------------- fast

  /** perceiveFast: a slow avatar turns fast above 6, a fast one stays fast above 4.5. */
  function PerceiveFast(previousFast: int, speed: real): (f: int)
    ensures f == TRUE || f == FALSE
    ensures previousFast == FALSE ==> (f == TRUE <==> speed > MAX_SPEED_LIMIT)
    ensures previousFast != FALSE ==> (f == TRUE <==> speed > MIN_SPEED_LIMIT)
  {
    if previousFast == FALSE then (if speed > MAX_SPEED_LIMIT then TRUE else FALSE)
    else (if speed > MIN_SPEED_LIMIT then TRUE else FALSE)
  }

  /**
   * Hysteresis: above 6 the avatar is fast and at most 4.5 it is slow
   * whatever it was before; in between the flag keeps its previous value.
   */
  lemma FastHysteresis(previousFast: int, speed: real)
    requires previousFast == TRUE || previousFast == FALSE
    ensures speed > MAX_SPEED_LIMIT ==> PerceiveFast(previousFast, speed) == TRUE
    ensures speed <= MIN_SPEED_LIMIT ==> PerceiveFast(previousFast, speed) == FALSE
    ensures MIN_SPEED_LIMIT < speed <= MAX_SPEED_LIMIT ==> PerceiveFast(previousFast, speed) == previousFast
  {
  }

  // ---------------------------------------------------------------- perceive

  /** What perceive needs of the observation: a positive block size and a grid it can scan for portals. */
  predicate Ready(obs: GameObservation)
  {
    obs.blockSize > 0 && Scannable(obs.grid)
  }

  /** The features perceive stores, for the turned angle, the previous fast flag and the portal position. */
  function Features(obs: GameObservation, atan: real -> real, orientationRad: real, previousFast: int, portal: Vec)
    : StateValue
    requires IsAtan(atan)
  {
    var displacement := PerceiveDisplacement(obs.avatarOrientation, atan);
    StateValue(
      PerceiveOrientation(orientationRad),
      displacement,
      PerceiveGoal(obs.avatarPosition, portal, displacement, atan),
      PerceiveFast(previousFast, obs.avatarSpeed))
  }

  /** Every state perceive can store is one of the states of the generated table. */
  lemma FeaturesInSpace(obs: GameObservation, atan: real -> real, orientationRad: real, previousFast: int, portal: Vec)
    requires IsAtan(atan)
    ensures Features(obs, atan, orientationRad, previousFast, portal) in GeneratorV2.Space()
  {
    GeneratorV2.SpaceMembers(Features(obs, atan, orientationRad, previousFast, portal));
  }

  /**
   * The position updatePortalPos stores: that of the portal getMiddleNeighbor
   * takes, at index size / 2, from the run grown around the portal nearest
   * the agent.
   */
  ghost predicate LandingPortal(grid: Grid, agent: Cell, blockSize: int, position: Vec)
    requires blockSize > 0 && Scannable(grid) && |Portals.Portals(grid)| > 0
  {
    exists p :: MiddlePortal(grid, agent, blockSize, p) && p.position == position
  }

  class AgentState {
    /** The State features. */
    var orientation: int
    var displacement: int
    var goal: int
    var fast: int

    var agentCell: Cell
    var portalCell: Option<Cell>
    var agentReal: Vec
    var portalReal: Option<Vec>
    var orientationRad: real
    var displacementVector: Vec
    var speed: real
    var agentDead: bool
    var agentWinner: bool
    var blockSize: int
    var score: real

    /** A positive block size, and a portal cell that is the cell of the portal position when there is one. */
    ghost predicate Valid()
      reads this
    {
      && blockSize > 0
      && (portalCell == None <==> portalReal == None)
      && (portalReal.Some? ==> portalCell == Some(CalculateCell(portalReal.value, blockSize)))
    }

    /** The features as a value. */
    function Value(): StateValue
      reads this
    {
      StateValue(orientation, displacement, goal, fast)
    }

    /** A state perceiving its first observation, facing 0 radians, with every feature 0 before it. */
    constructor (obs: GameObservation, atan: real -> real)
      requires Ready(obs) && IsAtan(atan) && |Portals.Portals(obs.grid)| > 0
      ensures Valid() && portalCell.Some? && blockSize == obs.blockSize
      ensures LandingPortal(obs.grid, agentCell, blockSize, portalReal.value)
      ensures agentReal == obs.avatarPosition && agentCell == CalculateCell(obs.avatarPosition, obs.blockSize)
      ensures orientationRad == AgentStates.Turned(0.0, obs.lastAction)
      ensures Value() == Features(obs, atan, orientationRad, FALSE, portalReal.value)
      ensures score == obs.score && speed == obs.avatarSpeed && !agentDead && !agentWinner
    {
      orientation, displacement, goal, fast := 0, 0, 0, 0;
      orientationRad := 0.0;
      blockSize := obs.blockSize;
      score := obs.score;
      portalCell := None;
      portalReal := None;
      new;
      Perceive(obs, atan);
    }

    /**
     * The copy constructor: features, cells, positions, vectors, speed,
     * angle, score, block size and the dead flag are copied; the winner
     * flag is not.
     */
    constructor Copy(obj: AgentState)
      requires obj.Valid()
      ensures Valid() && Value() == obj.Value()
      ensures agentCell == obj.agentCell && portalCell == obj.portalCell
      ensures agentReal == obj.agentReal && portalReal == obj.portalReal
      ensures displacementVector == obj.displacementVector && speed == obj.speed
      ensures orientationRad == obj.orientationRad && score == obj.score && blockSize == obj.blockSize
      ensures agentDead == obj.agentDead && !agentWinner
    {
      orientation := obj.orientation;
      displacement := obj.displacement;
      goal := obj.goal;
      fast := obj.fast;
      agentCell := obj.agentCell;
      portalCell := obj.portalCell;
      agentReal := obj.agentReal;
      portalReal := obj.portalReal;
      displacementVector := obj.displacementVector;
      speed := obj.speed;
      orientationRad := obj.orientationRad;
      score := obj.score;
      blockSize := obj.blockSize;
      agentDead := obj.agentDead;
      agentWinner := false;
    }

    /**
     * perceive: reads position, speed and score, clears both end-of-game
     * flags, locates the portal only while none is known, turns, and stores
     * the four features in position order; the goal is judged against the
     * new displacement and the fast flag against the old one.
     */
    method Perceive(obs: GameObservation, atan: real -> real)
      requires Valid() && Ready(obs) && IsAtan(atan)
      requires portalCell == None ==> |Portals.Portals(obs.grid)| > 0
      modifies this
      ensures Valid() && portalCell.Some? && blockSize == old(blockSize)
      ensures agentReal == obs.avatarPosition && agentCell == CalculateCell(obs.avatarPosition, obs.blockSize)
      ensures speed == obs.avatarSpeed && score == obs.score && !agentDead && !agentWinner
      ensures orientationRad == AgentStates.Turned(old(orientationRad), obs.lastAction)
      ensures displacementVector == DisplacementVector(obs.avatarOrientation)
      ensures old(portalCell).Some? ==> portalCell == old(portalCell) && portalReal == old(portalReal)
      ensures old(portalCell) == None ==> LandingPortal(obs.grid, agentCell, blockSize, portalReal.value)
      ensures Value() == Features(obs, atan, orientationRad, old(fast), portalReal.value)
    {
      PerceiveAttributes(obs);
      if portalCell == None {
        UpdatePortalPos(obs.grid);
      }
      PerceiveFeatures(obs, atan);
    }

    /** The first lines of perceive: position, cell, speed and score, with both end-of-game flags cleared. */
    method PerceiveAttributes(obs: GameObservation)
      requires obs.blockSize > 0
      modifies this`agentReal, this`agentCell, this`speed, this`score, this`agentDead, this`agentWinner
      ensures agentReal == obs.avatarPosition && agentCell == CalculateCell(obs.avatarPosition, obs.blockSize)
      ensures speed == obs.avatarSpeed && score == obs.score && !agentDead && !agentWinner
    {
      agentReal := obs.avatarPosition;
      agentCell := CalculateCell(agentReal, obs.blockSize);
      speed := obs.avatarSpeed;
      score := obs.score;
      agentDead := false;
      agentWinner := false;
    }

    /**
     * The second half of perceive: turns, then fills the four features in
     * position order and stores them with update; the goal is judged against
     * the new displacement and the fast flag against the old one.
     */
    method PerceiveFeatures(obs: GameObservation, atan: real -> real)
      requires IsAtan(atan) && portalReal.Some? && agentReal == obs.avatarPosition
      modifies this`orientationRad, this`displacementVector, this`orientation, this`displacement, this`goal, this`fast
      ensures orientationRad == AgentStates.Turned(old(orientationRad), obs.lastAction)
      ensures displacementVector == DisplacementVector(obs.avatarOrientation)
      ensures Value() == Features(obs, atan, orientationRad, old(fast), portalReal.value)
    {
      var arrayStateValues := [0, 0, 0, 0];

      UpdateOrientation(obs.lastAction);
      arrayStateValues := arrayStateValues[POSORIENTATION := PerceiveOrientation(orientationRad)];

      displacementVector := DisplacementVector(obs.avatarOrientation);
      var displacementValue := PerceiveDisplacement(obs.avatarOrientation, atan);
      arrayStateValues := arrayStateValues[POSDISPLACEMENT := displacementValue];

      arrayStateValues := arrayStateValues[POSGOAL := PerceiveGoal(agentReal, portalReal.value, displacementValue, atan)];

      arrayStateValues := arrayStateValues[POSFAST := PerceiveFast(fast, obs.avatarSpeed)];

      Update(arrayStateValues);
    }

    /** updateOrientation: a left turn adds ANGLE_DIFF radians, a right turn removes them. */
    method UpdateOrientation(lastAction: Action)
      modifies this`orientationRad
      ensures orientationRad == AgentStates.Turned(old(orientationRad), lastAction)
    {
      if lastAction == ActionLeft {
        orientationRad := orientationRad + AgentStates.ANGLE_DIFF;
      }
      if lastAction == ActionRight {
        orientationRad := orientationRad - AgentStates.ANGLE_DIFF;
      }
    }

    /** updatePortalPos: the portal at index size / 2 of the run of portals around the nearest one, and its cell. */
    method UpdatePortalPos(grid: Grid)
      requires Valid() && Scannable(grid) && |Portals.Portals(grid)| > 0
      modifies this`portalReal, this`portalCell
      ensures Valid() && portalCell.Some?
      ensures LandingPortal(grid, agentCell, blockSize, portalReal.value)
    {
      var portal := LocatePortal(grid, agentCell, blockSize);
      portalReal := Some(portal.position);
      portalCell := Some(CalculateCell(portal.position, blockSize));
    }

    /** State.update: the four features from an array, in position order. */
    method Update(arrayStateValues: seq<int>)
      requires |arrayStateValues| >= NUMATTRIBUTES
      modifies this`orientation, this`displacement, this`goal, this`fast
      ensures Value() == Decode(arrayStateValues)
    {
      orientation := arrayStateValues[POSORIENTATION];
      displacement := arrayStateValues[POSDISPLACEMENT];
      goal := arrayStateValues[POSGOAL];
      fast := arrayStateValues[POSFAST];
    }

    method SetAgentDead(value: bool)
      modifies this`agentDead
      ensures agentDead == value
    {
      agentDead := value;
    }

    method SetAgentWinner(value: bool)
      modifies this`agentWinner
      ensures agentWinner == value
    {
      agentWinner := value;
    }

    predicate PortalExist()
      reads this
    {
      portalCell.Some?
    }

    predicate IsFast()
      reads this
    {
      fast == TRUE
    }

    /** isDisplacementCorrect: the heading lies in the region of the portal. */
    predicate IsDisplacementCorrect()
      reads this
    {
      goal == TRUE
    }

    /** isAgentOverPortal: the portal must be known. */
    predicate IsAgentOverPortal()
      requires portalCell.Some?
      reads this
    {
      AgentStates.OverPosition(agentCell, portalCell.value)
    }
  }
}
