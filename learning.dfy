/**
 * QLearning of the first agent generation (GVG_AI): a reward built from the
 * end-of-game flags and three shaping terms, the one-step update of the
 * Q-table cell of the previous state and the last action, the annealing of
 * alpha and epsilon, and the epsilon-greedy choice of the next action.
 *
 * The Q-table rows are the ZoneStates the agent perceives. The uniform draw
 * of `Random.nextFloat` is a parameter.
 */
module Learning {
  import opened Host
  import opened QTables
  import opened ZoneStates
  import opened Updates
  import AgentStates

  /** The annealing constant of updateConstants. */
  const CONSTANT: real := 10000.0
  /** The rate updateConstants installs at tick 0. */
  const SCALE: real := 0.9

  const WINREWARD: real := 1000.0
  const DEADREWARD: real := -500.0
  const SIMPLEREWARD: real := 100.0

  /** A shaping term: SIMPLEREWARD when the condition holds, its opposite otherwise. */
  function Shaping(good: bool): (r: real)
    ensures good <==> r == SIMPLEREWARD
    ensures !good <==> r == -SIMPLEREWARD
  {
    if good then SIMPLEREWARD else -SIMPLEREWARD
  }

  /**
   * reward: DEADREWARD for a death; for a win, DEADREWARD if either state
   * was fast and WINREWARD otherwise; then one shaping term each for a slow
   * avatar, an orientation in a green zone and a displacement in a green
   * zone. Away from the end of the game it is one of -300, -100, 100, 300.
   */
  function Reward(previous: ZoneState, current: ZoneState, dead: bool, winner: bool): (r: real)
    ensures !dead && !winner ==> r == -300.0 || r == -100.0 || r == 100.0 || r == 300.0
  {
    var afterDeath := if dead then DEADREWARD else 0.0;
    var afterWin :=
      if !winner then afterDeath
      else if previous.fast == TRUE || current.fast == TRUE then afterDeath + DEADREWARD
      else afterDeath + WINREWARD;
    afterWin
      + Shaping(current.fast != TRUE)
      + Shaping(AgentStates.IsGreenZone(current.orientation))
      + Shaping(AgentStates.IsGreenZone(current.displacement))
  }

  /** Dying costs exactly DEADREWARD against the same states. */
  lemma DeathCosts(previous: ZoneState, current: ZoneState, winner: bool)
    ensures Reward(previous, current, true, winner) == Reward(previous, current, false, winner) + DEADREWARD
  {
  }

  /**
   * Every slow landing (neither state fast) earns at least 900, every fast
   * landing at most -200: the reward ranks any slow landing above any fast one.
   */
  lemma SlowLandingBeatsFastLanding(p1: ZoneState, c1: ZoneState, p2: ZoneState, c2: ZoneState)
    requires p1.fast != TRUE && c1.fast != TRUE
    requires p2.fast == TRUE || c2.fast == TRUE
    ensures Reward(p1, c1, false, true) >= 900.0
    ensures Reward(p2, c2, false, true) <= -200.0
    ensures Reward(p2, c2, false, true) < Reward(p1, c1, false, true)
  {
  }

  /** The reward lies in [-1300, 1300]. */
  lemma RewardBounds(previous: ZoneState, current: ZoneState, dead: bool, winner: bool)
    ensures -1300.0 <= Reward(previous, current, dead, winner) <= 1300.0
  {
  }

  class QLearning {
    const qTable: QTable<ZoneState>
    /** The static `time`, shared with every other learner of this generation. */
    const clock: Clock
    var alpha: real
    var epsilon: real

    /** A learner over qTable with alpha = epsilon = 0.8; gamma is always 0.5 (see Sample). */
    constructor (qTable: QTable<ZoneState>, clock: Clock)
      ensures this.qTable == qTable && this.clock == clock
      ensures alpha == INITIALRATE && epsilon == INITIALRATE
    {
      this.qTable := qTable;
      this.clock := clock;
      alpha := INITIALRATE;
      epsilon := INITIALRATE;
    }

    /**
     * learn: Q(previous, lastAction) moves toward reward + gamma * max Q(current)
     * with the current alpha, and no other cell changes; then the rates are
     * annealed, the clock ticks, and the next action is chosen with the new
     * epsilon on the updated table. Both states and the action must have a
     * cell (indexOf of an absent key is -1 and the row lookup fails).
     */
    method Learn(previousState: AgentStates.AgentState, lastAction: Action, currentState: AgentStates.AgentState, draw: real)
      returns (next: Action)
      requires qTable.Valid() && |qTable.actions| > 0 && lastAction in qTable.actions
      requires previousState.Value() in qTable.states && currentState.Value() in qTable.states
      modifies qTable.table, this`alpha, this`epsilon, clock
      ensures qTable.Valid()
      ensures qTable.table.rows == Learnt(old(qTable.table.rows), qTable.states, qTable.actions, previousState.Value(), lastAction,
        Reward(previousState.Value(), currentState.Value(), currentState.agentDead, currentState.agentWinner),
        currentState.Value(), old(alpha))
      ensures qTable.Get(previousState.Value(), lastAction) == NewQValue(
        old(qTable.Get(previousState.Value(), lastAction)),
        Sample(Reward(previousState.Value(), currentState.Value(), currentState.agentDead, currentState.agentWinner),
               old(RowMax(qTable.QRow(currentState.Value())))),
        old(alpha))
      ensures forall s, a ::
        (s in qTable.states && a in qTable.actions && (s != previousState.Value() || a != lastAction)
         ==> qTable.Get(s, a) == old(qTable.Get(s, a)))
      ensures clock.time == old(clock.time) + 1
      ensures alpha == AnnealedRate(SCALE, CONSTANT, old(clock.time)) && epsilon == alpha
      ensures draw < epsilon ==> next in qTable.actions
      ensures draw >= epsilon ==> next == qTable.actions[FirstArgMax(qTable.QRow(currentState.Value()))]
    {
      var sample := Reward(previousState.Value(), currentState.Value(), currentState.agentDead, currentState.agentWinner);
      var maxNext := qTable.GetMaxQValue(currentState.Value());
      sample := Sample(sample, maxNext);
      var newQValue := NewQValue(qTable.Get(previousState.Value(), lastAction), sample, alpha);
      qTable.Set(previousState.Value(), lastAction, newQValue);

      UpdateConstants();

      next := NextAction(currentState, draw);
    }

    /** nextAction: a random action when the draw is below epsilon, the best action of the current state otherwise. */
    method NextAction(currentState: AgentStates.AgentState, draw: real) returns (next: Action)
      requires qTable.Valid() && |qTable.actions| > 0 && currentState.Value() in qTable.states
      ensures draw < epsilon ==> next in qTable.actions
      ensures draw >= epsilon ==> next == qTable.actions[FirstArgMax(qTable.QRow(currentState.Value()))]
    {
      if draw < epsilon {
        next := qTable.GetRandomAction();
      } else {
        next := qTable.GetBestAction(currentState.Value());
      }
    }

    /** updateConstants: alpha and epsilon from the schedule at the current tick, then the tick. */
    method UpdateConstants()
      modifies this`alpha, this`epsilon, clock
      ensures alpha == AnnealedRate(SCALE, CONSTANT, old(clock.time)) && epsilon == alpha
      ensures clock.time == old(clock.time) + 1
    {
      alpha := SCALE * CONSTANT / (CONSTANT + clock.time as real);
      epsilon := SCALE * CONSTANT / (CONSTANT + clock.time as real);
      clock.Tick();
    }
  }
}
