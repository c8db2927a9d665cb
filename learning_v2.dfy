/**
 * QLearning of the third agent generation (GVG_AI_V2): the same one-step
 * update with a reward that is always 0, a second table counting how often
 * each (state, action) pair has been updated, a slower annealing schedule
 * and the epsilon-greedy choice of the next action.
 *
 * The uniform draw of `Random.nextFloat` is a parameter.
 */
module LearningV2 {
  import opened Host
  import opened QTables
  import opened StatesV2
  import opened Updates
  import AgentStatesV2

  /** The annealing constant of updateConstants. */
  const CONSTANT: real := 5000.0
  /** The rate updateConstants installs at tick 0. */
  const SCALE: real := 0.8

  /** reward: this generation rewards nothing. */
  function Reward(previous: StateValue, lastAction: Action, current: StateValue): (r: real)
    ensures r == 0.0
  {
    0.0
  }

  class QLearning {
    const qTable: QTable<StateValue>
    /** How many times each (state, action) cell of qTable has been updated. */
    const visitedStates: QTable<StateValue>
    /** The static `time`, shared with every other learner of this generation. */
    const clock: Clock
    var alpha: real
    var epsilon: real

    /** A learner over both tables with alpha = epsilon = 0.8; gamma is always 0.5 (see Sample). */
    constructor (qTable: QTable<StateValue>, visitedStates: QTable<StateValue>, clock: Clock)
      ensures this.qTable == qTable && this.visitedStates == visitedStates && this.clock == clock
      ensures alpha == INITIALRATE && epsilon == INITIALRATE
    {
      this.qTable := qTable;
      this.visitedStates := visitedStates;
      this.clock := clock;
      alpha := INITIALRATE;
      epsilon := INITIALRATE;
    }

    /** Both tables well shaped and stored apart. */
    ghost predicate Valid()
      reads this, qTable, qTable.table, visitedStates, visitedStates.table
    {
      qTable.Valid() && visitedStates.Valid() && qTable.table != visitedStates.table
    }

    /**
     * learn: Q(previous, lastAction) moves toward 0 + gamma * max Q(current)
     * with the current alpha, the visit count of (previous, lastAction) grows
     * by one, and no other cell of either table changes; then the rates are
     * annealed, the clock ticks, and the next action is chosen with the new
     * epsilon on the updated table.
     */
    method Learn(previousState: AgentStatesV2.AgentState, lastAction: Action, currentState: AgentStatesV2.AgentState, draw: real)
      returns (next: Action)
      requires Valid() && |qTable.actions| > 0 && lastAction in qTable.actions && lastAction in visitedStates.actions
      requires previousState.Value() in qTable.states && currentState.Value() in qTable.states
      requires previousState.Value() in visitedStates.states
      modifies qTable.table, visitedStates.table, this`alpha, this`epsilon, clock
      ensures Valid()
      ensures qTable.table.rows == Learnt(old(qTable.table.rows), qTable.states, qTable.actions, previousState.Value(), lastAction,
        Reward(previousState.Value(), lastAction, currentState.Value()), currentState.Value(), old(alpha))
      ensures visitedStates.table.rows == Visited(old(visitedStates.table.rows), visitedStates.states, visitedStates.actions,
        previousState.Value(), lastAction)
      ensures qTable.Get(previousState.Value(), lastAction) == NewQValue(
        old(qTable.Get(previousState.Value(), lastAction)),
        Sample(Reward(previousState.Value(), lastAction, currentState.Value()), old(RowMax(qTable.QRow(currentState.Value())))),
        old(alpha))
      ensures forall s, a ::
        (s in qTable.states && a in qTable.actions && (s != previousState.Value() || a != lastAction)
         ==> qTable.Get(s, a) == old(qTable.Get(s, a)))
      ensures visitedStates.Get(previousState.Value(), lastAction) == old(visitedStates.Get(previousState.Value(), lastAction)) + 1.0
      ensures forall s, a ::
        (s in visitedStates.states && a in visitedStates.actions && (s != previousState.Value() || a != lastAction)
         ==> visitedStates.Get(s, a) == old(visitedStates.Get(s, a)))
      ensures clock.time == old(clock.time) + 1
      ensures alpha == AnnealedRate(SCALE, CONSTANT, old(clock.time)) && epsilon == alpha
      ensures draw < epsilon ==> next in qTable.actions
      ensures draw >= epsilon ==> next == qTable.actions[FirstArgMax(qTable.QRow(currentState.Value()))]
    {
      var sample := Reward(previousState.Value(), lastAction, currentState.Value());
      var maxNext := qTable.GetMaxQValue(currentState.Value());
      sample := Sample(sample, maxNext);
      var newQValue := NewQValue(qTable.Get(previousState.Value(), lastAction), sample, alpha);
      qTable.Set(previousState.Value(), lastAction, newQValue);

      visitedStates.Set(previousState.Value(), lastAction, visitedStates.Get(previousState.Value(), lastAction) + 1.0);

      UpdateConstants();

      next := NextAction(currentState, draw);
    }

    /** nextAction: a random action when the draw is below epsilon, the best action of the current state otherwise. */
    method NextAction(currentState: AgentStatesV2.AgentState, draw: real) returns (next: Action)
      requires qTable.Valid() && |qTable.actions| > 0 && currentState.Value() in qTable.states
      ensures draw < epsilon ==> next in qTable.actions
      ensures draw >= epsilon ==> next == qTable.actions[FirstArgMax(qTable.QRow(currentState.Value()))]
    {
      if draw < epsilon {
        next := qTable.GetRandomAction();
      } else {
        next := qTable.GetBestAction(currentState.Value());
      }
    }

    /** updateConstants: alpha and epsilon from the schedule at the current tick, then the tick. */
    method UpdateConstants()
      modifies this`alpha, this`epsilon, clock
      ensures alpha == AnnealedRate(SCALE, CONSTANT, old(clock.time)) && epsilon == alpha
      ensures clock.time == old(clock.time) + 1
    {
      alpha := SCALE * CONSTANT / (CONSTANT + clock.time as real);
      epsilon := SCALE * CONSTANT / (CONSTANT + clock.time as real);
      clock.Tick();
    }
  }
}
