/**
 * Brain of the third agent generation (GVG_AI_V2): the facade the game agent
 * calls each tick. It learns every transition (there is no dead counter and
 * no portal gate), learns the final transition once more from the score the
 * game ends with, and always plays ACTION_RIGHT.
 *
 * The Q-table is loaded from the CSV file `stored` when there is one; the
 * visit counts start at zero. `Math.atan` and the uniform draw of
 * nextAction are parameters.
 */
module BrainsV2 {
  import opened Host
  import opened Wrappers
  import opened Matrices
  import opened QTables
  import opened StatesV2
  import opened Updates
  import opened AgentStatesV2
  import AgentStates
  import LearningV2
  import GeneratorV2
  import Portals

  class Brain {
    const qLearning: LearningV2.QLearning
    var currentState: AgentState
    var previousState: AgentState
    var lastAction: Action
    const savePath: string
    const qTable: QTable<StateValue>
    const visitedStates: QTable<StateValue>

    /**
     * Two separate snapshots, each holding a portal and a state of the table;
     * both tables over the generated states and the same actions, at least
     * one of them, shared with the learner.
     */
    ghost predicate Valid()
      reads this`currentState, this`previousState, currentState, previousState
      reads qTable, qTable.table, visitedStates, visitedStates.table, qLearning
    {
      && currentState != previousState
      && currentState.Valid() && currentState.portalCell.Some?
      && previousState.Valid() && previousState.portalCell.Some?
      && qLearning.qTable == qTable && qLearning.visitedStates == visitedStates
      && qLearning.Valid()
      && qTable.states == GeneratorV2.Space() && visitedStates.states == GeneratorV2.Space()
      && qTable.actions == visitedStates.actions && |qTable.actions| > 0
      && currentState.Value() in qTable.states && previousState.Value() in qTable.states
    }

    /**
     * Both snapshots perceive the first observation; the Q-table has a row
     * per generated state and a column per available action, read from
     * `stored` when the file exists; the visit counts start at 0 (see
     * NewLearner).
     */
    constructor (stateObs: GameObservation, savePath: string, atan: real -> real, stored: Option<seq<seq<real>>>, clock: Clock)
      requires Ready(stateObs) && IsAtan(atan) && |Portals.Portals(stateObs.grid)| > 0
      requires |stateObs.availableActions| > 0
      requires stored.Some? ==> Shaped(stored.value, |GeneratorV2.Space()|, |stateObs.availableActions|)
      ensures Valid() && fresh(currentState) && fresh(previousState) && fresh(qTable.table) && fresh(visitedStates.table)
      ensures qTable.actions == stateObs.availableActions
      ensures stored.Some? ==> qTable.table.rows == stored.value
      ensures qLearning.clock == clock && qLearning.alpha == INITIALRATE && qLearning.epsilon == INITIALRATE
      ensures currentState.Value() == Features(stateObs, atan, currentState.orientationRad, FALSE, currentState.portalReal.value)
      ensures previousState.Value() == Features(stateObs, atan, previousState.orientationRad, FALSE, previousState.portalReal.value)
      ensures currentState.orientationRad == previousState.orientationRad == AgentStates.Turned(0.0, stateObs.lastAction)
      ensures lastAction == stateObs.lastAction && this.savePath == savePath
    {
      var table, visits, learner := NewLearner(stateObs.availableActions, stored, clock);
      qTable := table;
      visitedStates := visits;
      qLearning := learner;
      var current, previous := NewSnapshots(stateObs, atan);
      currentState := current;
      previousState := previous;
      lastAction := stateObs.lastAction;
      this.savePath := savePath;
    }

    /** Two separate snapshots of the first observation, both facing the same way and holding a portal. */
    static method NewSnapshots(stateObs: GameObservation, atan: real -> real) returns (current: AgentState, previous: AgentState)
      requires Ready(stateObs) && IsAtan(atan) && |Portals.Portals(stateObs.grid)| > 0
      ensures fresh(current) && fresh(previous) && current != previous
      ensures current.Valid() && current.portalCell.Some? && previous.Valid() && previous.portalCell.Some?
      ensures current.Value() == Features(stateObs, atan, current.orientationRad, FALSE, current.portalReal.value)
      ensures previous.Value() == Features(stateObs, atan, previous.orientationRad, FALSE, previous.portalReal.value)
      ensures current.orientationRad == previous.orientationRad == AgentStates.Turned(0.0, stateObs.lastAction)
      ensures current.Value() in GeneratorV2.Space() && previous.Value() in GeneratorV2.Space()
    {
      current := new AgentState(stateObs, atan);
      previous := new AgentState(stateObs, atan);
      FeaturesInSpace(stateObs, atan, current.orientationRad, FALSE, current.portalReal.value);
      FeaturesInSpace(stateObs, atan, previous.orientationRad, FALSE, previous.portalReal.value);
    }

    /** The Q-table loaded from `stored` when present, the zeroed visit counts, and their learner. */
    static method NewLearner(actions: seq<Action>, stored: Option<seq<seq<real>>>, clock: Clock)
      returns (table: QTable<StateValue>, visits: QTable<StateValue>, learner: LearningV2.QLearning)
      requires |actions| > 0
      requires stored.Some? ==> Shaped(stored.value, |GeneratorV2.Space()|, |actions|)
      ensures fresh(table) && fresh(table.table) && fresh(visits) && fresh(visits.table) && fresh(learner)
      ensures learner.Valid() && learner.qTable == table && learner.visitedStates == visits
      ensures table.states == GeneratorV2.Space() && visits.states == GeneratorV2.Space()
      ensures table.actions == actions && visits.actions == actions
      ensures stored.Some? ==> table.table.rows == stored.value
      ensures forall s, a :: s in visits.states && a in visits.actions ==> visits.Get(s, a) == 0.0
      ensures learner.clock == clock && learner.alpha == INITIALRATE && learner.epsilon == INITIALRATE
    {
      var states := GeneratorV2.Generate();
      table := new QTable(states, actions, stored);
      visits := new QTable.WithZeros(states, actions);
      learner := new LearningV2.QLearning(table, visits, clock);
    }

    /**
     * learn: the previous snapshot becomes a copy of the current one, the
     * current one perceives the new observation, the transition is learnt
     * with the observed last action, and the learner's next action becomes
     * the last action.
     */
    method Learn(stateObs: GameObservation, atan: real -> real, draw: real) returns (next: Action)
      requires Valid() && Ready(stateObs) && IsAtan(atan) && stateObs.lastAction in qTable.actions
      modifies this`previousState, this`lastAction, currentState, qTable.table, visitedStates.table, qLearning, qLearning.clock
      ensures Valid() && fresh(previousState)
      ensures previousState.Value() == old(currentState.Value()) && previousState.portalCell == old(currentState.portalCell)
      ensures currentState.portalCell == old(currentState.portalCell)
      ensures currentState.orientationRad == AgentStates.Turned(old(currentState.orientationRad), stateObs.lastAction)
      ensures currentState.Value() == Features(stateObs, atan, currentState.orientationRad, old(currentState.fast), currentState.portalReal.value)
      ensures qTable.table.rows == Learnt(old(qTable.table.rows), qTable.states, qTable.actions,
        old(currentState.Value()), stateObs.lastAction, 0.0, currentState.Value(), old(qLearning.alpha))
      ensures visitedStates.table.rows == Visited(old(visitedStates.table.rows), visitedStates.states, visitedStates.actions,
        old(currentState.Value()), stateObs.lastAction)
      ensures qLearning.clock.time == old(qLearning.clock.time) + 1
      ensures next == lastAction
      ensures draw < qLearning.epsilon ==> next in qTable.actions
      ensures draw >= qLearning.epsilon ==> next == qTable.actions[FirstArgMax(qTable.QRow(currentState.Value()))]
    {
      Observe(stateObs, atan);
      next := Step(draw);
      lastAction := next;
    }

    /** The bookkeeping half of learn: the snapshot copy, the perception and the last action. */
    method Observe(stateObs: GameObservation, atan: real -> real)
      requires Valid() && Ready(stateObs) && IsAtan(atan)
      modifies this`previousState, this`lastAction, currentState
      ensures Valid() && fresh(previousState)
      ensures previousState.Value() == old(currentState.Value()) && previousState.portalCell == old(currentState.portalCell)
      ensures currentState.portalCell == old(currentState.portalCell)
      ensures currentState.orientationRad == AgentStates.Turned(old(currentState.orientationRad), stateObs.lastAction)
      ensures currentState.Value() == Features(stateObs, atan, currentState.orientationRad, old(currentState.fast), currentState.portalReal.value)
      ensures lastAction == stateObs.lastAction
    {
      previousState := new AgentState.Copy(currentState);
      currentState.Perceive(stateObs, atan);
      FeaturesInSpace(stateObs, atan, currentState.orientationRad, old(currentState.fast), currentState.portalReal.value);
      lastAction := stateObs.lastAction;
    }

    /**
     * The learner's learn on the two snapshots and the last action:
     * Q(previous, lastAction) moves toward 0 + gamma * max Q(current), its
     * visit count grows by one, no other cell changes (LearntCells,
     * VisitedCells), the clock ticks, and the next action is epsilon-greedy
     * on the updated table.
     */
    method Step(draw: real) returns (next: Action)
      requires Valid() && lastAction in qTable.actions
      modifies qTable.table, visitedStates.table, qLearning, qLearning.clock
      ensures Valid()
      ensures qTable.table.rows == Learnt(old(qTable.table.rows), qTable.states, qTable.actions,
        previousState.Value(), lastAction, 0.0, currentState.Value(), old(qLearning.alpha))
      ensures visitedStates.table.rows == Visited(old(visitedStates.table.rows), visitedStates.states, visitedStates.actions,
        previousState.Value(), lastAction)
      ensures qLearning.clock.time == old(qLearning.clock.time) + 1
      ensures draw < qLearning.epsilon ==> next in qTable.actions
      ensures draw >= qLearning.epsilon ==> next == qTable.actions[FirstArgMax(qTable.QRow(currentState.Value()))]
    {
      next := qLearning.Learn(previousState, lastAction, currentState, draw);
    }

    /**
     * learnLastAction: a final score of 0 marks the current snapshot dead,
     * any other score marks it the winner; then the last transition is
     * learnt once more (the chosen next action is dropped).
     */
    method LearnLastAction(score: real, draw: real)
      requires Valid() && lastAction in qTable.actions
      modifies currentState`agentDead, currentState`agentWinner, qTable.table, visitedStates.table, qLearning, qLearning.clock
      ensures Valid()
      ensures score == 0.0 ==> currentState.agentDead && !currentState.agentWinner
      ensures score != 0.0 ==> !currentState.agentDead && currentState.agentWinner
      ensures qTable.table.rows == Learnt(old(qTable.table.rows), qTable.states, qTable.actions,
        previousState.Value(), lastAction, 0.0, currentState.Value(), old(qLearning.alpha))
      ensures visitedStates.table.rows == Visited(old(visitedStates.table.rows), visitedStates.states, visitedStates.actions,
        previousState.Value(), lastAction)
      ensures qLearning.clock.time == old(qLearning.clock.time) + 1
    {
      if score == 0.0 {
        currentState.SetAgentDead(true);
        currentState.SetAgentWinner(false);
      } else {
        currentState.SetAgentDead(false);
        currentState.SetAgentWinner(true);
      }
      var _ := Step(draw);
    }

    /**
     * act: perceives the observation (the history file is written after)
     * and always answers ACTION_RIGHT; the table is not consulted.
     */
    method Act(stateObs: GameObservation, atan: real -> real) returns (action: Action)
      requires Valid() && Ready(stateObs) && IsAtan(atan)
      modifies currentState
      ensures Valid() && currentState.portalCell == old(currentState.portalCell)
      ensures currentState.orientationRad == AgentStates.Turned(old(currentState.orientationRad), stateObs.lastAction)
      ensures currentState.Value() == Features(stateObs, atan, currentState.orientationRad, old(currentState.fast), currentState.portalReal.value)
      ensures action == ActionRight
    {
      currentState.Perceive(stateObs, atan);
      FeaturesInSpace(stateObs, atan, currentState.orientationRad, old(currentState.fast), currentState.portalReal.value);
      action := ActionRight;
    }
  }
}
