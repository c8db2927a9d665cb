/**
 * Brain of the first agent generation (GVG_AI): the facade the game agent
 * calls each tick. It keeps the current perception and a snapshot of the
 * previous one, counts consecutive dead ticks, withholds learning (answering
 * ACTION_NIL) after repeated deaths or while either snapshot lacks a portal,
 * and otherwise hands the transition to QLearning.
 *
 * The Q-table rows are the ZoneStates the perception produces, in the order
 * of the four-feature generator (see README). The CSV file the table is
 * loaded from is a parameter (`stored`); `Math.atan` of the heading and the
 * uniform draw of nextAction are parameters too.
 */
module Brains {
  import opened Host
  import opened Wrappers
  import opened Matrices
  import opened QTables
  import opened ZoneStates
  import opened Updates
  import opened AgentStates
  import Learning
  import GeneratorV1
  import Portals
  import Geometry

  /** Two perceptions with the same last action turn the agent twice: 0.4 radians for LEFT or RIGHT. */
  lemma TurnedTwice(orientationRad: real, lastAction: Action)
    ensures lastAction == ActionLeft ==> Turned(Turned(orientationRad, lastAction), lastAction) == orientationRad + 0.4
    ensures lastAction == ActionRight ==> Turned(Turned(orientationRad, lastAction), lastAction) == orientationRad - 0.4
    ensures lastAction != ActionLeft && lastAction != ActionRight ==>
      Turned(Turned(orientationRad, lastAction), lastAction) == orientationRad
  {
  }

  class Brain {
    const qLearning: Learning.QLearning
    var currentState: AgentState
    var previousState: AgentState
    var lastAction: Action
    const savePath: string
    var deadCounter: int
    const qTable: QTable<ZoneState>

    /**
     * Two separate snapshots, the current one holding a portal and a state
     * of the table; a well-shaped table over the generated states with at
     * least one action, shared with the learner.
     */
    ghost predicate Valid()
      reads this, currentState, previousState, qTable, qTable.table, qLearning
    {
      && currentState != previousState
      && currentState.Valid() && currentState.portalCell.Some?
      && previousState.Valid()
      && qLearning.qTable == qTable
      && qTable.Valid() && qTable.states == GeneratorV1.Space() && |qTable.actions| > 0
      && currentState.Value() in qTable.states
    }

    /**
     * Both snapshots perceive the first observation; the table has a row per
     * generated state and a column per available action, read from
     * `stored` when the file exists; the dead counter starts at 0.
     */
    constructor (stateObs: GameObservation, savePath: string, atanDeg: real, stored: Option<seq<seq<real>>>, clock: Clock)
      requires Perceivable(stateObs, atanDeg)
      requires Locatable(stateObs.grid, Geometry.CalculateCell(stateObs.avatarPosition, stateObs.blockSize), stateObs.blockSize)
      requires |stateObs.availableActions| > 0
      requires stored.Some? ==> Shaped(stored.value, |GeneratorV1.Space()|, |stateObs.availableActions|)
      ensures Valid() && fresh(currentState) && fresh(previousState) && fresh(qTable.table)
      ensures qTable.states == GeneratorV1.Space() && qTable.actions == stateObs.availableActions
      ensures stored.Some? ==> qTable.table.rows == stored.value
      ensures qLearning.clock == clock && qLearning.alpha == INITIALRATE && qLearning.epsilon == INITIALRATE
      ensures currentState.Value() == Features(stateObs, atanDeg, currentState.orientationRad, currentState.portalCell)
      ensures previousState.Value() == Features(stateObs, atanDeg, previousState.orientationRad, previousState.portalCell)
      ensures currentState.orientationRad == previousState.orientationRad == Turned(0.0, stateObs.lastAction)
      ensures lastAction == stateObs.lastAction && deadCounter == 0 && this.savePath == savePath
    {
      this.savePath := savePath;
      var current, previous := NewSnapshots(stateObs, atanDeg);
      lastAction := stateObs.lastAction;
      var table, learner := NewLearner(stateObs.availableActions, stored, clock);
      currentState := current;
      previousState := previous;
      qTable := table;
      qLearning := learner;
      deadCounter := 0;
    }

    /** Two separate snapshots of the first observation, both facing the same way and holding a portal. */
    static method NewSnapshots(stateObs: GameObservation, atanDeg: real) returns (current: AgentState, previous: AgentState)
      requires Perceivable(stateObs, atanDeg)
      requires Locatable(stateObs.grid, Geometry.CalculateCell(stateObs.avatarPosition, stateObs.blockSize), stateObs.blockSize)
      ensures fresh(current) && fresh(previous) && current != previous
      ensures current.Valid() && current.portalCell.Some? && previous.Valid()
      ensures current.Value() == Features(stateObs, atanDeg, current.orientationRad, current.portalCell)
      ensures previous.Value() == Features(stateObs, atanDeg, previous.orientationRad, previous.portalCell)
      ensures current.orientationRad == previous.orientationRad == Turned(0.0, stateObs.lastAction)
      ensures current.Value() in GeneratorV1.Space()
    {
      current := new AgentState(stateObs, atanDeg);
      previous := new AgentState(stateObs, atanDeg);
      FeaturesInSpace(stateObs, atanDeg, current.orientationRad, current.portalCell);
    }

    /** The table over the generated states, loaded from `stored` when present, and its learner. */
    static method NewLearner(actions: seq<Action>, stored: Option<seq<seq<real>>>, clock: Clock)
      returns (table: QTable<ZoneState>, learner: Learning.QLearning)
      requires |actions| > 0
      requires stored.Some? ==> Shaped(stored.value, |GeneratorV1.Space()|, |actions|)
      ensures fresh(table) && fresh(table.table) && fresh(learner)
      ensures table.Valid() && table.states == GeneratorV1.Space() && table.actions == actions
      ensures stored.Some? ==> table.table.rows == stored.value
      ensures learner.qTable == table && learner.clock == clock
      ensures learner.alpha == INITIALRATE && learner.epsilon == INITIALRATE
    {
      var states := GeneratorV1.Generate();
      table := new QTable(states, actions, stored);
      learner := new Learning.QLearning(table, clock);
    }

    /**
     * learn: the previous snapshot becomes a copy of the current one, the
     * current one perceives the new observation, and the transition is
     * learnt. Perceiving clears the dead flag and keeps the portal, so the
     * dead counter is 0 and the ACTION_NIL gate never closes.
     */
    method Learn(stateObs: GameObservation, atanDeg: real, draw: real) returns (next: Action)
      requires Valid() && Perceivable(stateObs, atanDeg) && stateObs.lastAction in qTable.actions
      modifies this, currentState, qTable.table, qLearning, qLearning.clock
      ensures Valid() && fresh(previousState) && currentState == old(currentState)
      ensures previousState.Value() == old(currentState.Value())
      ensures previousState.agentCell == old(currentState.agentCell) && previousState.portalCell == old(currentState.portalCell)
      ensures currentState.portalCell == old(currentState.portalCell)
      ensures currentState.orientationRad == Turned(old(currentState.orientationRad), stateObs.lastAction)
      ensures currentState.Value() == Features(stateObs, atanDeg, currentState.orientationRad, currentState.portalCell)
      ensures lastAction == stateObs.lastAction && deadCounter == 0
      ensures qTable.Get(previousState.Value(), lastAction) == NewQValue(
        old(qTable.Get(currentState.Value(), stateObs.lastAction)),
        Sample(Learning.Reward(previousState.Value(), currentState.Value(), false, false),
               RowMax(old(qTable.table.rows)[IndexOf(qTable.states, currentState.Value())])),
        old(qLearning.alpha))
      ensures forall s, a ::
        (s in qTable.states && a in qTable.actions && (s != previousState.Value() || a != lastAction)
         ==> qTable.Get(s, a) == old(qTable.Get(s, a)))
      ensures qLearning.clock.time == old(qLearning.clock.time) + 1
      ensures draw < qLearning.epsilon ==> next in qTable.actions
      ensures draw >= qLearning.epsilon ==> next == qTable.actions[FirstArgMax(qTable.QRow(currentState.Value()))]
    {
      Observe(stateObs, atanDeg);
      ghost var q := qTable.Get(previousState.Value(), lastAction);
      ghost var maxNext := RowMax(qTable.QRow(currentState.Value()));
      ghost var alpha := qLearning.alpha;
      assert q == old(qTable.Get(currentState.Value(), stateObs.lastAction));
      assert maxNext == RowMax(old(qTable.table.rows)[IndexOf(qTable.states, currentState.Value())]);

      if deadCounter > 1 || !currentState.PortalExist() || !previousState.PortalExist() {
        next := ActionNil;
      } else {
        next := qLearning.Learn(previousState, lastAction, currentState, draw);
        assert qTable.Get(previousState.Value(), lastAction) == NewQValue(
          q, Sample(Learning.Reward(previousState.Value(), currentState.Value(), false, false), maxNext), alpha);
      }
    }

    /**
     * The bookkeeping half of learn: the snapshot copy, the perception, the
     * last action and the dead counter.
     */
    method Observe(stateObs: GameObservation, atanDeg: real)
      requires Valid() && Perceivable(stateObs, atanDeg)
      modifies this`previousState, this`lastAction, this`deadCounter, currentState
      ensures Valid() && fresh(previousState)
      ensures previousState.Value() == old(currentState.Value())
      ensures previousState.agentCell == old(currentState.agentCell) && previousState.portalCell == old(currentState.portalCell)
      ensures currentState.portalCell == old(currentState.portalCell) && !currentState.agentDead && !currentState.agentWinner
      ensures currentState.orientationRad == Turned(old(currentState.orientationRad), stateObs.lastAction)
      ensures currentState.Value() == Features(stateObs, atanDeg, currentState.orientationRad, currentState.portalCell)
      ensures lastAction == stateObs.lastAction && deadCounter == 0
    {
      previousState := new AgentState.Copy(currentState);
      currentState.Perceive(stateObs, atanDeg);
      FeaturesInSpace(stateObs, atanDeg, currentState.orientationRad, currentState.portalCell);
      lastAction := stateObs.lastAction;

      var counter := deadCounter;
      if currentState.agentDead {
        counter := counter + 1;
      } else {
        counter := 0;
      }
      deadCounter := counter;
    }

    /**
     * act: perceives the observation twice (the history file is written in
     * between) and answers the best action of the current state, or
     * ACTION_NIL when there is no portal or the agent is dead, which
     * perceiving rules out.
     */
    method Act(stateObs: GameObservation, atanDeg: real) returns (action: Action)
      requires Valid() && Perceivable(stateObs, atanDeg)
      modifies currentState
      ensures Valid() && currentState.portalCell == old(currentState.portalCell)
      ensures currentState.orientationRad == Turned(Turned(old(currentState.orientationRad), stateObs.lastAction), stateObs.lastAction)
      ensures currentState.Value() == Features(stateObs, atanDeg, currentState.orientationRad, currentState.portalCell)
      ensures action == qTable.actions[FirstArgMax(qTable.QRow(currentState.Value()))]
    {
      currentState.Perceive(stateObs, atanDeg);
      currentState.Perceive(stateObs, atanDeg);
      FeaturesInSpace(stateObs, atanDeg, currentState.orientationRad, currentState.portalCell);
      if currentState.PortalExist() && !currentState.agentDead {
        action := qTable.GetBestAction(currentState.Value());
      } else {
        action := ActionNil;
      }
    }
  }
}
