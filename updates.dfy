/**
 * What the Q-learning classes of both generations share: the tick counter
 * (QLearning's static `time`), the one-step update rule and the annealing
 * schedule that sets the learning and exploration rates.
 */
module Updates {
  import opened Host
  import opened Matrices
  import opened QTables

  /** alpha and epsilon before the first update. */
  const INITIALRATE: real := 0.8

  /**
   * QLearning's static `time`: one counter shared by every learner of a
   * generation, advanced once per update. It starts at 0 and only ever
   * grows by one, so it is a natural number here.
   */
  class Clock {
    var time: nat

    constructor ()
      ensures time == 0
    {
      time := 0;
    }

    method Tick()
      modifies this
      ensures time == old(time) + 1
    {
      time := time + 1;
    }
  }

  /**
   * The target of one update: the reward plus the best value of the next
   * state discounted by gamma, which is always 0.5.
   */
  function Sample(reward: real, maxNext: real): real
  {
    reward + 0.5 * maxNext
  }

  /**
   * The update `(1 - alpha) * q + alpha * sample`: the distance to the
   * sample shrinks by the factor 1 - alpha.
   */
  function NewQValue(q: real, sample: real, alpha: real): (r: real)
    ensures r - sample == (1.0 - alpha) * (q - sample)
  {
    (1.0 - alpha) * q + alpha * sample
  }

  /**
   * The cells after learn's update of (previous, action): that cell moves
   * toward reward + gamma * max Q(current) at the rate alpha.
   */
  function Learnt<S(==)>(rows: seq<seq<real>>, states: seq<S>, actions: seq<Action>,
                         previous: S, action: Action, reward: real, current: S, alpha: real): seq<seq<real>>
    requires Shaped(rows, |states|, |actions|) && previous in states && current in states && action in actions
  {
    WithCell(rows, IndexOf(states, previous), IndexOf(actions, action),
      NewQValue(Lookup(rows, states, actions, previous, action),
                Sample(reward, RowMax(rows[IndexOf(states, current)])), alpha))
  }

  /**
   * After the update the table keeps its shape, Q(previous, action) is the
   * new value, and every other cell reads as before.
   */
  lemma LearntCells<S>(rows: seq<seq<real>>, states: seq<S>, actions: seq<Action>,
                       previous: S, action: Action, reward: real, current: S, alpha: real)
    requires Shaped(rows, |states|, |actions|) && previous in states && current in states && action in actions
    ensures Shaped(Learnt(rows, states, actions, previous, action, reward, current, alpha), |states|, |actions|)
    ensures Lookup(Learnt(rows, states, actions, previous, action, reward, current, alpha), states, actions, previous, action)
      == NewQValue(Lookup(rows, states, actions, previous, action),
                   Sample(reward, RowMax(rows[IndexOf(states, current)])), alpha)
    ensures forall s, a :: s in states && a in actions && (s != previous || a != action) ==>
      Lookup(Learnt(rows, states, actions, previous, action, reward, current, alpha), states, actions, s, a)
      == Lookup(rows, states, actions, s, a)
  {
    var v := NewQValue(Lookup(rows, states, actions, previous, action),
                       Sample(reward, RowMax(rows[IndexOf(states, current)])), alpha);
    assert Learnt(rows, states, actions, previous, action, reward, current, alpha)
      == WithCell(rows, IndexOf(states, previous), IndexOf(actions, action), v);
    LookupAfterSet(rows, states, actions, previous, action, v);
  }

  /** The visit counts after learn counted (previous, action) once more. */
  function Visited<S(==)>(rows: seq<seq<real>>, states: seq<S>, actions: seq<Action>, previous: S, action: Action)
    : seq<seq<real>>
    requires Shaped(rows, |states|, |actions|) && previous in states && action in actions
  {
    WithCell(rows, IndexOf(states, previous), IndexOf(actions, action), Lookup(rows, states, actions, previous, action) + 1.0)
  }

  /** Counting a visit keeps the shape, adds one to (previous, action) and leaves every other count alone. */
  lemma VisitedCells<S>(rows: seq<seq<real>>, states: seq<S>, actions: seq<Action>, previous: S, action: Action)
    requires Shaped(rows, |states|, |actions|) && previous in states && action in actions
    ensures Shaped(Visited(rows, states, actions, previous, action), |states|, |actions|)
    ensures Lookup(Visited(rows, states, actions, previous, action), states, actions, previous, action)
      == Lookup(rows, states, actions, previous, action) + 1.0
    ensures forall s, a :: s in states && a in actions && (s != previous || a != action) ==>
      Lookup(Visited(rows, states, actions, previous, action), states, actions, s, a) == Lookup(rows, states, actions, s, a)
  {
    LookupAfterSet(rows, states, actions, previous, action, Lookup(rows, states, actions, previous, action) + 1.0);
  }

  /**
   * With a rate in (0, 1] the new value lies between the old value and the
   * sample; a rate of 1 jumps to the sample and a value at the sample stays.
   */
  lemma NewQValueBetween(q: real, sample: real, alpha: real)
    requires 0.0 < alpha <= 1.0
    ensures q <= sample ==> q <= NewQValue(q, sample, alpha) <= sample
    ensures sample <= q ==> sample <= NewQValue(q, sample, alpha) <= q
    ensures q == sample || alpha == 1.0 ==> NewQValue(q, sample, alpha) == sample
  {
    Shrinks(1.0 - alpha, q - sample);
  }

  /** With a rate in (0, 1) a value away from the sample moves, and does not reach it. */
  lemma NewQValueStrict(q: real, sample: real, alpha: real)
    requires 0.0 < alpha < 1.0 && q != sample
    ensures NewQValue(q, sample, alpha) != q && NewQValue(q, sample, alpha) != sample
  {
    Shrinks(1.0 - alpha, q - sample);
  }

  /** A factor in [0, 1] keeps d's sign and shrinks it; strictly when the factor is below 1. */
  lemma Shrinks(f: real, d: real)
    requires 0.0 <= f <= 1.0
    ensures d <= 0.0 ==> d <= f * d <= 0.0
    ensures d >= 0.0 ==> 0.0 <= f * d <= d
    ensures d != 0.0 && f < 1.0 ==> f * d != d
    ensures d != 0.0 && f > 0.0 ==> f * d != 0.0
  {
    assert f * d - d == (f - 1.0) * d;
  }

  /** `scale * constant / (constant + time)`: the rate updateConstants installs at tick `time`. */
  function AnnealedRate(scale: real, constant: real, time: nat): (r: real)
    requires scale > 0.0 && constant > 0.0
    ensures 0.0 < r <= scale
  {
    var d := constant + time as real;
    assert scale * constant <= scale * d;
    assert (scale * constant / d) * d == scale * constant;
    scale * constant / d
  }

  /** The schedule starts at `scale` and falls strictly with every tick. */
  lemma AnnealedRateDecreases(scale: real, constant: real, t1: nat, t2: nat)
    requires scale > 0.0 && constant > 0.0 && t1 < t2
    ensures AnnealedRate(scale, constant, 0) == scale
    ensures AnnealedRate(scale, constant, t2) < AnnealedRate(scale, constant, t1)
  {
    DivFalls(scale * constant, constant, constant);
    DivFalls(scale * constant, constant + t1 as real, constant + t2 as real);
  }

  /** A positive numerator over a larger positive denominator gives less; over itself, the same. */
  lemma DivFalls(n: real, d1: real, d2: real)
    requires n > 0.0 && 0.0 < d1 <= d2
    ensures d1 < d2 ==> n / d2 < n / d1
    ensures (n / d1) * d1 == n
  {
    var r1 := n / d1;
    var r2 := n / d2;
    assert r1 * d1 == n && r2 * d2 == n;
    if d1 < d2 {
      assert r2 * d1 < r2 * d2;
    }
  }

  /** The schedule falls below any positive bound: exploration and learning fade out. */
  lemma AnnealedRateVanishes(scale: real, constant: real, bound: real) returns (t: nat)
    requires scale > 0.0 && constant > 0.0 && bound > 0.0
    ensures AnnealedRate(scale, constant, t) < bound
  {
    var n := scale * constant;
    t := (n / bound).Floor + 1;
    var d := constant + t as real;
    assert d > n / bound;
    assert (n / bound) * bound == n;
    assert d * bound > n;
    assert (n / d) * d == n;
    assert (n / d) * d < bound * d;
  }
}
