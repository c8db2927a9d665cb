/**
 * QTable: a states x actions matrix of Q-values. Rows follow the order of
 * the state list and columns the order of the action list; a cell is found
 * through the first index of its state and of its action (indexOf, which
 * compares with equals).
 *
 * The source extends Matrix; here a QTable owns a Matrix of reals. The
 * source keeps each Q-value as the text of a float; the model keeps the
 * value itself.
 */
module QTables {
  import opened Wrappers
  import opened Host
  import opened Matrices

  /** ArrayList.indexOf: the first position holding x, or -1 when x is absent. */
  function IndexOf<T(==)>(s: seq<T>, x: T): (i: int)
    ensures -1 <= i < |s|
    ensures i == -1 <==> x !in s
    ensures 0 <= i ==> s[i] == x && forall k :: 0 <= k < i ==> s[k] != x
  {
    if |s| == 0 then -1
    else if s[0] == x then 0
    else
      var j := IndexOf(s[1..], x);
      if j == -1 then -1 else j + 1
  }

  /** Two different present keys are looked up at different positions. */
  lemma IndexOfSeparates<T>(s: seq<T>, x: T, y: T)
    requires x in s && y in s && x != y
    ensures IndexOf(s, x) != IndexOf(s, y)
  {
  }

  /** Exactly `height` rows of `width` cells. */
  predicate Shaped<T>(rows: seq<seq<T>>, height: nat, width: nat)
  {
    |rows| == height && forall i :: 0 <= i < |rows| ==> |rows[i]| == width
  }

  /** The Q-value of (s, a): the cell at s's first row and a's first column. */
  function Lookup<S(==)>(rows: seq<seq<real>>, states: seq<S>, actions: seq<Action>, s: S, a: Action): real
    requires Shaped(rows, |states|, |actions|) && s in states && a in actions
  {
    rows[IndexOf(states, s)][IndexOf(actions, a)]
  }

  /**
   * Writing the cell of (s, a) makes it read back as v; every other pair
   * of a present state and a present action reads as before, and the table
   * keeps its shape.
   */
  lemma LookupAfterSet<S>(rows: seq<seq<real>>, states: seq<S>, actions: seq<Action>, s: S, a: Action, v: real)
    requires Shaped(rows, |states|, |actions|) && s in states && a in actions
    ensures Shaped(WithCell(rows, IndexOf(states, s), IndexOf(actions, a), v), |states|, |actions|)
    ensures Lookup(WithCell(rows, IndexOf(states, s), IndexOf(actions, a), v), states, actions, s, a) == v
    ensures forall s', a' :: s' in states && a' in actions && (s' != s || a' != a) ==>
              Lookup(WithCell(rows, IndexOf(states, s), IndexOf(actions, a), v), states, actions, s', a')
              == Lookup(rows, states, actions, s', a')
  {
    forall s', a' | s' in states && a' in actions && (s' != s || a' != a)
      ensures IndexOf(states, s') != IndexOf(states, s) || IndexOf(actions, a') != IndexOf(actions, a)
    {
      if s' != s {
        IndexOfSeparates(states, s', s);
      } else {
        IndexOfSeparates(actions, a', a);
      }
    }
  }

  /** The largest value of a non-empty row. */
  function RowMax(row: seq<real>): (m: real)
    requires |row| > 0
    ensures m in row
    ensures forall i :: 0 <= i < |row| ==> row[i] <= m
  {
    if |row| == 1 then row[0]
    else
      var m := RowMax(row[..|row| - 1]);
      if m < row[|row| - 1] then row[|row| - 1] else m
  }

  /** The lowest index holding the largest value of a non-empty row. */
  function FirstArgMax(row: seq<real>): (k: nat)
    requires |row| > 0
    ensures k < |row| && row[k] == RowMax(row)
    ensures forall j :: 0 <= j < k ==> row[j] < row[k]
  {
    if |row| == 1 then 0
    else
      var k := FirstArgMax(row[..|row| - 1]);
      if row[k] < row[|row| - 1] then |row| - 1 else k
  }

  /** Extending the row by one cell moves the first maximum there exactly when that cell beats it. */
  lemma FirstArgMaxStep(row: seq<real>, i: nat)
    requires 1 <= i < |row|
    ensures FirstArgMax(row[..i + 1]) == if row[FirstArgMax(row[..i])] < row[i] then i else FirstArgMax(row[..i])
  {
    assert row[..i + 1][..i] == row[..i];
  }

  /** A run of uniform draws from [0, 1): what Random.nextFloat may return. */
  predicate UnitDraws(row: seq<real>)
  {
    forall i :: 0 <= i < |row| ==> 0.0 <= row[i] < 1.0
  }

  class QTable<S(==)> {
    /** The row keys, in row order. */
    const states: seq<S>
    /** The column keys, in column order. */
    const actions: seq<Action>
    /** The cells. */
    const table: Matrix<real>

    /** One row per state and one column per action. */
    ghost predicate Valid()
      reads this, table
    {
      Shaped(table.rows, |states|, |actions|)
    }

    /**
     * A table over `states` x `actions`. With no stored table every cell is
     * a fresh draw from [0, 1); a stored table (the CSV file when it exists)
     * is taken as read.
     */
    constructor (states: seq<S>, actions: seq<Action>, stored: Option<seq<seq<real>>>)
      ensures this.states == states && this.actions == actions && fresh(table)
      ensures stored.Some? ==> table.rows == stored.value
      ensures stored.None? ==> Valid() && forall i :: 0 <= i < |states| ==> UnitDraws(table.rows[i])
    {
      this.states := states;
      this.actions := actions;
      if stored.Some? {
        table := new Matrix.FromRows(stored.value);
      } else {
        table := new Matrix();
      }
      new;
      if stored.None? {
        InitializesWithRandoms();
      }
    }

    /** A table over `states` x `actions` whose every cell is 0. */
    constructor WithZeros(states: seq<S>, actions: seq<Action>)
      ensures this.states == states && this.actions == actions && fresh(table)
      ensures Valid() && forall i, j :: 0 <= i < |states| && 0 <= j < |actions| ==> table.rows[i][j] == 0.0
    {
      this.states := states;
      this.actions := actions;
      table := new Matrix();
      new;
      InitializesWithZeros();
    }

    /** The Q-value of (s, a). */
    function Get(s: S, a: Action): real
      requires Valid() && s in states && a in actions
      reads this, table
    {
      Lookup(table.rows, states, actions, s, a)
    }

    /** The row of state s. */
    function QRow(s: S): (row: seq<real>)
      requires Valid() && s in states
      reads this, table
      ensures |row| == |actions|
    {
      table.rows[IndexOf(states, s)]
    }

    /** Overwrites the Q-value of (s, a); no other cell changes. */
    method Set(s: S, a: Action, v: real)
      requires Valid() && s in states && a in actions
      modifies table
      ensures Valid()
      ensures table.rows == WithCell(old(table.rows), IndexOf(states, s), IndexOf(actions, a), v)
      ensures Get(s, a) == v
      ensures forall s', a' :: s' in states && a' in actions && (s' != s || a' != a) ==> Get(s', a') == old(Get(s', a'))
    {
      LookupAfterSet(table.rows, states, actions, s, a, v);
      table.Set(IndexOf(states, s), IndexOf(actions, a), v);
    }

    /** A row of `length` zeros. */
    static method CreateRowWithZeros(length: nat) returns (row: seq<real>)
      ensures |row| == length && forall i :: 0 <= i < length ==> row[i] == 0.0
    {
      row := [];
      var i := 0;
      while i < length
        invariant 0 <= i <= length && |row| == i
        invariant forall k :: 0 <= k < i ==> row[k] == 0.0
      {
        row := row + [0.0];
        i := i + 1;
      }
    }

    /** A row of `length` independent draws from [0, 1). */
    static method CreateRowWithRandoms(length: nat) returns (row: seq<real>)
      ensures |row| == length && UnitDraws(row)
    {
      row := [];
      var i := 0;
      while i < length
        invariant 0 <= i <= length && |row| == i && UnitDraws(row)
      {
        var draw: real :| 0.0 <= draw < 1.0;
        row := row + [draw];
        i := i + 1;
      }
    }

    /** Appends one row of zeros per state to the (empty) matrix. */
    method InitializesWithZeros()
      requires table.rows == []
      modifies table
      ensures Valid() && forall i, j :: 0 <= i < |states| && 0 <= j < |actions| ==> table.rows[i][j] == 0.0
    {
      var i := 0;
      while i < |states|
        invariant 0 <= i <= |states| && Shaped(table.rows, i, |actions|)
        invariant forall k, j :: 0 <= k < i && 0 <= j < |actions| ==> table.rows[k][j] == 0.0
      {
        var row := CreateRowWithZeros(|actions|);
        var ok := table.AddRow(row);
        i := i + 1;
      }
    }

    /** Appends one row of random draws per state to the (empty) matrix. */
    method InitializesWithRandoms()
      requires table.rows == []
      modifies table
      ensures Valid() && forall i :: 0 <= i < |states| ==> UnitDraws(table.rows[i])
    {
      var i := 0;
      while i < |states|
        invariant 0 <= i <= |states| && Shaped(table.rows, i, |actions|)
        invariant forall k :: 0 <= k < i ==> UnitDraws(table.rows[k])
      {
        var row := CreateRowWithRandoms(|actions|);
        var ok := table.AddRow(row);
        i := i + 1;
      }
    }

    /**
     * The largest Q-value of state s: no cell of its row is larger, and some
     * cell equals it. An absent state has no row (indexOf gives -1), so the
     * state must be present; the row must have a cell.
     */
    method GetMaxQValue(s: S) returns (max: real)
      requires Valid() && s in states && |actions| > 0
      ensures max == RowMax(QRow(s))
      ensures max in QRow(s) && forall j :: 0 <= j < |actions| ==> QRow(s)[j] <= max
    {
      var indexRow := IndexOf(states, s);
      var cells := table.GetRow(indexRow).value;
      max := cells[0];
      var i := 1;
      while i < |cells|
        invariant 1 <= i <= |cells|
        invariant max == RowMax(cells[..i])
      {
        var value := cells[i];
        if max < value {
          max := value;
        }
        i := i + 1;
        assert cells[..i][..i - 1] == cells[..i - 1];
      }
      assert cells[..|cells|] == cells;
    }

    /**
     * The action of the first column holding the largest Q-value of state s:
     * a later column must be strictly larger to replace an earlier one.
     */
    method GetBestAction(s: S) returns (a: Action)
      requires Valid() && s in states && |actions| > 0
      ensures a == actions[FirstArgMax(QRow(s))]
      ensures QRow(s)[FirstArgMax(QRow(s))] == RowMax(QRow(s))
    {
      var indexRow := IndexOf(states, s);
      var cells := table.GetRow(indexRow).value;
      assert cells == QRow(s);
      var max := cells[0];
      var indexMax := 0;
      var i := 1;
      while i < |cells|
        invariant 1 <= i <= |cells|
        invariant indexMax == FirstArgMax(cells[..i]) && max == cells[indexMax]
      {
        FirstArgMaxStep(cells, i);
        var value := cells[i];
        if max < value {
          max := value;
          indexMax := i;
        }
        i := i + 1;
      }
      assert cells[..|cells|] == cells;
      assert indexMax == FirstArgMax(QRow(s));
      a := actions[indexMax];
    }

    /** A uniformly drawn action; there must be at least one. */
    method GetRandomAction() returns (a: Action)
      requires |actions| > 0
      ensures a in actions
    {
      var k :| 0 <= k < |actions|;
      a := actions[k];
    }
  }
}
