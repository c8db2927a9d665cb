/**
 * The wall search of the first AgentState (GVG_AI): rows of the observation
 * grid read into fixed-length lists (getRow), merged top to bottom so that
 * each column keeps its first non-player observation (searchWalls, built from
 * project and removeAgentObservation), and the test for a block within one
 * column of the agent (isCollisionPossible).
 *
 * The lists getRow creates have one slot per grid column and are only ever
 * overwritten slot by slot afterwards, so they are arrays here.
 */
module Walls {
  import opened Host
  import opened Wrappers
  import opened Portals

  /** The observation heading cell (i, r), or null when that cell is empty. */
  function Top(grid: Grid, i: int, r: int): Option<Observation>
    requires 0 <= i < |grid| && 0 <= r < |grid[i]|
  {
    if |grid[i][r]| > 0 then Some(grid[i][r][0]) else None
  }

  /**
   * What getRow needs: a non-empty grid whose columns are as tall as the
   * first, and, for a negative index, a row 0 to fall back on.
   */
  predicate RowReadable(grid: Grid, indexRow: int)
  {
    |grid| > 0 && Scannable(grid) && (indexRow < 0 ==> |grid[0]| > 0)
  }

  /**
   * The list getRow returns: for each column, the head of its cell in the
   * requested row; a negative index reads row 0 and an index past the last
   * row gives a list of nulls.
   */
  function RowOf(grid: Grid, indexRow: int): (row: seq<Option<Observation>>)
    requires RowReadable(grid, indexRow)
    ensures |row| == |grid|
  {
    if indexRow >= |grid[0]| then seq(|grid|, _ => None)
    else
      var r := if indexRow < 0 then 0 else indexRow;
      seq(|grid|, i requires 0 <= i < |grid| => Top(grid, i, r))
  }

  /** createNullArrayObservation: a list of `length` nulls. */
  method CreateNullArrayObservation(length: nat) returns (arrayObs: array<Option<Observation>>)
    ensures fresh(arrayObs) && arrayObs.Length == length
    ensures forall i :: 0 <= i < length ==> arrayObs[i] == None
  {
    arrayObs := new Option<Observation>[length];
    for i := 0 to length
      invariant forall k :: 0 <= k < i ==> arrayObs[k] == None
    {
      arrayObs[i] := None;
    }
  }

  /** getRow: a fresh list holding RowOf. */
  method GetRow(grid: Grid, indexRow: int) returns (row: array<Option<Observation>>)
    requires RowReadable(grid, indexRow)
    ensures fresh(row) && row[..] == RowOf(grid, indexRow)
  {
    if indexRow >= |grid[0]| {
      row := CreateNullArrayObservation(|grid|);
      return;
    }
    var r := if indexRow < 0 then 0 else indexRow;
    row := new Option<Observation>[|grid|];
    for i := 0 to |grid|
      invariant forall k :: 0 <= k < i ==> row[k] == Top(grid, k, r)
    {
      assert |grid[0]| <= |grid[i]|;
      var aux := grid[i][r];
      if |aux| > 0 {
        row[i] := Some(aux[0]);
      } else {
        row[i] := None;
      }
    }
  }

  /** project's precondition: B has a slot for every null slot of A. */
  predicate Covers(a: seq<Option<Observation>>, b: seq<Option<Observation>>)
  {
    forall i :: 0 <= i < |a| && a[i] == None ==> i < |b|
  }

  /** What project leaves in A: its own entries, with each null replaced by B's entry at that slot. */
  function Projected(a: seq<Option<Observation>>, b: seq<Option<Observation>>): (r: seq<Option<Observation>>)
    requires Covers(a, b)
    ensures |r| == |a|
    ensures forall i :: 0 <= i < |a| && a[i].Some? ==> r[i] == a[i]
    ensures forall i :: 0 <= i < |a| && r[i].Some? ==> r[i] == a[i] || (a[i] == None && r[i] == b[i])
  {
    seq(|a|, i requires 0 <= i < |a| && Covers(a, b) => if a[i] == None then b[i] else a[i])
  }

  /** project: fills the null slots of A from B, in place, and returns A. */
  method Project(arrayA: array<Option<Observation>>, arrayB: array<Option<Observation>>)
    returns (result: array<Option<Observation>>)
    requires Covers(arrayA[..], arrayB[..])
    modifies arrayA
    ensures result == arrayA
    ensures arrayA[..] == Projected(old(arrayA[..]), old(arrayB[..]))
  {
    ghost var a := arrayA[..];
    ghost var b := arrayB[..];
    for i := 0 to arrayA.Length
      invariant forall k :: 0 <= k < i ==> arrayA[k] == Projected(a, b)[k]
      invariant forall k :: i <= k < arrayA.Length ==> arrayA[k] == a[k]
      invariant forall k :: i <= k < arrayB.Length ==> arrayB[k] == b[k]
    {
      if arrayA[i] == None {
        arrayA[i] := arrayB[i];
      }
    }
    result := arrayA;
  }

  /** An entry holding the player's own observation. */
  predicate IsPlayer(t: Option<Observation>)
  {
    t.Some? && t.value.itype == ITYPEPLAYER
  }

  /** What removeAgentObservation leaves: every player entry nulled, every other entry kept. */
  function WithoutPlayers(a: seq<Option<Observation>>): (r: seq<Option<Observation>>)
    ensures |r| == |a|
    ensures forall i :: 0 <= i < |a| ==> !IsPlayer(r[i])
    ensures forall i :: 0 <= i < |a| && !IsPlayer(a[i]) ==> r[i] == a[i]
  {
    seq(|a|, i requires 0 <= i < |a| => if IsPlayer(a[i]) then None else a[i])
  }

  /** removeAgentObservation: nulls the player entries in place. */
  method RemoveAgentObservation(obs: array<Option<Observation>>)
    modifies obs
    ensures obs[..] == WithoutPlayers(old(obs[..]))
  {
    ghost var a := obs[..];
    for i := 0 to obs.Length
      invariant forall k :: 0 <= k < i ==> obs[k] == WithoutPlayers(a)[k]
      invariant forall k :: i <= k < obs.Length ==> obs[k] == a[k]
    {
      if obs[i] != None && obs[i].value.itype == ITYPEPLAYER {
        obs[i] := None;
      }
    }
  }

  // ---------------------------------------------------------------- searchWalls

  /**
   * searchWalls along AXISY over rows lo..fin: row lo without the player,
   * then each further row projected into the null slots and the player
   * removed again.
   */
  function Walls(grid: Grid, lo: nat, fin: int): (w: seq<Option<Observation>>)
    requires |grid| > 0 && Scannable(grid)
    ensures |w| == |grid|
    decreases fin - lo
  {
    if fin <= lo then WithoutPlayers(RowOf(grid, lo))
    else WithoutPlayers(Projected(Walls(grid, lo, fin - 1), RowOf(grid, fin)))
  }

  /** Cell (c, r) is on the board and headed by an observation that is not the player. */
  predicate IsWallAt(grid: Grid, c: int, r: int)
    requires |grid| > 0 && Scannable(grid) && 0 <= c < |grid|
  {
    0 <= r < |grid[0]| && Top(grid, c, r).Some? && !IsPlayer(Top(grid, c, r))
  }

  /** The last row searchWalls reads. */
  function LastRow(lo: nat, fin: int): int
  {
    if fin <= lo then lo else fin
  }

  /** What row r of the grid contributes to column c of a projection. */
  lemma RowOfAt(grid: Grid, r: nat, c: int)
    requires |grid| > 0 && Scannable(grid) && 0 <= c < |grid|
    ensures IsWallAt(grid, c, r) <==> RowOf(grid, r)[c].Some? && !IsPlayer(RowOf(grid, r)[c])
    ensures IsWallAt(grid, c, r) ==> RowOf(grid, r)[c] == Top(grid, c, r)
  {
  }

  /**
   * Column c of the projection holds the first non-player observation met
   * going down rows lo..fin, and is null when there is none: the nearest
   * obstacle below the top row in that column.
   */
  lemma {:induction false} WallsFirst(grid: Grid, lo: nat, fin: int, c: int) returns (r: int)
    requires |grid| > 0 && Scannable(grid) && 0 <= c < |grid|
    ensures Walls(grid, lo, fin)[c].Some? ==>
      && lo <= r <= LastRow(lo, fin) && IsWallAt(grid, c, r) && Walls(grid, lo, fin)[c] == Top(grid, c, r)
      && forall r' :: lo <= r' < r ==> !IsWallAt(grid, c, r')
    ensures Walls(grid, lo, fin)[c] == None ==>
      forall r' :: lo <= r' <= LastRow(lo, fin) ==> !IsWallAt(grid, c, r')
    decreases fin - lo
  {
    RowOfAt(grid, lo, c);
    if fin <= lo {
      r := lo;
    } else {
      var above := Walls(grid, lo, fin - 1);
      r := WallsFirst(grid, lo, fin - 1, c);
      RowOfAt(grid, fin, c);
      if above[c] == None {
        if RowOf(grid, fin)[c].Some? && !IsPlayer(RowOf(grid, fin)[c]) {
          r := fin;
        }
      }
    }
  }

  /** searchWalls along AXISY: the projection of rows max(ini, 0)..fin, as a fresh list. */
  method SearchWalls(grid: Grid, ini: int, fin: int) returns (currentWall: array<Option<Observation>>)
    requires |grid| > 0 && Scannable(grid)
    ensures fresh(currentWall)
    ensures currentWall[..] == Walls(grid, if ini < 0 then 0 else ini, fin)
  {
    var lo := if ini < 0 then 0 else ini;
    currentWall := GetRow(grid, lo);
    RemoveAgentObservation(currentWall);
    var i := lo + 1;
    while i <= fin
      invariant lo + 1 <= i && (i <= fin + 1 || i == lo + 1)
      invariant fresh(currentWall)
      invariant currentWall[..] == Walls(grid, lo, i - 1)
    {
      var aux := GetRow(grid, i);
      currentWall := Project(currentWall, aux);
      RemoveAgentObservation(currentWall);
      i := i + 1;
    }
  }

  // ---------------------------------------------------------------- collision test

  /** An entry holding a block (a wall of the level). */
  predicate IsBlock(t: Option<Observation>)
    ensures IsBlock(t) ==> t.Some? && t.value.itype != ITYPEPORTAL && t.value.itype != ITYPEPLAYER
  {
    t.Some? && t.value.itype == ITYPEBLOCK
  }

  /**
   * isCollisionPossible along AXISY at column refValue: a block in that slot
   * or in a slot next to it that is still inside the list.
   */
  function IsCollisionPossible(arrayObs: seq<Option<Observation>>, refValue: int): (b: bool)
    requires 0 <= refValue < |arrayObs|
    ensures b <==> exists k :: refValue - 1 <= k <= refValue + 1 && 0 <= k < |arrayObs| && IsBlock(arrayObs[k])
  {
    var pos1 := if refValue - 1 > 0 then refValue - 1 else 0;
    var pos2 := refValue;
    var pos3 := if refValue + 1 < |arrayObs| then refValue + 1 else refValue;
    var itype1 := if arrayObs[pos1] != None then arrayObs[pos1].value.itype else -1;
    var itype2 := if arrayObs[pos2] != None then arrayObs[pos2].value.itype else -1;
    var itype3 := if arrayObs[pos3] != None then arrayObs[pos3].value.itype else -1;
    assert IsBlock(arrayObs[pos1]) <==> itype1 == ITYPEBLOCK;
    assert IsBlock(arrayObs[pos2]) <==> itype2 == ITYPEBLOCK;
    assert IsBlock(arrayObs[pos3]) <==> itype3 == ITYPEBLOCK;
    itype1 == ITYPEBLOCK || itype2 == ITYPEBLOCK || itype3 == ITYPEBLOCK
  }
}
