/**
 * Locating the landing portal, as both AgentState files do it with the same
 * code: collect the portal observations of the grid (findPortals), pick the
 * one nearest the agent (getNearest), grow the horizontal run of adjacent
 * portals around it (getNeighbors / getNeighborsRec) and take the run's
 * middle element (getMiddleNeighbor). Only that last step differs: the
 * first agent takes index size / 2 - 1, the later one size / 2.
 *
 * The lists the source mutates are modelled as values: a method returns the
 * new contents of every list it changes.
 */
module Portals {
  import opened Host
  import opened Geometry
  import opened Wrappers

  /** Observation type tags. */
  const ITYPEBLOCK := 0
  const ITYPEPLAYER := 1
  const ITYPEPORTAL := 2

  /** Sides for isNeighbor. */
  const LEFT := 0
  const RIGHT := 1

  /** getNearest starts from a distance of 100000; distances are compared squared. */
  const NEARESTLIMIT2 := 100000 * 100000

  /** The cell of an observation, as calculateCell gives it. */
  function CellOf(o: Observation, blockSize: int): Cell
    requires blockSize > 0
  {
    CalculateCell(o.position, blockSize)
  }

  /** Every column has at least h rows. */
  predicate ColumnsReach(grid: Grid, h: int)
  {
    forall i :: 0 <= i < |grid| ==> h <= |grid[i]|
  }

  /** What findPortals needs: every column as tall as the first. */
  predicate Scannable(grid: Grid)
  {
    |grid| > 0 ==> ColumnsReach(grid, |grid[0]|)
  }

  // ---------------------------------------------------------------- findPortals

  /** The portals heading cells 0..h-1 of one column, top to bottom. */
  function ColumnPortals(col: seq<seq<Observation>>, h: nat): seq<Observation>
    requires h <= |col|
  {
    if h == 0 then []
    else ColumnPortals(col, h - 1) + (if |col[h-1]| > 0 && col[h-1][0].itype == ITYPEPORTAL then [col[h-1][0]] else [])
  }

  /** The portals heading the first h cells of columns 0..w-1, column after column. */
  function GridPortals(grid: Grid, w: nat, h: nat): seq<Observation>
    requires w <= |grid| && ColumnsReach(grid, h)
  {
    if w == 0 then [] else GridPortals(grid, w - 1, h) + ColumnPortals(grid[w-1], h)
  }

  /** What findPortals returns. */
  function Portals(grid: Grid): seq<Observation>
    requires Scannable(grid)
  {
    if |grid| == 0 then [] else GridPortals(grid, |grid|, |grid[0]|)
  }

  /** o is the first observation of cell j of the column, and a portal. */
  predicate HeadsColumn(col: seq<seq<Observation>>, j: int, o: Observation)
    requires 0 <= j < |col|
  {
    |col[j]| > 0 && col[j][0] == o && o.itype == ITYPEPORTAL
  }

  /** Every listed observation heads a cell of the column. */
  lemma {:induction false} ColumnPortalsSound(col: seq<seq<Observation>>, h: nat, o: Observation) returns (j: int)
    requires h <= |col| && o in ColumnPortals(col, h)
    ensures 0 <= j < h && HeadsColumn(col, j, o)
  {
    if o in ColumnPortals(col, h - 1) {
      j := ColumnPortalsSound(col, h - 1, o);
    } else {
      j := h - 1;
    }
  }

  /** Every portal heading a cell of the column is listed. */
  lemma {:induction false} ColumnPortalsComplete(col: seq<seq<Observation>>, h: nat, j: int, o: Observation)
    requires h <= |col| && 0 <= j < h && HeadsColumn(col, j, o)
    ensures o in ColumnPortals(col, h)
  {
    if j < h - 1 {
      ColumnPortalsComplete(col, h - 1, j, o);
    } else {
      assert ColumnPortals(col, h) == ColumnPortals(col, h - 1) + [o];
    }
  }

  /** Every listed observation heads a cell of the grid. */
  lemma {:induction false} GridPortalsSound(grid: Grid, w: nat, h: nat, o: Observation) returns (i: int, j: int)
    requires w <= |grid| && ColumnsReach(grid, h) && o in GridPortals(grid, w, h)
    ensures 0 <= i < w && 0 <= j < h && HeadsColumn(grid[i], j, o)
  {
    var column := ColumnPortals(grid[w-1], h);
    if o in GridPortals(grid, w - 1, h) {
      i, j := GridPortalsSound(grid, w - 1, h, o);
    } else {
      assert o in column;
      i := w - 1;
      j := ColumnPortalsSound(grid[w-1], h, o);
    }
  }

  /** Every portal heading a cell of the grid is listed. */
  lemma {:induction false} GridPortalsComplete(grid: Grid, w: nat, h: nat, i: int, j: int, o: Observation)
    requires w <= |grid| && ColumnsReach(grid, h) && 0 <= i < w && 0 <= j < h && HeadsColumn(grid[i], j, o)
    ensures o in GridPortals(grid, w, h)
  {
    assert GridPortals(grid, w, h) == GridPortals(grid, w - 1, h) + ColumnPortals(grid[w-1], h);
    if i < w - 1 {
      GridPortalsComplete(grid, w - 1, h, i, j, o);
    } else {
      ColumnPortalsComplete(grid[w-1], h, j, o);
    }
  }

  /**
   * findPortals collects exactly the portals that head a cell of the grid:
   * an observation is listed iff it is the first observation of some cell
   * and its type is the portal type.
   */
  lemma PortalsMembers(grid: Grid, o: Observation)
    requires Scannable(grid)
    ensures o in Portals(grid) <==>
      exists i, j :: 0 <= i < |grid| && 0 <= j < |grid[0]| && HeadsColumn(grid[i], j, o)
  {
    if o in Portals(grid) {
      var i, j := GridPortalsSound(grid, |grid|, |grid[0]|, o);
    }
    if exists i, j :: 0 <= i < |grid| && 0 <= j < |grid[0]| && HeadsColumn(grid[i], j, o) {
      var i, j :| 0 <= i < |grid| && 0 <= j < |grid[0]| && HeadsColumn(grid[i], j, o);
      GridPortalsComplete(grid, |grid|, |grid[0]|, i, j, o);
    }
  }

  /** findPortals: columns in order, each scanned top to bottom up to the first column's height. */
  method FindPortals(grid: Grid) returns (output: seq<Observation>)
    requires Scannable(grid)
    ensures output == Portals(grid)
  {
    ghost var h := if |grid| == 0 then 0 else |grid[0]|;
    output := [];
    var i := 0;
    while i < |grid|
      invariant 0 <= i <= |grid|
      invariant output == GridPortals(grid, i, h)
    {
      assert h == |grid[0]| <= |grid[i]|;
      var j := 0;
      while j < |grid[0]|
        invariant 0 <= j <= h
        invariant output == GridPortals(grid, i, h) + ColumnPortals(grid[i], j)
      {
        var arrayObs := grid[i][j];
        if |arrayObs| > 0 {
          var obs := arrayObs[0];
          if obs.itype == ITYPEPORTAL {
            output := output + [obs];
          }
        }
        assert ColumnPortals(grid[i], j + 1) == ColumnPortals(grid[i], j)
          + (if |arrayObs| > 0 && arrayObs[0].itype == ITYPEPORTAL then [arrayObs[0]] else []);
        j := j + 1;
      }
      assert GridPortals(grid, i + 1, h) == GridPortals(grid, i, h) + ColumnPortals(grid[i], h);
      i := i + 1;
    }
  }

  // ---------------------------------------------------------------- getNearest

  /** Squared cell distance from the agent's cell to an observation's cell. */
  function Dist2(o: Observation, agent: Cell, blockSize: int): int
    requires blockSize > 0
  {
    SquaredDistance(agent, CellOf(o, blockSize))
  }

  /**
   * The index getNearest settles on, or -1 when no observation is closer
   * than its initial bound: the first non-null entry of least distance.
   */
  function NearestIndex(obs: seq<Option<Observation>>, agent: Cell, blockSize: int): (k: int)
    requires blockSize > 0
    ensures -1 <= k < |obs|
    ensures k >= 0 ==> obs[k].Some? && Dist2(obs[k].value, agent, blockSize) < NEARESTLIMIT2
    ensures k >= 0 ==> forall j :: 0 <= j < |obs| && obs[j].Some? ==>
              Dist2(obs[k].value, agent, blockSize) <= Dist2(obs[j].value, agent, blockSize)
    ensures k >= 0 ==> forall j :: 0 <= j < k && obs[j].Some? ==>
              Dist2(obs[k].value, agent, blockSize) < Dist2(obs[j].value, agent, blockSize)
    ensures k == -1 ==> forall j :: 0 <= j < |obs| && obs[j].Some? ==>
              Dist2(obs[j].value, agent, blockSize) >= NEARESTLIMIT2
    decreases |obs|
  {
    if |obs| == 0 then -1
    else
      var n := |obs| - 1;
      var k := NearestIndex(obs[..n], agent, blockSize);
      assert forall j :: 0 <= j < n ==> obs[..n][j] == obs[j];
      var bound := if k == -1 then NEARESTLIMIT2 else Dist2(obs[k].value, agent, blockSize);
      if obs[n].Some? && Dist2(obs[n].value, agent, blockSize) < bound then n else k
  }

  /** What getNearest returns: the entry at NearestIndex, or the first entry when there is none. */
  function Nearest(obs: seq<Option<Observation>>, agent: Cell, blockSize: int): Option<Observation>
    requires |obs| > 0 && blockSize > 0
  {
    var k := NearestIndex(obs, agent, blockSize);
    if k == -1 then obs[0] else obs[k]
  }

  /** getNearest: one pass keeping the best distance so far, replaced only on a strict improvement. */
  method GetNearest(obs: seq<Option<Observation>>, agentCell: Cell, blockSize: int)
    returns (nearestObs: Option<Observation>)
    requires |obs| > 0 && blockSize > 0
    ensures nearestObs == Nearest(obs, agentCell, blockSize)
    ensures nearestObs == obs[0] || nearestObs in obs
  {
    nearestObs := obs[0];
    var nearestDistance := NEARESTLIMIT2;
    var i := 0;
    while i < |obs|
      invariant 0 <= i <= |obs|
      invariant var k := NearestIndex(obs[..i], agentCell, blockSize);
        && nearestObs == (if k == -1 then obs[0] else obs[k])
        && nearestDistance == (if k == -1 then NEARESTLIMIT2 else Dist2(obs[k].value, agentCell, blockSize))
    {
      assert obs[..i + 1][..i] == obs[..i];
      if obs[i].Some? {
        var currentCellPos := CellOf(obs[i].value, blockSize);
        var currentDistance := SquaredDistance(agentCell, currentCellPos);
        if currentDistance < nearestDistance {
          nearestDistance := currentDistance;
          nearestObs := obs[i];
        }
      }
      i := i + 1;
    }
    assert obs[..|obs|] == obs;
  }

  // ---------------------------------------------------------------- neighbours

  /** isNeighbor: a sits immediately left of b (LEFT), or immediately right of it (any other side). */
  predicate IsNeighbor(a: Observation, b: Observation, axis: int, blockSize: int)
    requires blockSize > 0
    ensures IsNeighbor(a, b, axis, blockSize) ==>
      CellOf(a, blockSize).y == CellOf(b, blockSize).y && CellOf(a, blockSize) != CellOf(b, blockSize)
  {
    var posA := CellOf(a, blockSize);
    var posB := CellOf(b, blockSize);
    if axis == LEFT then posA.y == posB.y && posA.x + 1 == posB.x
    else posA.y == posB.y && posA.x - 1 == posB.x
  }

  /** a is b's left neighbour exactly when b is a's right neighbour; both lie in one row. */
  lemma NeighborSymmetry(a: Observation, b: Observation, blockSize: int)
    requires blockSize > 0
    ensures IsNeighbor(a, b, LEFT, blockSize) <==> IsNeighbor(b, a, RIGHT, blockSize)
    ensures IsNeighbor(a, b, LEFT, blockSize) ==> CellOf(a, blockSize).y == CellOf(b, blockSize).y
    ensures IsNeighbor(a, b, LEFT, blockSize) ==> !IsNeighbor(a, b, RIGHT, blockSize)
  {
  }

  /** The position of the first occurrence of x. */
  function FirstIndex<T(==)>(s: seq<T>, x: T): (k: nat)
    requires x in s
    ensures k < |s| && s[k] == x && x !in s[..k]
  {
    if s[0] == x then 0
    else
      var k := FirstIndex(s[1..], x);
      assert s[..k + 1] == [s[0]] + s[1..][..k];
      k + 1
  }

  /** ArrayList.remove(Object): drops the first occurrence, if any. */
  function RemoveFirst<T(==)>(s: seq<T>, x: T): (r: seq<T>)
    ensures x in s ==> multiset(r) == multiset(s) - multiset{x} && |r| == |s| - 1
    ensures x !in s ==> r == s
  {
    if x in s then
      var k := FirstIndex(s, x);
      assert s == s[..k] + [x] + s[k+1..];
      s[..k] + s[k+1..]
    else s
  }

  /** No two observations share a cell. */
  predicate CellsDistinct(s: seq<Observation>, blockSize: int)
    requires blockSize > 0
  {
    forall i, j :: 0 <= i < j < |s| ==> CellOf(s[i], blockSize) != CellOf(s[j], blockSize)
  }

  /** Left to right, each observation is the left neighbour of the next. */
  predicate Run(s: seq<Observation>, blockSize: int)
    requires blockSize > 0
  {
    forall k :: 0 <= k < |s| - 1 ==> IsNeighbor(s[k], s[k + 1], LEFT, blockSize)
  }

  /** Every observation lies in row y. */
  predicate InRow(s: seq<Observation>, y: int, blockSize: int)
    requires blockSize > 0
  {
    forall k :: 0 <= k < |s| ==> CellOf(s[k], blockSize).y == y
  }

  /** a occurs in b as a contiguous block. */
  predicate IsInfix(a: seq<Observation>, b: seq<Observation>)
  {
    exists p :: 0 <= p <= |b| - |a| && Slice(b, p, |a|) == a
  }

  /** The n elements of s from position p. */
  function Slice(s: seq<Observation>, p: int, n: int): seq<Observation>
    requires 0 <= p && 0 <= n && p + n <= |s|
  {
    s[p..p + n]
  }

  /** s without position i. */
  function Without(s: seq<Observation>, i: int): (r: seq<Observation>)
    requires 0 <= i < |s|
    ensures |r| == |s| - 1
  {
    s[..i] + s[i+1..]
  }

  /** With distinct cells, removing an element removes that very position and no other cell. */
  lemma RemoveDistinct(s: seq<Observation>, i: int, blockSize: int)
    requires blockSize > 0 && CellsDistinct(s, blockSize) && 0 <= i < |s|
    ensures RemoveFirst(s, s[i]) == Without(s, i)
    ensures CellsDistinct(Without(s, i), blockSize)
    ensures forall k :: 0 <= k < |s| - 1 ==> CellOf(Without(s, i)[k], blockSize) != CellOf(s[i], blockSize)
  {
    var k := FirstIndex(s, s[i]);
    assert forall j :: 0 <= j < |s| && j != i ==> CellOf(s[j], blockSize) != CellOf(s[i], blockSize);
    assert k == i;
    var r := Without(s, i);
    forall a, b | 0 <= a < b < |r|
      ensures CellOf(r[a], blockSize) != CellOf(r[b], blockSize)
    {
      var a' := if a < i then a else a + 1;
      var b' := if b < i then b else b + 1;
      assert r[a] == s[a'] && r[b] == s[b'];
    }
    forall k | 0 <= k < |s| - 1
      ensures CellOf(r[k], blockSize) != CellOf(s[i], blockSize)
    {
      var k' := if k < i then k else k + 1;
      assert r[k] == s[k'];
    }
  }

  /** Two left neighbours of one observation share a cell. */
  lemma LeftNeighborsShareCell(a: Observation, b: Observation, c: Observation, side: int, blockSize: int)
    requires blockSize > 0 && IsNeighbor(a, c, side, blockSize) && IsNeighbor(b, c, side, blockSize)
    ensures CellOf(a, blockSize) == CellOf(b, blockSize)
  {
  }

  /**
   * The bookkeeping of the left scan: nothing is lost, arrayNeighbors stays
   * at the end, and everything in front of it is a left neighbour of its head.
   */
  predicate LeftShape(arrayObs: seq<Observation>, arrayNeighbors: seq<Observation>,
                      obs: seq<Observation>, neighbors: seq<Observation>, modified: bool, i: int, blockSize: int)
    requires blockSize > 0 && |arrayNeighbors| > 0
  {
    && 0 <= i <= |obs| + 1
    && |obs| <= |arrayObs|
    && multiset(obs) + multiset(neighbors) == multiset(arrayObs) + multiset(arrayNeighbors)
    && |neighbors| - |arrayNeighbors| == |arrayObs| - |obs|
    && neighbors[|neighbors| - |arrayNeighbors|..] == arrayNeighbors
    && (forall k :: 0 <= k < |neighbors| - |arrayNeighbors| ==>
          IsNeighbor(neighbors[k], arrayNeighbors[0], LEFT, blockSize))
    && (modified <==> |obs| < |arrayObs|)
  }

  lemma LeftMatchShape(arrayObs: seq<Observation>, arrayNeighbors: seq<Observation>,
                       obs: seq<Observation>, neighbors: seq<Observation>, modified: bool, i: int, blockSize: int)
    requires blockSize > 0 && |arrayNeighbors| > 0
    requires LeftShape(arrayObs, arrayNeighbors, obs, neighbors, modified, i, blockSize)
    requires 0 <= i < |obs| && IsNeighbor(obs[i], arrayNeighbors[0], LEFT, blockSize)
    ensures LeftShape(arrayObs, arrayNeighbors, RemoveFirst(obs, obs[i]), [obs[i]] + neighbors, true, i + 1, blockSize)
  {
    var o := obs[i];
    var neighbors' := [o] + neighbors;
    MoveOne(obs, neighbors, i, neighbors');
    assert neighbors'[|neighbors'| - |arrayNeighbors|..] == neighbors[|neighbors| - |arrayNeighbors|..];
    forall k | 0 <= k < |neighbors'| - |arrayNeighbors|
      ensures IsNeighbor(neighbors'[k], arrayNeighbors[0], LEFT, blockSize)
    {
      if k > 0 {
        assert neighbors'[k] == neighbors[k - 1];
      }
    }
  }

  /** Moving obs[i] from obs into the neighbours loses and gains nothing. */
  lemma MoveOne(obs: seq<Observation>, neighbors: seq<Observation>, i: int, neighbors': seq<Observation>)
    requires 0 <= i < |obs| && multiset(neighbors') == multiset(neighbors) + multiset{obs[i]}
    ensures multiset(RemoveFirst(obs, obs[i])) + multiset(neighbors') == multiset(obs) + multiset(neighbors)
    ensures |RemoveFirst(obs, obs[i])| == |obs| - 1
  {
    assert obs[i] in obs;
  }

  /** What the left scan keeps true after examining positions 0..i-1. */
  predicate LeftScanned(arrayObs: seq<Observation>, arrayNeighbors: seq<Observation>,
                        obs: seq<Observation>, neighbors: seq<Observation>, modified: bool, i: int, blockSize: int)
    requires blockSize > 0 && |arrayNeighbors| > 0
  {
    && LeftShape(arrayObs, arrayNeighbors, obs, neighbors, modified, i, blockSize)
    && (!modified ==> obs == arrayObs && i <= |obs|)
    && (!modified ==> forall k :: 0 <= k < i ==> !IsNeighbor(arrayObs[k], arrayNeighbors[0], LEFT, blockSize))
    && (CellsDistinct(arrayObs, blockSize) ==> CellsDistinct(obs, blockSize))
    && (CellsDistinct(arrayObs, blockSize) && modified ==>
          |neighbors| == |arrayNeighbors| + 1 &&
          forall k :: 0 <= k < |obs| ==> !IsNeighbor(obs[k], arrayNeighbors[0], LEFT, blockSize))
  }

  /** A left scan step that finds no neighbour. */
  lemma LeftSkip(arrayObs: seq<Observation>, arrayNeighbors: seq<Observation>,
                 obs: seq<Observation>, neighbors: seq<Observation>, modified: bool, i: int, blockSize: int)
    requires blockSize > 0 && |arrayNeighbors| > 0
    requires LeftScanned(arrayObs, arrayNeighbors, obs, neighbors, modified, i, blockSize)
    requires 0 <= i < |obs| && !IsNeighbor(obs[i], arrayNeighbors[0], LEFT, blockSize)
    ensures LeftScanned(arrayObs, arrayNeighbors, obs, neighbors, modified, i + 1, blockSize)
  {
  }

  /** With distinct cells, once a neighbour has been removed no other observation shares its cell. */
  lemma NoSecondNeighbor(obs: seq<Observation>, i: int, target: Observation, side: int, blockSize: int)
    requires blockSize > 0 && CellsDistinct(obs, blockSize) && 0 <= i < |obs|
    requires IsNeighbor(obs[i], target, side, blockSize)
    ensures RemoveFirst(obs, obs[i]) == Without(obs, i)
    ensures CellsDistinct(Without(obs, i), blockSize)
    ensures forall k :: 0 <= k < |obs| - 1 ==> !IsNeighbor(Without(obs, i)[k], target, side, blockSize)
  {
    RemoveDistinct(obs, i, blockSize);
    forall k | 0 <= k < |obs| - 1
      ensures !IsNeighbor(Without(obs, i)[k], target, side, blockSize)
    {
      if IsNeighbor(Without(obs, i)[k], target, side, blockSize) {
        LeftNeighborsShareCell(Without(obs, i)[k], obs[i], target, side, blockSize);
      }
    }
  }

  /** A left scan step that finds a neighbour: it moves to the front of the neighbours. */
  lemma LeftMatch(arrayObs: seq<Observation>, arrayNeighbors: seq<Observation>,
                  obs: seq<Observation>, neighbors: seq<Observation>, modified: bool, i: int, blockSize: int)
    requires blockSize > 0 && |arrayNeighbors| > 0
    requires LeftScanned(arrayObs, arrayNeighbors, obs, neighbors, modified, i, blockSize)
    requires 0 <= i < |obs| && IsNeighbor(obs[i], arrayNeighbors[0], LEFT, blockSize)
    ensures LeftScanned(arrayObs, arrayNeighbors, RemoveFirst(obs, obs[i]), [obs[i]] + neighbors, true, i + 1, blockSize)
  {
    LeftMatchShape(arrayObs, arrayNeighbors, obs, neighbors, modified, i, blockSize);
    if CellsDistinct(arrayObs, blockSize) {
      NoSecondNeighbor(obs, i, arrayNeighbors[0], LEFT, blockSize);
    }
  }

  /**
   * The left part of getNeighborsRec: scan arrayObs once, moving every left
   * neighbour of the current leftmost neighbour to the front of
   * arrayNeighbors. After a removal the index still advances, so the element
   * that slides into the removed place is not examined in this pass.
   */
  method ScanLeft(arrayObs: seq<Observation>, arrayNeighbors: seq<Observation>, blockSize: int)
    returns (obs: seq<Observation>, neighbors: seq<Observation>, modified: bool)
    requires blockSize > 0 && |arrayNeighbors| > 0
    ensures |obs| <= |arrayObs|
    ensures multiset(obs) + multiset(neighbors) == multiset(arrayObs) + multiset(arrayNeighbors)
    ensures |neighbors| - |arrayNeighbors| == |arrayObs| - |obs|
    ensures neighbors[|neighbors| - |arrayNeighbors|..] == arrayNeighbors
    ensures forall k :: 0 <= k < |neighbors| - |arrayNeighbors| ==>
              IsNeighbor(neighbors[k], arrayNeighbors[0], LEFT, blockSize)
    ensures modified <==> |obs| < |arrayObs|
    ensures !modified ==> obs == arrayObs
    ensures !modified ==> forall k :: 0 <= k < |arrayObs| ==> !IsNeighbor(arrayObs[k], arrayNeighbors[0], LEFT, blockSize)
    ensures CellsDistinct(arrayObs, blockSize) ==>
              CellsDistinct(obs, blockSize) && |neighbors| <= |arrayNeighbors| + 1
  {
    obs, neighbors, modified := arrayObs, arrayNeighbors, false;
    var leftNeighbor := arrayNeighbors[0];
    var i := 0;
    assert neighbors[|neighbors| - |arrayNeighbors|..] == arrayNeighbors;
    while i < |obs|
      invariant LeftScanned(arrayObs, arrayNeighbors, obs, neighbors, modified, i, blockSize)
      decreases |obs| + 1 - i
    {
      var o := obs[i];
      if IsNeighbor(o, leftNeighbor, LEFT, blockSize) {
        LeftMatch(arrayObs, arrayNeighbors, obs, neighbors, modified, i, blockSize);
        neighbors := [o] + neighbors;
        obs := RemoveFirst(obs, o);
        modified := true;
      } else {
        LeftSkip(arrayObs, arrayNeighbors, obs, neighbors, modified, i, blockSize);
      }
      i := i + 1;
    }
  }

  /**
   * The bookkeeping of the right scan: nothing is lost, arrayNeighbors stays
   * at the front, and everything after it is a right neighbour of its last element.
   */
  predicate RightShape(arrayObs: seq<Observation>, arrayNeighbors: seq<Observation>,
                       obs: seq<Observation>, neighbors: seq<Observation>, modified: bool, i: int, blockSize: int)
    requires blockSize > 0 && |arrayNeighbors| > 0
  {
    var last := arrayNeighbors[|arrayNeighbors| - 1];
    && 0 <= i <= |obs| + 1
    && |obs| <= |arrayObs|
    && multiset(obs) + multiset(neighbors) == multiset(arrayObs) + multiset(arrayNeighbors)
    && |neighbors| - |arrayNeighbors| == |arrayObs| - |obs|
    && neighbors[..|arrayNeighbors|] == arrayNeighbors
    && (forall k :: |arrayNeighbors| <= k < |neighbors| ==> IsNeighbor(neighbors[k], last, RIGHT, blockSize))
    && (modified <==> |obs| < |arrayObs|)
  }

  lemma RightMatchShape(arrayObs: seq<Observation>, arrayNeighbors: seq<Observation>,
                        obs: seq<Observation>, neighbors: seq<Observation>, modified: bool, i: int, blockSize: int)
    requires blockSize > 0 && |arrayNeighbors| > 0
    requires RightShape(arrayObs, arrayNeighbors, obs, neighbors, modified, i, blockSize)
    requires 0 <= i < |obs| && IsNeighbor(obs[i], arrayNeighbors[|arrayNeighbors| - 1], RIGHT, blockSize)
    ensures RightShape(arrayObs, arrayNeighbors, RemoveFirst(obs, obs[i]), neighbors + [obs[i]], true, i + 1, blockSize)
  {
    var o := obs[i];
    var neighbors' := neighbors + [o];
    MoveOne(obs, neighbors, i, neighbors');
    assert neighbors'[..|arrayNeighbors|] == neighbors[..|arrayNeighbors|];
  }

  /** What the right scan keeps true after examining positions 0..i-1. */
  predicate RightScanned(arrayObs: seq<Observation>, arrayNeighbors: seq<Observation>,
                         obs: seq<Observation>, neighbors: seq<Observation>, modified: bool, i: int, blockSize: int)
    requires blockSize > 0 && |arrayNeighbors| > 0
  {
    var last := arrayNeighbors[|arrayNeighbors| - 1];
    && RightShape(arrayObs, arrayNeighbors, obs, neighbors, modified, i, blockSize)
    && (!modified ==> obs == arrayObs && i <= |obs|)
    && (!modified ==> forall k :: 0 <= k < i ==> !IsNeighbor(arrayObs[k], last, RIGHT, blockSize))
    && (CellsDistinct(arrayObs, blockSize) ==> CellsDistinct(obs, blockSize))
    && (CellsDistinct(arrayObs, blockSize) && modified ==>
          |neighbors| == |arrayNeighbors| + 1 &&
          forall k :: 0 <= k < |obs| ==> !IsNeighbor(obs[k], last, RIGHT, blockSize))
  }

  /** A right scan step that finds no neighbour. */
  lemma RightSkip(arrayObs: seq<Observation>, arrayNeighbors: seq<Observation>,
                  obs: seq<Observation>, neighbors: seq<Observation>, modified: bool, i: int, blockSize: int)
    requires blockSize > 0 && |arrayNeighbors| > 0
    requires RightScanned(arrayObs, arrayNeighbors, obs, neighbors, modified, i, blockSize)
    requires 0 <= i < |obs| && !IsNeighbor(obs[i], arrayNeighbors[|arrayNeighbors| - 1], RIGHT, blockSize)
    ensures RightScanned(arrayObs, arrayNeighbors, obs, neighbors, modified, i + 1, blockSize)
  {
  }

  /** A right scan step that finds a neighbour: it moves to the end of the neighbours. */
  lemma RightMatch(arrayObs: seq<Observation>, arrayNeighbors: seq<Observation>,
                   obs: seq<Observation>, neighbors: seq<Observation>, modified: bool, i: int, blockSize: int)
    requires blockSize > 0 && |arrayNeighbors| > 0
    requires RightScanned(arrayObs, arrayNeighbors, obs, neighbors, modified, i, blockSize)
    requires 0 <= i < |obs| && IsNeighbor(obs[i], arrayNeighbors[|arrayNeighbors| - 1], RIGHT, blockSize)
    ensures RightScanned(arrayObs, arrayNeighbors, RemoveFirst(obs, obs[i]), neighbors + [obs[i]], true, i + 1, blockSize)
  {
    RightMatchShape(arrayObs, arrayNeighbors, obs, neighbors, modified, i, blockSize);
    if CellsDistinct(arrayObs, blockSize) {
      NoSecondNeighbor(obs, i, arrayNeighbors[|arrayNeighbors| - 1], RIGHT, blockSize);
    }
  }

  /**
   * The right part of getNeighborsRec: the same scan for right neighbours of
   * the current rightmost neighbour, appended at the end.
   */
  method ScanRight(arrayObs: seq<Observation>, arrayNeighbors: seq<Observation>, blockSize: int)
    returns (obs: seq<Observation>, neighbors: seq<Observation>, modified: bool)
    requires blockSize > 0 && |arrayNeighbors| > 0
    ensures |obs| <= |arrayObs|
    ensures multiset(obs) + multiset(neighbors) == multiset(arrayObs) + multiset(arrayNeighbors)
    ensures |neighbors| - |arrayNeighbors| == |arrayObs| - |obs|
    ensures neighbors[..|arrayNeighbors|] == arrayNeighbors
    ensures forall k :: |arrayNeighbors| <= k < |neighbors| ==>
              IsNeighbor(neighbors[k], arrayNeighbors[|arrayNeighbors| - 1], RIGHT, blockSize)
    ensures modified <==> |obs| < |arrayObs|
    ensures !modified ==> obs == arrayObs
    ensures !modified ==> forall k :: 0 <= k < |arrayObs| ==>
              !IsNeighbor(arrayObs[k], arrayNeighbors[|arrayNeighbors| - 1], RIGHT, blockSize)
    ensures CellsDistinct(arrayObs, blockSize) ==>
              CellsDistinct(obs, blockSize) && |neighbors| <= |arrayNeighbors| + 1
  {
    obs, neighbors, modified := arrayObs, arrayNeighbors, false;
    var rightNeighbor := arrayNeighbors[|arrayNeighbors| - 1];
    var i := 0;
    while i < |obs|
      invariant RightScanned(arrayObs, arrayNeighbors, obs, neighbors, modified, i, blockSize)
      decreases |obs| + 1 - i
    {
      var o := obs[i];
      if IsNeighbor(o, rightNeighbor, RIGHT, blockSize) {
        RightMatch(arrayObs, arrayNeighbors, obs, neighbors, modified, i, blockSize);
        neighbors := neighbors + [o];
        obs := RemoveFirst(obs, o);
        modified := true;
      } else {
        RightSkip(arrayObs, arrayNeighbors, obs, neighbors, modified, i, blockSize);
      }
      i := i + 1;
    }
  }

  // ---------------------------------------------------------------- runs of portals

  /** Prepending the left neighbour of the head keeps a run. */
  lemma RunPrepend(o: Observation, n: seq<Observation>, blockSize: int)
    requires blockSize > 0 && |n| > 0 && Run(n, blockSize) && IsNeighbor(o, n[0], LEFT, blockSize)
    ensures Run([o] + n, blockSize)
  {
    var r := [o] + n;
    forall k | 0 <= k < |r| - 1
      ensures IsNeighbor(r[k], r[k + 1], LEFT, blockSize)
    {
      if k > 0 {
        assert r[k] == n[k - 1] && r[k + 1] == n[k];
      }
    }
  }

  /** Appending the right neighbour of the last element keeps a run. */
  lemma RunAppend(n: seq<Observation>, o: Observation, blockSize: int)
    requires blockSize > 0 && |n| > 0 && Run(n, blockSize) && IsNeighbor(o, n[|n| - 1], RIGHT, blockSize)
    ensures Run(n + [o], blockSize)
  {
    var r := n + [o];
    forall k | 0 <= k < |r| - 1
      ensures IsNeighbor(r[k], r[k + 1], LEFT, blockSize)
    {
      if k < |n| - 1 {
        assert r[k] == n[k] && r[k + 1] == n[k + 1];
      }
    }
  }

  /** Being a contiguous block is transitive. */
  lemma InfixTrans(a: seq<Observation>, b: seq<Observation>, c: seq<Observation>)
    requires IsInfix(a, b) && IsInfix(b, c)
    ensures IsInfix(a, c)
  {
    var p :| 0 <= p <= |b| - |a| && Slice(b, p, |a|) == a;
    var q :| 0 <= q <= |c| - |b| && Slice(c, q, |b|) == b;
    forall k | 0 <= k < |a|
      ensures c[q + p + k] == a[k]
    {
      assert c[q + p + k] == Slice(c, q, |b|)[p + k] == b[p + k] == Slice(b, p, |a|)[k];
    }
    assert Slice(c, q + p, |a|) == a;
  }

  /** One left scan followed by one right scan, as a single step of getNeighborsRec. */
  lemma ScanPair(arrayObs: seq<Observation>, arrayNeighbors: seq<Observation>, obs1: seq<Observation>,
                 n1: seq<Observation>, m1: bool, obs2: seq<Observation>, n2: seq<Observation>, m2: bool, blockSize: int)
    requires blockSize > 0 && |arrayNeighbors| > 0
    requires |obs1| <= |arrayObs| && |n1| - |arrayNeighbors| == |arrayObs| - |obs1|
    requires n1[|n1| - |arrayNeighbors|..] == arrayNeighbors
    requires forall k :: 0 <= k < |n1| - |arrayNeighbors| ==> IsNeighbor(n1[k], arrayNeighbors[0], LEFT, blockSize)
    requires |obs2| <= |obs1| && |n2| - |n1| == |obs1| - |obs2|
    requires n2[..|n1|] == n1
    requires forall k :: |n1| <= k < |n2| ==> IsNeighbor(n2[k], n1[|n1| - 1], RIGHT, blockSize)
    requires CellsDistinct(arrayObs, blockSize) ==> |n1| <= |arrayNeighbors| + 1
    requires CellsDistinct(obs1, blockSize) ==> |n2| <= |n1| + 1
    requires CellsDistinct(arrayObs, blockSize) ==> CellsDistinct(obs1, blockSize)
    ensures IsInfix(arrayNeighbors, n2)
    ensures forall y :: InRow(arrayNeighbors, y, blockSize) ==> InRow(n2, y, blockSize)
    ensures CellsDistinct(arrayObs, blockSize) && Run(arrayNeighbors, blockSize) ==> Run(n2, blockSize)
  {
    var p := |n1| - |arrayNeighbors|;
    assert Slice(n2, p, |arrayNeighbors|) == arrayNeighbors by {
      assert n2[p..p + |arrayNeighbors|] == n1[p..];
    }
    forall y | InRow(arrayNeighbors, y, blockSize)
      ensures InRow(n2, y, blockSize)
    {
      forall k | 0 <= k < |n2|
        ensures CellOf(n2[k], blockSize).y == y
      {
        if k < p {
          assert n2[k] == n1[k];
          assert CellOf(arrayNeighbors[0], blockSize).y == y;
        } else if k < |n1| {
          assert n2[k] == n1[k] == arrayNeighbors[k - p];
        } else {
          assert n1[|n1| - 1] == arrayNeighbors[|arrayNeighbors| - 1];
        }
      }
    }
    if CellsDistinct(arrayObs, blockSize) && Run(arrayNeighbors, blockSize) {
      if p == 1 {
        assert n1 == [n1[0]] + arrayNeighbors;
        RunPrepend(n1[0], arrayNeighbors, blockSize);
      } else {
        assert n1 == arrayNeighbors;
      }
      if |n2| == |n1| + 1 {
        assert n2 == n1 + [n2[|n1|]];
        RunAppend(n1, n2[|n1|], blockSize);
      } else {
        assert n2 == n1;
      }
    }
  }

  /** No observation of rest is the left neighbour of n's first element or the right neighbour of its last. */
  predicate Closed(rest: seq<Observation>, n: seq<Observation>, blockSize: int)
    requires blockSize > 0 && |n| > 0
  {
    forall k :: 0 <= k < |rest| ==>
      !IsNeighbor(rest[k], n[0], LEFT, blockSize) && !IsNeighbor(rest[k], n[|n| - 1], RIGHT, blockSize)
  }

  /**
   * One pass of getNeighborsRec's body: the left scan, then the right scan.
   * It reports whether either moved an observation; when neither did, no
   * observation left over extends the neighbours on either side.
   */
  method ScanPass(arrayObs: seq<Observation>, arrayNeighbors: seq<Observation>, blockSize: int)
    returns (obs: seq<Observation>, neighbors: seq<Observation>, moved: bool)
    requires blockSize > 0 && |arrayNeighbors| > 0
    ensures moved <==> |obs| < |arrayObs|
    ensures |neighbors| >= |arrayNeighbors|
    ensures multiset(obs) + multiset(neighbors) == multiset(arrayObs) + multiset(arrayNeighbors)
    ensures IsInfix(arrayNeighbors, neighbors)
    ensures forall y :: InRow(arrayNeighbors, y, blockSize) ==> InRow(neighbors, y, blockSize)
    ensures CellsDistinct(arrayObs, blockSize) ==> CellsDistinct(obs, blockSize)
    ensures CellsDistinct(arrayObs, blockSize) && Run(arrayNeighbors, blockSize) ==> Run(neighbors, blockSize)
    ensures !moved ==> obs == arrayObs && neighbors == arrayNeighbors
    ensures !moved ==> Closed(obs, neighbors, blockSize)
  {
    var obs1, n1, m1 := ScanLeft(arrayObs, arrayNeighbors, blockSize);
    var m2;
    obs, neighbors, m2 := ScanRight(obs1, n1, blockSize);
    ScanPair(arrayObs, arrayNeighbors, obs1, n1, m1, obs, neighbors, m2, blockSize);
    moved := m1 || m2;
    if !moved {
      assert n1 == arrayNeighbors;
    }
  }

  /**
   * getNeighborsRec: repeat the left and right scans until a pass moves
   * nothing. Returns the observations left in arrayObs and the neighbours.
   * Nothing is lost, the starting neighbours stay together, the result has no
   * neighbour left in arrayObs on either side, it stays in the starting row,
   * and when no two observations share a cell it is a run of adjacent cells.
   */
  method GetNeighborsRec(arrayObs: seq<Observation>, arrayNeighbors: seq<Observation>, blockSize: int)
    returns (remaining: seq<Observation>, neighbors: seq<Observation>)
    requires blockSize > 0 && |arrayNeighbors| > 0
    ensures |neighbors| >= |arrayNeighbors|
    ensures multiset(remaining) + multiset(neighbors) == multiset(arrayObs) + multiset(arrayNeighbors)
    ensures IsInfix(arrayNeighbors, neighbors)
    ensures Closed(remaining, neighbors, blockSize)
    ensures forall y :: InRow(arrayNeighbors, y, blockSize) ==> InRow(neighbors, y, blockSize)
    ensures CellsDistinct(arrayObs, blockSize) && Run(arrayNeighbors, blockSize) ==> Run(neighbors, blockSize)
    decreases |arrayObs|
  {
    var obs2, n2, moved := ScanPass(arrayObs, arrayNeighbors, blockSize);
    if moved {
      remaining, neighbors := GetNeighborsRec(obs2, n2, blockSize);
      InfixTrans(arrayNeighbors, n2, neighbors);
    } else {
      remaining, neighbors := obs2, n2;
    }
  }

  /** getNeighbors: the run grown from a single seed. */
  method GetNeighbors(arrayObs: seq<Observation>, obs: Observation, blockSize: int)
    returns (remaining: seq<Observation>, neighbors: seq<Observation>)
    requires blockSize > 0
    ensures obs in neighbors
    ensures multiset(remaining) + multiset(neighbors) == multiset(arrayObs) + multiset{obs}
    ensures Closed(remaining, neighbors, blockSize)
    ensures InRow(neighbors, CellOf(obs, blockSize).y, blockSize)
    ensures CellsDistinct(arrayObs, blockSize) ==> Run(neighbors, blockSize)
  {
    var arrayNeighbors := [obs];
    assert InRow(arrayNeighbors, CellOf(obs, blockSize).y, blockSize);
    remaining, neighbors := GetNeighborsRec(arrayObs, arrayNeighbors, blockSize);
    var p :| 0 <= p <= |neighbors| - 1 && Slice(neighbors, p, 1) == [obs];
    assert neighbors[p] == obs;
  }

  /** The cells of a run: consecutive columns of the first element's row. */
  lemma {:induction false} RunCells(n: seq<Observation>, k: int, blockSize: int)
    requires blockSize > 0 && Run(n, blockSize) && 0 <= k < |n|
    ensures CellOf(n[k], blockSize) == Cell(CellOf(n[0], blockSize).x + k, CellOf(n[0], blockSize).y)
  {
    if k > 0 {
      RunCells(n, k - 1, blockSize);
      assert IsNeighbor(n[k - 1], n[k], LEFT, blockSize);
    }
  }

  /** getMiddleNeighbor of the first agent: Math.round(size / 2 - 1), where size / 2 is integer division. */
  function MiddleIndexAsWritten(size: nat): (k: int)
    ensures k < size
    ensures size >= 2 ==> 0 <= k
  {
    size / 2 - 1
  }

  /**
   * The as-written index fails on the smallest runs: a single portal gives
   * index -1, so `get` throws; a run of three picks its left end.
   */
  lemma MiddleIndexAsWrittenMisses()
    ensures MiddleIndexAsWritten(1) == -1
    ensures MiddleIndexAsWritten(3) == 0 && MiddleIndex(3) == 1
  {
  }

  /**
   * getMiddleNeighbor of the later agent: size / 2. It is in range for every
   * non-empty run and splits it evenly: as many elements before it as after
   * it, or one more before.
   */
  function MiddleIndex(size: nat): (k: int)
    requires size > 0
    ensures 0 <= k < size
    ensures size - 1 - k == k || size - 1 - k == k - 1
  {
    size / 2
  }

  /**
   * getMiddleNeighbor of the first agent, on a run of at least two (a single
   * portal makes it throw): the element it takes sits left of the centre,
   * with one or two more elements after it than before it.
   */
  function GetMiddleNeighborAsWritten(arrayNeighbors: seq<Observation>): (o: Observation)
    requires |arrayNeighbors| >= 2
    ensures exists k :: 0 <= k < |arrayNeighbors| && arrayNeighbors[k] == o &&
              (|arrayNeighbors| - 1 - k == k + 1 || |arrayNeighbors| - 1 - k == k + 2)
  {
    var k := MiddleIndexAsWritten(|arrayNeighbors|);
    assert arrayNeighbors[k] == arrayNeighbors[k];
    arrayNeighbors[k]
  }

  /**
   * getMiddleNeighbor of the later agent: the element it takes has as many
   * elements after it as before it, or one fewer.
   */
  function GetMiddleNeighbor(arrayNeighbors: seq<Observation>): (o: Observation)
    requires |arrayNeighbors| > 0
    ensures exists k :: 0 <= k < |arrayNeighbors| && arrayNeighbors[k] == o &&
              (|arrayNeighbors| - 1 - k == k || |arrayNeighbors| - 1 - k == k - 1)
  {
    var k := MiddleIndex(|arrayNeighbors|);
    assert arrayNeighbors[k] == arrayNeighbors[k];
    arrayNeighbors[k]
  }

  /** The first agent's middle neighbour of a run lies |run| / 2 - 1 columns right of its left end. */
  lemma MiddleOfRunAsWritten(n: seq<Observation>, blockSize: int)
    requires blockSize > 0 && |n| >= 2 && Run(n, blockSize)
    ensures CellOf(GetMiddleNeighborAsWritten(n), blockSize)
         == Cell(CellOf(n[0], blockSize).x + |n| / 2 - 1, CellOf(n[0], blockSize).y)
    ensures CellOf(n[|n| - 1], blockSize).x - CellOf(GetMiddleNeighborAsWritten(n), blockSize).x <= |n| / 2 + 1
  {
    RunCells(n, |n| / 2 - 1, blockSize);
    RunCells(n, |n| - 1, blockSize);
  }

  /** The middle neighbour of a run lies in its central cell: |run| / 2 columns right of its left end. */
  lemma MiddleOfRun(n: seq<Observation>, blockSize: int)
    requires blockSize > 0 && |n| > 0 && Run(n, blockSize)
    ensures CellOf(GetMiddleNeighbor(n), blockSize)
         == Cell(CellOf(n[0], blockSize).x + |n| / 2, CellOf(n[0], blockSize).y)
    ensures CellOf(n[|n| - 1], blockSize).x - CellOf(GetMiddleNeighbor(n), blockSize).x <= |n| / 2
  {
    RunCells(n, |n| / 2, blockSize);
    RunCells(n, |n| - 1, blockSize);
  }

  /** The list entries wrapped as present values, as getNearest sees a list without nulls. */
  function Wrap(s: seq<Observation>): (r: seq<Option<Observation>>)
    ensures |r| == |s| && forall i :: 0 <= i < |s| ==> r[i] == Some(s[i])
  {
    seq(|s|, i requires 0 <= i < |s| => Some(s[i]))
  }

  // ---------------------------------------------------------------- updatePortalPos

  /** The portal getNearest picks from findPortals' list: one of the grid's portals, none of them nearer. */
  function NearestPortal(grid: Grid, agent: Cell, blockSize: int): (p: Observation)
    requires blockSize > 0 && Scannable(grid) && |Portals(grid)| > 0
    ensures p in Portals(grid)
    ensures NearestIndex(Wrap(Portals(grid)), agent, blockSize) >= 0 ==>
      forall q :: q in Portals(grid) ==> Dist2(p, agent, blockSize) <= Dist2(q, agent, blockSize)
  {
    var w := Wrap(Portals(grid));
    var k := NearestIndex(w, agent, blockSize);
    var p := Nearest(w, agent, blockSize).value;
    assert p == Portals(grid)[if k == -1 then 0 else k];
    assert k >= 0 ==> forall j :: 0 <= j < |w| ==> w[j].Some? && w[j].value == Portals(grid)[j];
    p
  }

  /**
   * n is the run getNeighbors grows from seed out of portals: it holds the
   * seed, lies in the seed's row, is taken from the portals (the seed being
   * counted once more, as getNeighbors starts from it), no portal left over
   * extends it on either side, and with distinct cells it covers adjacent
   * cells.
   */
  predicate GrownRun(portals: seq<Observation>, seed: Observation, n: seq<Observation>, blockSize: int)
    requires blockSize > 0
  {
    && |n| > 0 && seed in n
    && InRow(n, CellOf(seed, blockSize).y, blockSize)
    && multiset(n) <= multiset(portals) + multiset{seed}
    && (forall p :: p in multiset(portals) + multiset{seed} - multiset(n) ==>
          !IsNeighbor(p, n[0], LEFT, blockSize) && !IsNeighbor(p, n[|n| - 1], RIGHT, blockSize))
    && (CellsDistinct(portals, blockSize) ==> Run(n, blockSize))
  }

  /** Some portal sits right beside the nearest one, so the run grown around it holds two portals or more. */
  predicate NearestHasNeighbor(grid: Grid, agent: Cell, blockSize: int)
    requires blockSize > 0 && Scannable(grid) && |Portals(grid)| > 0
  {
    exists p :: p in Portals(grid) &&
      (IsNeighbor(p, NearestPortal(grid, agent, blockSize), LEFT, blockSize) ||
       IsNeighbor(p, NearestPortal(grid, agent, blockSize), RIGHT, blockSize))
  }

  /** A grown run around a seed with a portal beside it holds at least two portals. */
  lemma GrownRunOfNeighbor(portals: seq<Observation>, seed: Observation, n: seq<Observation>, p: Observation, blockSize: int)
    requires blockSize > 0 && GrownRun(portals, seed, n, blockSize) && p in portals
    requires IsNeighbor(p, seed, LEFT, blockSize) || IsNeighbor(p, seed, RIGHT, blockSize)
    ensures |n| >= 2
  {
    if |n| == 1 {
      assert false;
    }
  }

  /** findPortals, getNearest and getNeighbors: the run grown around the portal nearest the agent. */
  method NearestRun(grid: Grid, agentCell: Cell, blockSize: int) returns (arrayNeighbors: seq<Observation>)
    requires blockSize > 0 && Scannable(grid) && |Portals(grid)| > 0
    ensures GrownRun(Portals(grid), NearestPortal(grid, agentCell, blockSize), arrayNeighbors, blockSize)
  {
    var portals := FindPortals(grid);
    var nearestPortal := GetNearest(Wrap(portals), agentCell, blockSize);
    var seed := nearestPortal.value;
    assert seed == NearestPortal(grid, agentCell, blockSize);
    var remaining;
    remaining, arrayNeighbors := GetNeighbors(portals, seed, blockSize);
    assert multiset(remaining) == multiset(portals) + multiset{seed} - multiset(arrayNeighbors);
    forall p | p in multiset(portals) + multiset{seed} - multiset(arrayNeighbors)
      ensures !IsNeighbor(p, arrayNeighbors[0], LEFT, blockSize)
      ensures !IsNeighbor(p, arrayNeighbors[|arrayNeighbors| - 1], RIGHT, blockSize)
    {
      assert p in remaining;
      var k :| 0 <= k < |remaining| && remaining[k] == p;
    }
  }

  /**
   * The portal the later agent's updatePortalPos settles on: the middle
   * element (index size / 2) of the run grown around the nearest portal.
   */
  ghost predicate MiddlePortal(grid: Grid, agent: Cell, blockSize: int, portal: Observation)
    requires blockSize > 0 && Scannable(grid) && |Portals(grid)| > 0
  {
    exists n :: GrownRun(Portals(grid), NearestPortal(grid, agent, blockSize), n, blockSize) && portal == GetMiddleNeighbor(n)
  }

  /**
   * The portal the first agent's updatePortalPos settles on: the element at
   * index size / 2 - 1 of the run grown around the nearest portal, which
   * must then hold two portals or more.
   */
  ghost predicate MiddlePortalAsWritten(grid: Grid, agent: Cell, blockSize: int, portal: Observation)
    requires blockSize > 0 && Scannable(grid) && |Portals(grid)| > 0
  {
    exists n :: GrownRun(Portals(grid), NearestPortal(grid, agent, blockSize), n, blockSize) && |n| >= 2
      && portal == GetMiddleNeighborAsWritten(n)
  }

  /**
   * updatePortalPos of the later agent without the field updates: the
   * middle of the run of adjacent portals around the portal nearest the
   * agent, one of the grid's portals in that portal's row.
   */
  method LocatePortal(grid: Grid, agentCell: Cell, blockSize: int) returns (portal: Observation)
    requires blockSize > 0 && Scannable(grid) && |Portals(grid)| > 0
    ensures MiddlePortal(grid, agentCell, blockSize, portal)
    ensures portal in Portals(grid)
    ensures CellOf(portal, blockSize).y == CellOf(NearestPortal(grid, agentCell, blockSize), blockSize).y
  {
    var arrayNeighbors := NearestRun(grid, agentCell, blockSize);
    portal := GetMiddleNeighbor(arrayNeighbors);
    MiddleInRun(grid, agentCell, blockSize, arrayNeighbors, MiddleIndex(|arrayNeighbors|));
  }

  /**
   * updatePortalPos of the first agent without the field updates: the
   * element at size / 2 - 1 of the run around the nearest portal. The run
   * must hold two portals (a lone portal gives index -1 and the source
   * throws), which a portal beside the nearest one guarantees.
   */
  method LocatePortalAsWritten(grid: Grid, agentCell: Cell, blockSize: int) returns (portal: Observation)
    requires blockSize > 0 && Scannable(grid) && |Portals(grid)| > 0
    requires NearestHasNeighbor(grid, agentCell, blockSize)
    ensures MiddlePortalAsWritten(grid, agentCell, blockSize, portal)
    ensures portal in Portals(grid)
    ensures CellOf(portal, blockSize).y == CellOf(NearestPortal(grid, agentCell, blockSize), blockSize).y
  {
    var arrayNeighbors := NearestRun(grid, agentCell, blockSize);
    var p :| p in Portals(grid) &&
      (IsNeighbor(p, NearestPortal(grid, agentCell, blockSize), LEFT, blockSize) ||
       IsNeighbor(p, NearestPortal(grid, agentCell, blockSize), RIGHT, blockSize));
    GrownRunOfNeighbor(Portals(grid), NearestPortal(grid, agentCell, blockSize), arrayNeighbors, p, blockSize);
    portal := GetMiddleNeighborAsWritten(arrayNeighbors);
    MiddleInRun(grid, agentCell, blockSize, arrayNeighbors, MiddleIndexAsWritten(|arrayNeighbors|));
  }

  /** Every element of a grown run is a grid portal in the nearest portal's row. */
  lemma MiddleInRun(grid: Grid, agent: Cell, blockSize: int, n: seq<Observation>, k: int)
    requires blockSize > 0 && Scannable(grid) && |Portals(grid)| > 0
    requires GrownRun(Portals(grid), NearestPortal(grid, agent, blockSize), n, blockSize) && 0 <= k < |n|
    ensures n[k] in Portals(grid)
    ensures CellOf(n[k], blockSize).y == CellOf(NearestPortal(grid, agent, blockSize), blockSize).y
  {
    var seed := NearestPortal(grid, agent, blockSize);
    assert n[k] in multiset(n);
    assert n[k] in multiset(Portals(grid)) + multiset{seed};
  }
}
