/**
 * Matrix: a growable table of cells, stored as a list of rows, with the
 * width check of addRow/addColumn (a SizeException that is caught, reported
 * and leaves the table unchanged) and the CSV text of toString.
 *
 * The source stores every cell as a String; the model keeps a cell type T
 * and takes the cell-to-text conversion as a parameter of ToString.
 * Rows are values: the source clones every row it stores or hands out, so
 * no row is ever shared.
 */
module Matrices {
  import opened Wrappers
  import opened Csv

  /** The list s with x inserted at position i (ArrayList.add(i, x)). */
  function InsertAt<T>(s: seq<T>, i: nat, x: T): (r: seq<T>)
    requires i <= |s|
    ensures |r| == |s| + 1 && r[i] == x
    ensures forall k :: 0 <= k < i ==> r[k] == s[k]
    ensures forall k :: i < k < |r| ==> r[k] == s[k - 1]
  {
    s[..i] + [x] + s[i..]
  }

  /** The list s without the element at position i (ArrayList.remove(int)). */
  function RemoveAt<T>(s: seq<T>, i: nat): (r: seq<T>)
    requires i < |s|
    ensures |r| == |s| - 1
    ensures forall k :: 0 <= k < i ==> r[k] == s[k]
    ensures forall k :: i <= k < |r| ==> r[k] == s[k + 1]
  {
    s[..i] + s[i + 1..]
  }

  /** Removing what was just inserted at the same position gives back the list. */
  lemma RemoveAtInsertAt<T>(s: seq<T>, i: nat, x: T)
    requires i <= |s|
    ensures RemoveAt(InsertAt(s, i, x), i) == s
  {
    var r := RemoveAt(InsertAt(s, i, x), i);
    assert forall k :: 0 <= k < |s| ==> r[k] == s[k];
  }

  /** Every row is as wide as the first. */
  predicate Rectangular<T>(rows: seq<seq<T>>)
  {
    forall i :: 0 <= i < |rows| ==> |rows[i]| == |rows[0]|
  }

  /** Every row has a cell at column c. */
  predicate HasColumn<T>(rows: seq<seq<T>>, c: int)
  {
    0 <= c && forall i :: 0 <= i < |rows| ==> c < |rows[i]|
  }

  /** Column c, top to bottom. */
  function ColumnOf<T>(rows: seq<seq<T>>, c: int): (col: seq<T>)
    requires HasColumn(rows, c)
    ensures |col| == |rows|
  {
    seq(|rows|, i requires 0 <= i < |rows| => rows[i][c])
  }

  /** Row i extended by col[i], for every row (addColumn). */
  function AppendColumn<T>(rows: seq<seq<T>>, col: seq<T>): (r: seq<seq<T>>)
    requires |rows| == |col|
    ensures |r| == |rows|
  {
    seq(|rows|, i requires 0 <= i < |rows| => rows[i] + [col[i]])
  }

  /** Every row with col[i] inserted at column c (addColumn(index, ...)). */
  function InsertColumn<T>(rows: seq<seq<T>>, c: int, col: seq<T>): (r: seq<seq<T>>)
    requires |rows| == |col| && 0 <= c && forall i :: 0 <= i < |rows| ==> c <= |rows[i]|
    ensures |r| == |rows|
  {
    seq(|rows|, i requires 0 <= i < |rows| => InsertAt(rows[i], c, col[i]))
  }

  /** Every row without its cell at column c (removeColumn). */
  function DeleteColumn<T>(rows: seq<seq<T>>, c: int): (r: seq<seq<T>>)
    requires HasColumn(rows, c)
    ensures |r| == |rows|
  {
    seq(|rows|, i requires 0 <= i < |rows| => RemoveAt(rows[i], c))
  }

  /** The table with one cell replaced (set). */
  function WithCell<T>(rows: seq<seq<T>>, r: int, c: int, x: T): (t: seq<seq<T>>)
    requires 0 <= r < |rows| && 0 <= c < |rows[r]|
    ensures |t| == |rows|
  {
    rows[r := rows[r][c := x]]
  }

  /** `n` rows with no cells: what addColumn builds before filling an empty matrix. */
  function EmptyRows<T>(n: nat): (rows: seq<seq<T>>)
    ensures |rows| == n && Rectangular(rows)
    ensures forall i :: 0 <= i < n ==> rows[i] == []
  {
    seq(n, i => [])
  }

  /** Every cell shown as text. */
  function Shown<T>(rows: seq<seq<T>>, show: T -> string): (t: seq<seq<string>>)
    ensures |t| == |rows|
  {
    seq(|rows|, i requires 0 <= i < |rows| => seq(|rows[i]|, j requires 0 <= j < |rows[i]| => show(rows[i][j])))
  }

  /** A row that passes addRow's width check keeps the table rectangular. */
  lemma AddRowKeepsRectangular<T>(rows: seq<seq<T>>, row: seq<T>, index: nat)
    requires Rectangular(rows) && (rows == [] || |rows[0]| == |row|) && index <= |rows|
    ensures Rectangular(InsertAt(rows, index, row))
    ensures Rectangular(rows + [row])
  {
    var r := InsertAt(rows, index, row);
    assert r[0] == if index == 0 then row else rows[0];
  }

  /** An inserted column reads back as the column given, and the table stays rectangular, one wider. */
  lemma ColumnOfInsertColumn<T>(rows: seq<seq<T>>, c: int, col: seq<T>)
    requires |rows| == |col| && 0 <= c && forall i :: 0 <= i < |rows| ==> c <= |rows[i]|
    ensures HasColumn(InsertColumn(rows, c, col), c)
    ensures ColumnOf(InsertColumn(rows, c, col), c) == col
    ensures Rectangular(rows) ==> Rectangular(InsertColumn(rows, c, col))
    ensures |rows| > 0 ==> |InsertColumn(rows, c, col)[0]| == |rows[0]| + 1
  {
  }

  /** Removing the column just inserted gives back the table. */
  lemma DeleteColumnInsertColumn<T>(rows: seq<seq<T>>, c: int, col: seq<T>)
    requires |rows| == |col| && 0 <= c && forall i :: 0 <= i < |rows| ==> c <= |rows[i]|
    ensures DeleteColumn(InsertColumn(rows, c, col), c) == rows
  {
    var t := InsertColumn(rows, c, col);
    forall i | 0 <= i < |rows|
      ensures RemoveAt(t[i], c) == rows[i]
    {
      RemoveAtInsertAt(rows[i], c, col[i]);
    }
  }

  /** On a rectangular table, appending a column is inserting it after the last column. */
  lemma AppendColumnIsInsertAtEnd<T>(rows: seq<seq<T>>, col: seq<T>)
    requires |rows| == |col| && |rows| > 0 && Rectangular(rows)
    ensures AppendColumn(rows, col) == InsertColumn(rows, |rows[0]|, col)
  {
    forall i | 0 <= i < |rows|
      ensures rows[i] + [col[i]] == InsertAt(rows[i], |rows[0]|, col[i])
    {
      assert rows[i][..|rows[0]|] == rows[i];
    }
  }

  /** Removing a column from a rectangular table leaves it rectangular, one narrower. */
  lemma DeleteColumnKeepsRectangular<T>(rows: seq<seq<T>>, c: int)
    requires HasColumn(rows, c) && Rectangular(rows)
    ensures Rectangular(DeleteColumn(rows, c))
    ensures |rows| > 0 ==> |DeleteColumn(rows, c)[0]| == |rows[0]| - 1
  {
  }

  /** After set, get at that cell returns the new value and no other cell changes. */
  lemma GetAfterSet<T>(rows: seq<seq<T>>, r: int, c: int, x: T)
    requires 0 <= r < |rows| && 0 <= c < |rows[r]|
    ensures WithCell(rows, r, c, x)[r][c] == x
    ensures forall i, j :: 0 <= i < |rows| && 0 <= j < |rows[i]| && (i, j) != (r, c) ==>
              WithCell(rows, r, c, x)[i][j] == rows[i][j]
    ensures Rectangular(rows) ==> Rectangular(WithCell(rows, r, c, x))
  {
  }

  class Matrix<T> {
    /** The rows, top to bottom. */
    var rows: seq<seq<T>>

    /** An empty matrix. */
    constructor()
      ensures rows == []
    {
      rows := [];
    }

    /** A matrix holding the given rows (the result of reading a CSV file). */
    constructor FromRows(stored: seq<seq<T>>)
      ensures rows == stored
    {
      rows := stored;
    }

    /** addRow's width check: an empty matrix takes any row, otherwise it must match the first row. */
    function AcceptsRow(row: seq<T>): bool
      reads this
    {
      rows == [] || |rows[0]| == |row|
    }

    /** addColumn's height check: an empty matrix takes any column, otherwise one cell per row. */
    function AcceptsColumn(col: seq<T>): bool
      reads this
    {
      rows == [] || |rows| == |col|
    }

    /** Appends a row; a row of the wrong width is refused and nothing changes. */
    method AddRow(row: seq<T>) returns (ok: bool)
      modifies this
      ensures ok == old(AcceptsRow(row))
      ensures rows == if ok then old(rows) + [row] else old(rows)
    {
      ok := AcceptsRow(row);
      if ok {
        rows := rows + [row];
      }
    }

    /** Inserts a row at `index`, shifting the rows below it down. */
    method AddRowAt(index: int, row: seq<T>) returns (ok: bool)
      requires AcceptsRow(row) ==> 0 <= index <= |rows|
      modifies this
      ensures ok == old(AcceptsRow(row))
      ensures rows == if ok then InsertAt(old(rows), index, row) else old(rows)
    {
      ok := AcceptsRow(row);
      if ok {
        rows := InsertAt(rows, index, row);
      }
    }

    /**
     * Appends col[i] to row i. An empty matrix first receives one empty row
     * per cell of the column.
     */
    method AddColumn(col: seq<T>) returns (ok: bool)
      modifies this
      ensures ok == old(AcceptsColumn(col))
      ensures rows == if !ok then old(rows)
                      else AppendColumn(if old(rows) == [] then EmptyRows(|col|) else old(rows), col)
    {
      ok := AcceptsColumn(col);
      if !ok {
        return;
      }
      if rows == [] {
        rows := EmptyRows(|col|);
      }
      ghost var start := rows;
      var i := 0;
      while i < |col|
        invariant 0 <= i <= |col| && |rows| == |start| == |col|
        invariant forall k :: 0 <= k < i ==> rows[k] == start[k] + [col[k]]
        invariant forall k :: i <= k < |rows| ==> rows[k] == start[k]
      {
        rows := rows[i := rows[i] + [col[i]]];
        i := i + 1;
      }
    }

    /**
     * Inserts col[i] at column `index` of row i. On an empty matrix the empty
     * rows are inserted at `index` too, which the list accepts only at 0.
     */
    method AddColumnAt(index: int, col: seq<T>) returns (ok: bool)
      requires rows == [] && |col| > 0 ==> index == 0
      requires rows != [] && |rows| == |col| ==> 0 <= index && forall i :: 0 <= i < |rows| ==> index <= |rows[i]|
      modifies this
      ensures ok == old(AcceptsColumn(col))
      ensures rows == if !ok then old(rows)
                      else if old(rows) == [] && col == [] then []
                      else InsertColumn(if old(rows) == [] then EmptyRows(|col|) else old(rows), index, col)
    {
      ok := AcceptsColumn(col);
      if !ok {
        return;
      }
      if rows == [] {
        rows := EmptyRows(|col|);
      }
      if col == [] {
        return;
      }
      ghost var start := rows;
      var i := 0;
      while i < |col|
        invariant 0 <= i <= |col| && |rows| == |start| == |col|
        invariant forall k :: 0 <= k < i ==> rows[k] == InsertAt(start[k], index, col[k])
        invariant forall k :: i <= k < |rows| ==> rows[k] == start[k]
      {
        rows := rows[i := InsertAt(rows[i], index, col[i])];
        i := i + 1;
      }
    }

    /** Removes the row at `index`, shifting the rows below it up. */
    method RemoveRow(index: int)
      requires 0 <= index < |rows|
      modifies this
      ensures rows == RemoveAt(old(rows), index)
    {
      rows := RemoveAt(rows, index);
    }

    /** Removes the cell at column `index` from every row. */
    method RemoveColumn(index: int)
      requires |rows| == 0 || HasColumn(rows, index)
      modifies this
      ensures |old(rows)| == 0 ==> rows == old(rows)
      ensures |old(rows)| > 0 ==> rows == DeleteColumn(old(rows), index)
    {
      ghost var start := rows;
      var i := 0;
      while i < |rows|
        invariant 0 <= i <= |rows| && |rows| == |start|
        invariant forall k :: 0 <= k < i ==> rows[k] == RemoveAt(start[k], index)
        invariant forall k :: i <= k < |rows| ==> rows[k] == start[k]
      {
        rows := rows[i := RemoveAt(rows[i], index)];
        i := i + 1;
      }
    }

    /** Replaces one cell. */
    method Set(row: int, column: int, x: T)
      requires 0 <= row < |rows| && 0 <= column < |rows[row]|
      modifies this
      ensures rows == WithCell(old(rows), row, column, x)
    {
      rows := WithCell(rows, row, column, x);
    }

    /** One cell. */
    function Get(row: int, column: int): T
      requires 0 <= row < |rows| && 0 <= column < |rows[row]|
      reads this
    {
      rows[row][column]
    }

    /** The width: 0 for an empty matrix, otherwise the first row's length. */
    function Width(): (w: nat)
      reads this
      ensures rows == [] ==> w == 0
      ensures Rectangular(rows) ==> forall i :: 0 <= i < |rows| ==> |rows[i]| == w
    {
      if rows == [] then 0 else |rows[0]|
    }

    /** The height: the number of rows. */
    function Height(): nat
      reads this
    {
      |rows|
    }

    /** A copy of one row; None (null in the source) when the matrix is empty. */
    function GetRow(row: int): (r: Option<seq<T>>)
      requires rows != [] ==> 0 <= row < |rows|
      reads this
      ensures r.None? <==> rows == []
      ensures r.Some? && Rectangular(rows) ==> |r.value| == Width()
    {
      if rows == [] then None else Some(rows[row])
    }

    /** A copy of one column; None (null in the source) when the matrix is empty. */
    method GetColumn(column: int) returns (r: Option<seq<T>>)
      requires rows != [] ==> HasColumn(rows, column)
      ensures r.None? <==> rows == []
      ensures r.Some? ==> |r.value| == |rows| && forall i :: 0 <= i < |rows| ==> r.value[i] == rows[i][column]
    {
      if rows == [] {
        return None;
      }
      var aux: seq<T> := [];
      var i := 0;
      while i < |rows|
        invariant 0 <= i <= |rows| && |aux| == i
        invariant forall k :: 0 <= k < i ==> aux[k] == rows[k][column]
      {
        aux := aux + [rows[i][column]];
        i := i + 1;
      }
      return Some(aux);
    }

    /**
     * The CSV text of the matrix: for each row its cells separated by ','
     * (none after the last) and then '\n'; the empty string for an empty
     * matrix.
     */
    method ToString(show: T -> string) returns (s: string)
      ensures s == CsvText(Shown(rows, show))
    {
      var shown := Shown(rows, show);
      s := "";
      var r := 0;
      while r < |rows|
        invariant 0 <= r <= |rows|
        invariant s == CsvText(shown[..r])
      {
        ghost var before := s;
        ghost var cells := shown[r];
        var c := 0;
        while c < |rows[r]|
          invariant 0 <= c <= |rows[r]| == |cells|
          invariant s == before + RowPrefix(cells, c)
        {
          RowPrefixStep(before, cells, c);
          s := s + show(rows[r][c]);
          if c < |rows[r]| - 1 {
            s := s + ",";
          }
          c := c + 1;
        }
        RowPrefixFull(cells);
        CsvTextStep(shown, r);
        s := s + "\n";
        r := r + 1;
      }
      assert shown[..|rows|] == shown;
    }
  }

  /**
   * What toString has written of a row after its first c cells: those cells
   * joined, followed by ',' when more cells follow.
   */
  ghost function RowPrefix(cells: seq<string>, c: nat): string
    requires c <= |cells|
  {
    JoinCells(cells[..c]) + (if 0 < c < |cells| then "," else "")
  }

  /** Writing cell c extends what is written of the row by that cell and, unless it is the last, a ','. */
  lemma RowPrefixStep(before: string, cells: seq<string>, c: nat)
    requires c < |cells|
    ensures c < |cells| - 1 ==> before + RowPrefix(cells, c + 1) == before + RowPrefix(cells, c) + cells[c] + ","
    ensures c == |cells| - 1 ==> before + RowPrefix(cells, c + 1) == before + RowPrefix(cells, c) + cells[c]
  {
    assert cells[..c + 1][..c] == cells[..c];
  }

  /** Once every cell is written, the row reads as its cells joined. */
  lemma RowPrefixFull(cells: seq<string>)
    ensures RowPrefix(cells, |cells|) == JoinCells(cells)
  {
    assert cells[..|cells|] == cells;
  }

  /** One more row of text: the text so far, the row joined, a line feed. */
  lemma CsvTextStep(rows: seq<seq<string>>, r: nat)
    requires r < |rows|
    ensures CsvText(rows[..r + 1]) == CsvText(rows[..r]) + JoinCells(rows[r]) + "\n"
  {
    assert rows[..r + 1][..r] == rows[..r];
  }
}
