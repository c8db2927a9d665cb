/**
 * The text format Matrix.toString writes and Matrix.toCSV saves: each row's
 * cells joined by ',' with no trailing separator, each row ended by '\n'.
 * This is the quoting-free subset of RFC 4180 (section 2), with LF line ends.
 *
 * Text is built from the end, as the writer appends to its buffer; Split and
 * ParseCsv are an independent reference reader, and CsvRoundTrip proves
 * the writer's output reads back as the rows it was given.
 */
module Csv {

  /**
   * The cells of a row joined by ','. An empty row gives the empty string; a
   * row of one cell gives that cell.
   */
  function JoinCells(cells: seq<string>): (s: string)
    ensures |cells| == 1 ==> s == cells[0]
  {
    if |cells| == 0 then ""
    else if |cells| == 1 then cells[0]
    else JoinCells(cells[..|cells| - 1]) + "," + cells[|cells| - 1]
  }

  /** The whole document: every row joined, each followed by a line feed. */
  function CsvText(rows: seq<seq<string>>): (s: string)
    ensures |rows| == 0 <==> s == ""
  {
    if |rows| == 0 then ""
    else CsvText(rows[..|rows| - 1]) + JoinCells(rows[|rows| - 1]) + "\n"
  }

  /** The pieces of s between occurrences of c (always at least one piece). */
  function Split(s: string, c: char): (r: seq<string>)
    ensures |r| >= 1
    ensures c !in s ==> r == [s]
  {
    if |s| == 0 then [""]
    else if s[0] == c then [""] + Split(s[1..], c)
    else
      var rest := Split(s[1..], c);
      assert [s[0]] + s[1..] == s;
      [[s[0]] + rest[0]] + rest[1..]
  }

  /** A separator in the middle of a text splits it into the pieces of each side. */
  lemma {:induction false} SplitAtSeparator(x: string, c: char, y: string)
    ensures Split(x + [c] + y, c) == Split(x, c) + Split(y, c)
    decreases |x|
  {
    var s := x + [c] + y;
    if |x| == 0 {
      assert s == [c] + y && s[1..] == y;
    } else {
      assert s[0] == x[0] && s[1..] == x[1..] + [c] + y;
      SplitAtSeparator(x[1..], c, y);
      var rest := Split(x[1..], c);
      if x[0] == c {
        assert Split(s, c) == [""] + (rest + Split(y, c));
      } else {
        assert Split(s, c) == [[x[0]] + rest[0]] + (rest[1..] + Split(y, c)) by {
          assert (rest + Split(y, c))[1..] == rest[1..] + Split(y, c);
        }
      }
    }
  }

  /** Cells that hold neither separator, so that the format needs no quoting. */
  predicate PlainCells(cells: seq<string>)
  {
    forall i :: 0 <= i < |cells| ==> ',' !in cells[i] && '\n' !in cells[i]
  }

  /** Splitting a joined, non-empty row on ',' gives back its cells. */
  lemma {:induction false} SplitJoinCells(cells: seq<string>)
    requires |cells| >= 1 && PlainCells(cells)
    ensures Split(JoinCells(cells), ',') == cells
    decreases |cells|
  {
    if |cells| > 1 {
      var init := cells[..|cells| - 1];
      SplitJoinCells(init);
      SplitAtSeparator(JoinCells(init), ',', cells[|cells| - 1]);
    }
  }

  /** A joined row of plain cells holds no line feed. */
  lemma {:induction false} JoinCellsHasNoLineFeed(cells: seq<string>)
    requires PlainCells(cells)
    ensures '\n' !in JoinCells(cells)
    decreases |cells|
  {
    if |cells| > 1 {
      JoinCellsHasNoLineFeed(cells[..|cells| - 1]);
    }
  }

  /** The joined lines of a document. */
  function JoinedLines(rows: seq<seq<string>>): (ls: seq<string>)
    ensures |ls| == |rows|
  {
    seq(|rows|, i requires 0 <= i < |rows| => JoinCells(rows[i]))
  }

  /** Splitting a document, followed by an unterminated tail, on '\n'. */
  lemma {:induction false} SplitCsvText(rows: seq<seq<string>>, tail: string)
    requires forall i :: 0 <= i < |rows| ==> PlainCells(rows[i])
    requires '\n' !in tail
    ensures Split(CsvText(rows) + tail, '\n') == JoinedLines(rows) + [tail]
    decreases |rows|
  {
    if |rows| == 0 {
      assert CsvText(rows) + tail == tail;
    } else {
      var init := rows[..|rows| - 1];
      var last := JoinCells(rows[|rows| - 1]);
      JoinCellsHasNoLineFeed(rows[|rows| - 1]);
      SplitCsvText(init, last);
      assert CsvText(rows) + tail == (CsvText(init) + last) + ['\n'] + tail;
      SplitAtSeparator(CsvText(init) + last, '\n', tail);
      assert JoinedLines(rows) == JoinedLines(init) + [last];
    }
  }

  /**
   * Reference reader: split on line feeds, drop the empty piece after the
   * final line feed, and split every line on commas.
   */
  function ParseCsv(text: string): (rows: seq<seq<string>>)
    ensures forall i :: 0 <= i < |rows| ==> |rows[i]| >= 1
  {
    var ls := Split(text, '\n');
    var lines := if ls[|ls| - 1] == "" then ls[..|ls| - 1] else ls;
    seq(|lines|, i requires 0 <= i < |lines| => Split(lines[i], ','))
  }

  /**
   * Round trip: reading back what the writer produced gives the rows it was
   * given, provided every row has a cell and no cell holds a separator.
   */
  lemma CsvRoundTrip(rows: seq<seq<string>>)
    requires forall i :: 0 <= i < |rows| ==> |rows[i]| >= 1 && PlainCells(rows[i])
    ensures ParseCsv(CsvText(rows)) == rows
  {
    SplitCsvText(rows, "");
    assert CsvText(rows) + "" == CsvText(rows);
    var parsed := ParseCsv(CsvText(rows));
    assert |parsed| == |rows|;
    forall i | 0 <= i < |rows|
      ensures parsed[i] == rows[i]
    {
      SplitJoinCells(rows[i]);
    }
  }
}
