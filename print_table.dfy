/** `print_table` of examples/utils/print_table.py: column widths from the
    longest text in each column plus two, then a header line, a line of
    dashes and one line per row, each cell left-justified to its column's
    width. The printed lines are returned instead of written to the console;
    cells are taken already rendered with `str()`. */
module PrintTable {
  import opened Wrappers
  import opened Values
  import opened Seqs

  function Max(a: nat, b: nat): nat {
    if a < b then b else a
  }

  /** The longest text in column `i` of `rows`, at least `init`. */
  function CellMax(rows: seq<seq<string>>, i: nat, init: nat): nat
    requires forall j :: 0 <= j < |rows| ==> i < |rows[j]|
  {
    if rows == [] then init else Max(CellMax(rows[..|rows| - 1], i, init), |rows[|rows| - 1][i]|)
  }

  /** The column maximum bounds every cell of the column and is attained. */
  lemma {:induction false} CellMaxSpec(rows: seq<seq<string>>, i: nat, init: nat)
    requires forall j :: 0 <= j < |rows| ==> i < |rows[j]|
    ensures CellMax(rows, i, init) >= init
    ensures forall j :: 0 <= j < |rows| ==> CellMax(rows, i, init) >= |rows[j][i]|
    ensures CellMax(rows, i, init) == init || exists j :: 0 <= j < |rows| && CellMax(rows, i, init) == |rows[j][i]|
  {
    if rows != [] {
      var n := |rows| - 1;
      CellMaxSpec(rows[..n], i, init);
      assert forall j :: 0 <= j < n ==> rows[..n][j] == rows[j];
    }
  }

  /** Whether every row has a cell in each header's column. */
  predicate RowsCover(width: nat, rows: seq<seq<string>>) {
    forall j :: 0 <= j < |rows| ==> width <= |rows[j]|
  }

  /** The width of column `i`: its longest text plus two. */
  function ColumnWidthOf(headers: seq<string>, rows: seq<seq<string>>, i: nat): nat
    requires i < |headers| && RowsCover(|headers|, rows)
  {
    CellMax(rows, i, |headers[i]|) + 2
  }

  /** The inner loop: the width of one column, or the `IndexError` of the
      first row too short to have that column. */
  method ColumnWidth(header: string, rows: seq<seq<string>>, i: nat) returns (r: Result<nat, Error>)
    ensures r.Ok? <==> forall j :: 0 <= j < |rows| ==> i < |rows[j]|
    ensures r.Err? ==> r.error == IndexError
    ensures r.Ok? ==> r.value == CellMax(rows, i, |header|) + 2
  {
    var colWidth := |header|;
    for j := 0 to |rows|
      invariant forall k :: 0 <= k < j ==> i < |rows[k]|
      invariant colWidth == CellMax(rows[..j], i, |header|)
    {
      if |rows[j]| <= i {
        return Err(IndexError);
      }
      assert rows[..j + 1][..j] == rows[..j];
      colWidth := Max(colWidth, |rows[j][i]|);
    }
    assert rows[..|rows|] == rows;
    r := Ok(colWidth + 2);
  }

  /** The outer loop: one width per header, or `IndexError` when a row has
      fewer cells than there are headers. */
  method ColumnWidths(headers: seq<string>, rows: seq<seq<string>>) returns (r: Result<seq<nat>, Error>)
    ensures r.Ok? <==> RowsCover(|headers|, rows)
    ensures r.Err? ==> r.error == IndexError
    ensures r.Ok? ==> |r.value| == |headers| && forall i :: 0 <= i < |headers| ==> r.value[i] == ColumnWidthOf(headers, rows, i)
    ensures r.Ok? ==> r.value == Widths(headers, rows)
  {
    var colWidths: seq<nat> := [];
    for i := 0 to |headers|
      invariant RowsCover(i, rows)
      invariant |colWidths| == i
      invariant forall k :: 0 <= k < i ==> colWidths[k] == CellMax(rows, k, |headers[k]|) + 2
    {
      var w := ColumnWidth(headers[i], rows, i);
      if w.Err? {
        return Err(IndexError);
      }
      colWidths := colWidths + [w.value];
    }
    assert colWidths == Widths(headers, rows);
    r := Ok(colWidths);
  }

  /** The widths bound every cell by at least two. */
  lemma WidthsBoundCells(headers: seq<string>, rows: seq<seq<string>>, i: nat)
    requires i < |headers| && RowsCover(|headers|, rows)
    ensures ColumnWidthOf(headers, rows, i) >= |headers[i]| + 2
    ensures forall j :: 0 <= j < |rows| ==> ColumnWidthOf(headers, rows, i) >= |rows[j][i]| + 2
  {
    CellMaxSpec(rows, i, |headers[i]|);
  }

  function Repeat(c: char, n: nat): (r: string)
    ensures |r| == n && forall k :: 0 <= k < n ==> r[k] == c
  {
    seq(n, _ => c)
  }

  /** `f"{s:<{w}}"`: the text, then spaces up to width `w`; a longer text is
      left as it is. */
  function PadRight(s: string, w: nat): (r: string)
    ensures |r| == Max(|s|, w)
    ensures r[..|s|] == s
    ensures forall k :: |s| <= k < |r| ==> r[k] == ' '
  {
    if |s| < w then s + Repeat(' ', w - |s|) else s
  }

  function Sum(ws: seq<nat>): nat {
    if ws == [] then 0 else Sum(ws[..|ws| - 1]) + ws[|ws| - 1]
  }

  /** The cells of a row, each padded to its column's width. */
  function PaddedLine(cells: seq<string>, widths: seq<nat>): string
    requires |cells| <= |widths|
  {
    if cells == [] then "" else PaddedLine(cells[..|cells| - 1], widths) + PadRight(cells[|cells| - 1], widths[|cells| - 1])
  }

  /** A line whose cells fit their widths is exactly as long as the widths add up to. */
  lemma {:induction false} PaddedLineLength(cells: seq<string>, widths: seq<nat>)
    requires |cells| <= |widths|
    requires forall i :: 0 <= i < |cells| ==> |cells[i]| <= widths[i]
    ensures |PaddedLine(cells, widths)| == Sum(widths[..|cells|])
  {
    if cells != [] {
      var n := |cells| - 1;
      PaddedLineLength(cells[..n], widths);
      assert widths[..n + 1][..n] == widths[..n];
    }
  }

  /** The line of the first `j` cells is a prefix of the whole line. */
  lemma {:induction false} PaddedLinePrefix(cells: seq<string>, widths: seq<nat>, j: nat)
    requires j <= |cells| <= |widths|
    ensures PaddedLine(cells[..j], widths) <= PaddedLine(cells, widths)
    decreases |cells|
  {
    if j < |cells| {
      var n := |cells| - 1;
      PaddedLinePrefix(cells[..n], widths, j);
      assert cells[..n][..j] == cells[..j];
    } else {
      assert cells[..j] == cells;
    }
  }

  /** Each cell of a padded line starts where the widths before it end. */
  lemma PaddedLineCells(cells: seq<string>, widths: seq<nat>, i: nat)
    requires |cells| <= |widths| && i < |cells|
    requires forall k :: 0 <= k < |cells| ==> |cells[k]| <= widths[k]
    ensures Sum(widths[..i]) + widths[i] <= |PaddedLine(cells, widths)|
    ensures PaddedLine(cells, widths)[Sum(widths[..i])..Sum(widths[..i]) + widths[i]] == PadRight(cells[i], widths[i])
  {
    var front := PaddedLine(cells[..i], widths);
    var cell := PadRight(cells[i], widths[i]);
    assert cells[..i + 1][..i] == cells[..i];
    assert PaddedLine(cells[..i + 1], widths) == front + cell;
    PaddedLinePrefix(cells, widths, i + 1);
    assert forall k :: 0 <= k < i ==> cells[..i][k] == cells[k];
    PaddedLineLength(cells[..i], widths);
    assert |front| == Sum(widths[..i]) && |cell| == widths[i];
    SliceOfConcatRight(front, cell);
  }

  /** The loop that builds one printed line; a row with more cells than there
      are columns fails with `IndexError` at the first extra cell. */
  method FormatRow(cells: seq<string>, widths: seq<nat>) returns (r: Result<string, Error>)
    ensures r.Ok? <==> |cells| <= |widths|
    ensures r.Err? ==> r.error == IndexError
    ensures r.Ok? ==> r.value == PaddedLine(cells, widths)
  {
    var rowStr := "";
    for i := 0 to |cells|
      invariant i <= |widths|
      invariant rowStr == PaddedLine(cells[..i], widths)
    {
      if i >= |widths| {
        return Err(IndexError);
      }
      assert cells[..i + 1][..i] == cells[..i];
      rowStr := rowStr + PadRight(cells[i], widths[i]);
    }
    assert cells[..|cells|] == cells;
    r := Ok(rowStr);
  }

  /** The separator loop: as many dashes as the widths add up to. */
  method Separator(widths: seq<nat>) returns (s: string)
    ensures s == Repeat('-', Sum(widths))
  {
    s := "";
    for i := 0 to |widths|
      invariant s == Repeat('-', Sum(widths[..i]))
    {
      assert widths[..i + 1][..i] == widths[..i];
      s := s + Repeat('-', widths[i]);
    }
    assert widths[..|widths|] == widths;
  }

  /** What `print_table` prints before it returns or raises. */
  datatype Printed = Printed(lines: seq<string>, error: Option<Error>)

  /** The data lines of the rows, up to the first row with too many cells. */
  function RowLines(rows: seq<seq<string>>, widths: seq<nat>): Printed {
    if rows == [] then Printed([], None)
    else
      var p := RowLines(rows[..|rows| - 1], widths);
      if p.error.Some? then p
      else if |rows[|rows| - 1]| <= |widths| then Printed(p.lines + [PaddedLine(rows[|rows| - 1], widths)], None)
      else Printed(p.lines, Some(IndexError))
  }

  /** Every row is printed, in order, when none has more cells than there are columns. */
  lemma {:induction false} RowLinesAll(rows: seq<seq<string>>, widths: seq<nat>)
    requires forall j :: 0 <= j < |rows| ==> |rows[j]| <= |widths|
    ensures RowLines(rows, widths).error.None?
    ensures |RowLines(rows, widths).lines| == |rows|
    ensures forall j :: 0 <= j < |rows| ==> RowLines(rows, widths).lines[j] == PaddedLine(rows[j], widths)
  {
    if rows != [] {
      var n := |rows| - 1;
      RowLinesAll(rows[..n], widths);
      assert forall j :: 0 <= j < n ==> rows[..n][j] == rows[j];
    }
  }

  lemma {:induction false} RowLinesStopped(rows: seq<seq<string>>, n: nat, widths: seq<nat>)
    requires n <= |rows| && RowLines(rows[..n], widths).error.Some?
    ensures RowLines(rows, widths) == RowLines(rows[..n], widths)
    decreases |rows| - n
  {
    if n < |rows| {
      assert rows[..n + 1][..n] == rows[..n];
      RowLinesStopped(rows, n + 1, widths);
    } else {
      assert rows[..n] == rows;
    }
  }

  /** The column widths `print_table` computes. */
  function Widths(headers: seq<string>, rows: seq<seq<string>>): (widths: seq<nat>)
    requires RowsCover(|headers|, rows)
    ensures |widths| == |headers|
  {
    seq(|headers|, i requires 0 <= i < |headers| => ColumnWidthOf(headers, rows, i))
  }

  /** Everything `print_table` prints: nothing and `IndexError` when a row is
      too short; otherwise the header line, the separator and the row lines. */
  function Table(headers: seq<string>, rows: seq<seq<string>>): Printed {
    if !RowsCover(|headers|, rows) then Printed([], Some(IndexError))
    else
      var widths := Widths(headers, rows);
      var body := RowLines(rows, widths);
      Printed([PaddedLine(headers, widths), Repeat('-', Sum(widths))] + body.lines, body.error)
  }

  /** `print_table`. */
  method PrintTableLines(headers: seq<string>, rows: seq<seq<string>>) returns (p: Printed)
    ensures p == Table(headers, rows)
  {
    var widths := ColumnWidths(headers, rows);
    if widths.Err? {
      return Printed([], Some(IndexError));
    }
    var colWidths := widths.value;
    var headerRow := FormatRow(headers, colWidths);
    var separator := Separator(colWidths);
    var rowLines: seq<string> := [];
    for j := 0 to |rows|
      invariant RowLines(rows[..j], colWidths) == Printed(rowLines, None)
    {
      assert rows[..j + 1][..j] == rows[..j];
      var rowStr := FormatRow(rows[j], colWidths);
      if rowStr.Err? {
        RowLinesStopped(rows, j + 1, colWidths);
        return Printed([headerRow.value, separator] + rowLines, Some(IndexError));
      }
      rowLines := rowLines + [rowStr.value];
    }
    assert rows[..|rows|] == rows;
    p := Printed([headerRow.value, separator] + rowLines, None);
  }

  /** A table whose rows all have one cell per header prints without error
      `2 + |rows|` lines, every one exactly as long as the widths add up to. */
  lemma TableShape(headers: seq<string>, rows: seq<seq<string>>)
    requires forall j :: 0 <= j < |rows| ==> |rows[j]| == |headers|
    ensures Table(headers, rows).error.None?
    ensures |Table(headers, rows).lines| == 2 + |rows|
    ensures forall k :: 0 <= k < |Table(headers, rows).lines| ==> |Table(headers, rows).lines[k]| == Sum(Widths(headers, rows))
  {
    var widths := Widths(headers, rows);
    forall i | 0 <= i < |headers|
      ensures |headers[i]| <= widths[i]
      ensures forall j :: 0 <= j < |rows| ==> |rows[j][i]| <= widths[i]
    {
      WidthsBoundCells(headers, rows, i);
    }
    assert widths[..|headers|] == widths;
    PaddedLineLength(headers, widths);
    RowLinesAll(rows, widths);
    forall j | 0 <= j < |rows|
      ensures |PaddedLine(rows[j], widths)| == Sum(widths)
    {
      PaddedLineLength(rows[j], widths);
    }
  }
}
