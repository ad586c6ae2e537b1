/**
 * The point table of a report (`Graphs.create_table_graph`): the first
 * cell of every row is set in bold in place, and every row is shaded by
 * the parity of `data.index(rows)` — the first row equal to it, looked up
 * after the earlier rows were already rewritten.  Laying the table out
 * then fails unless there are rows and each is as wide as the five
 * columns.  The rows are the elements of an array the method updates;
 * each row is a value, so two positions holding the same list object are
 * not modelled.
 */
module TableImage {
  import opened Wrappers
  import opened Chart

  const HeaderColor := "#8DB3E2"
  const EvenShade := "#FFFFFF"
  const OddShade := "#DCE6F1"
  const ColumnWidths: seq<real> := [0.3, 0.2, 0.25, 0.2, 0.2]

  /** The drawn table: the fields `ax.table` and `plt.title` are given. */
  datatype TableFigure = TableFigure(
    title: string,
    columns: seq<string>,
    cells: seq<seq<string>>,
    cellColors: seq<seq<string>>,
    colWidths: seq<real>,
    colColors: seq<string>)

  /** Mathtext bold. */
  function Bold(x: string): string
  {
    "$\\bf" + x + "$"
  }

  /** The five column headings; the middle two carry the compared dates. */
  function Columns(previousDate: string, currentDate: string): (r: seq<string>)
    ensures |r| == |ColumnWidths|
  {
    [ Bold("Nombre") + " " + Bold("de") + " " + Bold("PUNTO"),
      Bold("Unidades"),
      Bold("Valor") + " " + Bold("anterior") + "\n" + Bold(previousDate),
      Bold("\U{DA}lt.") + " " + Bold("valor") + "\n" + Bold(currentDate),
      Bold("\\%") + " " + Bold("cambio") ]
  }

  function BoldFirst(row: seq<string>): seq<string>
    requires row != []
  {
    [Bold(row[0])] + row[1..]
  }

  function Shade(i: nat): string
  {
    if i % 2 == 0 then EvenShade else OddShade
  }

  /** The shading of the table: each row in the shade of its first equal row. */
  function RowColors(rows: seq<seq<string>>): (r: seq<seq<string>>)
    ensures |r| == |rows|
  {
    seq(|rows|, i requires 0 <= i < |rows| => seq(|rows[i]|, _ => Shade(FirstIndex(rows, rows[i]))))
  }

  lemma BoldInjective(x: string, y: string)
    requires Bold(x) == Bold(y)
    ensures x == y
  {
    assert x == Bold(x)[4..|Bold(x)| - 1];
    assert y == Bold(y)[4..|Bold(y)| - 1];
  }

  /** Bolding the first cell tells two non-empty rows apart exactly when they were apart. */
  lemma BoldFirstInjective(a: seq<string>, b: seq<string>)
    requires a != [] && b != []
    ensures BoldFirst(a) == BoldFirst(b) <==> a == b
  {
    if BoldFirst(a) == BoldFirst(b) {
      assert BoldFirst(a)[0] == BoldFirst(b)[0];
      BoldInjective(a[0], b[0]);
      assert a[1..] == BoldFirst(a)[1..] == BoldFirst(b)[1..] == b[1..];
      assert a == [a[0]] + a[1..];
      assert b == [b[0]] + b[1..];
    }
  }

  /**
   * When the rows before `i` and row `i` itself have been bolded and the
   * others not, `data.index` of row `i` is the position of its first equal
   * row in the original table.
   */
  lemma IndexAfterBolding(orig: seq<seq<string>>, cur: seq<seq<string>>, i: nat)
    requires |cur| == |orig| && i < |orig|
    requires forall j :: 0 <= j <= i ==> orig[j] != [] && cur[j] == BoldFirst(orig[j])
    ensures FirstIndex(cur, cur[i]) == FirstIndex(orig, orig[i])
  {
    var a := FirstIndex(orig, orig[i]);
    BoldFirstInjective(orig[a], orig[i]);
    forall j | 0 <= j < a
      ensures cur[j] != cur[i]
    {
      BoldFirstInjective(orig[j], orig[i]);
    }
    var b := FirstIndex(cur, cur[i]);
    assert b <= a;
  }

  /** `col_colors`: the heading shade, once per column. */
  method HeaderColors(n: nat) returns (colColors: seq<string>)
    ensures colColors == seq(n, _ => HeaderColor)
  {
    colColors := [];
    for c := 0 to n
      invariant colColors == seq(c, _ => HeaderColor)
    {
      colColors := colColors + [HeaderColor];
    }
  }

  /** The shading of one (already bolded) row: one cell per cell, by `data.index(rows)`. */
  method ShadeRow(table: seq<seq<string>>, row: seq<string>) returns (rowColors: seq<string>)
    requires row in table
    ensures rowColors == seq(|row|, _ => Shade(FirstIndex(table, row)))
  {
    rowColors := [];
    for c := 0 to |row|
      invariant rowColors == seq(c, _ => Shade(FirstIndex(table, row)))
    {
      var position := FirstIndex(table, row);
      rowColors := rowColors + [if position % 2 == 0 then EvenShade else OddShade];
    }
  }

  /** One more row of the shading, computed on the rewritten table, extends the prefix. */
  lemma RowColorsStep(orig: seq<seq<string>>, colors: seq<seq<string>>, i: nat, rowColors: seq<string>)
    requires i < |orig| && colors == RowColors(orig)[..i]
    requires rowColors == seq(|orig[i]|, _ => Shade(FirstIndex(orig, orig[i])))
    ensures colors + [rowColors] == RowColors(orig)[..i + 1]
  {
    var all := RowColors(orig);
    assert all[i] == rowColors;
    PrefixStep(all, i);
  }

  lemma PrefixStep<T>(s: seq<T>, i: nat)
    requires i < |s|
    ensures s[..i + 1] == s[..i] + [s[i]]
  {
  }

  /**
   * The exception `ax.table` raises for the bolded rows, if any. It reads
   * `cellText[0]` for the width, requires every row (and every shading
   * row) to have that width, and reads `colWidths[c]` for each column.
   */
  function TableError(cells: seq<seq<string>>): (r: Option<GraphError>)
    ensures r.None? <==> cells != [] && |cells[0]| <= |ColumnWidths| &&
                         forall i :: 0 <= i < |cells| ==> |cells[i]| == |cells[0]|
    ensures r.Some? ==> r.value == IndexError || r.value == ValueError
  {
    if cells == [] then Some(IndexError)
    else if exists i :: 0 <= i < |cells| && |cells[i]| != |cells[0]| then Some(ValueError)
    else if |cells[0]| > |ColumnWidths| then Some(IndexError)
    else None
  }

  /**
   * What the table step raises after the rows were bolded: the error of
   * `ax.table`, or the KeyError of `cellDict[(0, i)]` for a heading cell
   * past the width of a table narrower than the five columns.
   */
  function LayoutError(cells: seq<seq<string>>): (r: Option<GraphError>)
    ensures r.None? <==> cells != [] && forall i :: 0 <= i < |cells| ==> |cells[i]| == |ColumnWidths|
    ensures cells == [] ==> r == Some(IndexError)
    ensures r == Some(KeyError) <==>
              cells != [] && |cells[0]| < |ColumnWidths| && forall i :: 0 <= i < |cells| ==> |cells[i]| == |cells[0]|
  {
    if TableError(cells).Some? then TableError(cells)
    else if |cells[0]| < |ColumnWidths| then Some(KeyError)
    else None
  }

  /**
   * Each way the table step fails: no rows, a row narrower or wider than
   * the first, rows wider than the five column widths, rows narrower than
   * the five headings.
   */
  lemma LayoutErrorCases(cells: seq<seq<string>>)
    ensures cells != [] && (exists i :: 0 <= i < |cells| && |cells[i]| != |cells[0]|) ==>
              LayoutError(cells) == Some(ValueError)
    ensures cells != [] && |cells[0]| > |ColumnWidths| && (forall i :: 0 <= i < |cells| ==> |cells[i]| == |cells[0]|) ==>
              LayoutError(cells) == Some(IndexError)
    ensures cells != [] && |cells[0]| < |ColumnWidths| && (forall i :: 0 <= i < |cells| ==> |cells[i]| == |cells[0]|) ==>
              LayoutError(cells) == Some(KeyError)
  {
  }

  /** Bolding the first cells keeps every row's width, so the table step sees the original widths. */
  lemma LayoutErrorOfBolded(orig: seq<seq<string>>, cells: seq<seq<string>>)
    requires |cells| == |orig|
    requires forall i :: 0 <= i < |orig| ==> orig[i] != [] && cells[i] == BoldFirst(orig[i])
    ensures LayoutError(cells) == LayoutError(orig)
  {
    assert forall i :: 0 <= i < |orig| ==> |cells[i]| == |orig[i]|;
  }

  /** `ax.table(...)`, then the loop over the heading cells that sets their height. */
  method LayOut(cells: seq<seq<string>>, columns: seq<string>) returns (failure: Option<GraphError>)
    requires |columns| == |ColumnWidths|
    ensures failure == LayoutError(cells)
  {
    failure := TableError(cells);
    if failure.Some? {
      return;
    }
    // `cellDict` holds the heading cells (0, c) for the columns of the first row.
    var width := |cells[0]|;
    for c := 0 to |columns|
      invariant c <= width
    {
      if c >= width {
        return Some(KeyError);
      }
    }
  }

  /** The first `k` rows are non-empty and bolded; the rest are as they were. */
  predicate BoldedUpTo(orig: seq<seq<string>>, cur: seq<seq<string>>, k: nat)
  {
    |cur| == |orig| && k <= |orig| &&
    (forall i :: 0 <= i < k ==> orig[i] != [] && cur[i] == BoldFirst(orig[i])) &&
    (forall i :: k <= i < |orig| ==> cur[i] == orig[i])
  }

  predicate NoEmptyRow(rows: seq<seq<string>>)
  {
    forall i :: 0 <= i < |rows| ==> rows[i] != []
  }

  /**
   * `Graphs.create_table_graph`, up to the rendering of the table: every
   * row is bolded in place, then the table is laid out and its heading
   * cells are visited.
   */
  method CreateTableGraph(engineName: string, previousDate: string, currentDate: string, data: array<seq<string>>)
    returns (r: Result<TableFigure, GraphError>)
    modifies data
    ensures r.Ok? <==> data.Length > 0 && forall i :: 0 <= i < data.Length ==> |old(data[i])| == |ColumnWidths|
    ensures r.Ok? ==>
              r.value == TableFigure(engineName, Columns(previousDate, currentDate), data[..],
                                     RowColors(old(data[..])), ColumnWidths,
                                     seq(|ColumnWidths|, _ => HeaderColor))
    ensures NoEmptyRow(old(data[..])) ==>
              BoldedUpTo(old(data[..]), data[..], data.Length) &&
              (r.Err? ==> Some(r.error) == LayoutError(old(data[..])))
    ensures !NoEmptyRow(old(data[..])) ==>
              r == Err(IndexError) &&
              exists k :: 0 <= k < data.Length && old(data[k]) == [] && BoldedUpTo(old(data[..]), data[..], k)
  {
    ghost var orig := data[..];
    var columns := Columns(previousDate, currentDate);
    var colColors := HeaderColors(|columns|);
    var k, colors := BoldRows(data);
    var cur := data[..];
    if k < data.Length {
      assert !NoEmptyRow(orig);
      return Err(IndexError);
    }
    assert NoEmptyRow(orig);
    LayoutErrorOfBolded(orig, cur);
    var failure := LayOut(cur, columns);
    if failure.Some? {
      return Err(failure.value);
    }
    r := Ok(TableFigure(engineName, columns, cur, colors, ColumnWidths, colColors));
  }

  /**
   * The loop over `data`: bolds each row's first cell in place and shades
   * it, until the end or the first empty row, whose `rows[0]` raises at
   * position `k`.
   */
  method BoldRows(data: array<seq<string>>) returns (k: nat, colors: seq<seq<string>>)
    modifies data
    ensures BoldedUpTo(old(data[..]), data[..], k)
    ensures k < data.Length ==> old(data[k]) == []
    ensures k == data.Length ==> colors == RowColors(old(data[..]))
  {
    ghost var orig := data[..];
    colors := [];
    for i := 0 to data.Length
      invariant BoldedUpTo(orig, data[..], i)
      invariant colors == RowColors(orig)[..i]
    {
      var rows := data[i];
      if rows == [] {
        return i, colors;
      }
      rows := [Bold(rows[0])] + rows[1..];
      data[i] := rows;
      var cur := data[..];
      IndexAfterBolding(orig, cur, i);
      assert cur[i] == rows;
      var rowColors := ShadeRow(cur, rows);
      RowColorsStep(orig, colors, i, rowColors);
      colors := colors + [rowColors];
    }
    assert RowColors(orig)[..data.Length] == RowColors(orig);
    k := data.Length;
  }

  /** Every shading row is as long as its table row and of one shade throughout. */
  lemma RowColorsShape(rows: seq<seq<string>>)
    ensures forall i :: 0 <= i < |rows| ==>
              |RowColors(rows)[i]| == |rows[i]| &&
              forall c :: 0 <= c < |rows[i]| ==> RowColors(rows)[i][c] == Shade(FirstIndex(rows, rows[i]))
  {
  }

  /**
   * Distinct rows alternate white and blue; a row repeating an earlier one
   * takes that row's shade instead of its own position's.
   */
  lemma RowColorsAlternate(rows: seq<seq<string>>, i: nat)
    requires i < |rows| && rows[i] != []
    ensures (forall j :: 0 <= j < i ==> rows[j] != rows[i]) ==>
              RowColors(rows)[i][0] == (if i % 2 == 0 then EvenShade else OddShade)
    ensures forall j :: 0 <= j < i && rows[j] == rows[i] ==>
              RowColors(rows)[i] == RowColors(rows)[j]
  {
  }
}
