/**
 * The table of src/table.rs: headers, rows of cells, the column widths and
 * overall width computed from them, a selected row that moves without
 * wrapping, and a scroll offset that follows it over `visibleLines` rows.
 */
module Tables {
  import opened Wrappers

  /** Every row has a cell for each header, as the width computation indexes `row[i]`. */
  predicate RowsCoverHeaders(headers: seq<string>, data: seq<seq<string>>) {
    forall j :: 0 <= j < |data| ==> |headers| <= |data[j]|
  }

  /** The widest of `base` and cell `i` of the first `j` rows, each plus `2 * padding`. */
  function CellMax(data: seq<seq<string>>, i: nat, padding: nat, j: nat, base: nat): (m: nat)
    requires j <= |data|
    requires forall r :: 0 <= r < j ==> i < |data[r]|
    ensures m >= base
  {
    if j == 0 then base
    else Max(CellMax(data, i, padding, j - 1, base), |data[j - 1][i]| + 2 * padding)
  }

  /** The width of column `i`: its header or its widest cell, plus padding on both sides. */
  function ColumnWidth(headers: seq<string>, data: seq<seq<string>>, padding: nat, i: nat): (w: nat)
    requires i < |headers| && RowsCoverHeaders(headers, data)
    ensures w >= |headers[i]| + 2 * padding
    ensures w >= 2 * padding
  {
    CellMax(data, i, padding, |data|, |headers[i]| + 2 * padding)
  }

  function ColumnWidths(headers: seq<string>, data: seq<seq<string>>, padding: nat): (widths: seq<nat>)
    requires RowsCoverHeaders(headers, data)
    ensures |widths| == |headers|
  {
    seq(|headers|, i requires 0 <= i < |headers| => ColumnWidth(headers, data, padding, i))
  }

  /** `CellMax` is at least every value it ranges over and equal to one of them. */
  lemma {:induction false} CellMaxIsMax(data: seq<seq<string>>, i: nat, padding: nat, j: nat, base: nat)
    requires j <= |data|
    requires forall r :: 0 <= r < j ==> i < |data[r]|
    ensures CellMax(data, i, padding, j, base) >= base
    ensures forall r :: 0 <= r < j ==> CellMax(data, i, padding, j, base) >= |data[r][i]| + 2 * padding
    ensures CellMax(data, i, padding, j, base) == base ||
            exists r :: 0 <= r < j && CellMax(data, i, padding, j, base) == |data[r][i]| + 2 * padding
  {
    if j > 0 {
      CellMaxIsMax(data, i, padding, j - 1, base);
    }
  }

  /**
   * A column is as wide as its header and as each of its cells, plus the
   * padding on both sides, and no wider than the widest of them.
   */
  lemma ColumnWidthIsMax(headers: seq<string>, data: seq<seq<string>>, padding: nat, i: nat)
    requires i < |headers| && RowsCoverHeaders(headers, data)
    ensures ColumnWidth(headers, data, padding, i) >= |headers[i]| + 2 * padding
    ensures forall r :: 0 <= r < |data| ==> ColumnWidth(headers, data, padding, i) >= |data[r][i]| + 2 * padding
    ensures ColumnWidth(headers, data, padding, i) == |headers[i]| + 2 * padding ||
            exists r :: 0 <= r < |data| && ColumnWidth(headers, data, padding, i) == |data[r][i]| + 2 * padding
  {
    CellMaxIsMax(data, i, padding, |data|, |headers[i]| + 2 * padding);
  }

  /** `iter().sum()` of the widths. */
  function Sum(s: seq<nat>): (total: nat)
    ensures s == [] ==> total == 0
    ensures forall i :: 0 <= i < |s| ==> s[i] <= total
  {
    if s == [] then 0 else Sum(s[..|s| - 1]) + s[|s| - 1]
  }

  /** The overall width: the columns plus one border character per column and one more. */
  function TableWidth(widths: seq<nat>): (w: nat)
    ensures w >= |widths| + 1
    ensures forall i :: 0 <= i < |widths| ==> widths[i] < w
  {
    Sum(widths) + |widths| + 1
  }

  /** A pointwise larger sequence has a larger sum. */
  lemma {:induction false} SumMonotone(a: seq<nat>, b: seq<nat>)
    requires |a| == |b|
    requires forall k :: 0 <= k < |a| ==> a[k] <= b[k]
    ensures Sum(a) <= Sum(b)
  {
    if a != [] {
      SumMonotone(a[..|a| - 1], b[..|b| - 1]);
    }
  }

  /**
   * The borders repeat `table_width - (widths.len() + 1)` characters: that
   * subtraction never underflows, it gives the sum of the columns, and that
   * sum is wide enough for every padded header.
   */
  lemma BorderWidth(headers: seq<string>, data: seq<seq<string>>, padding: nat)
    requires RowsCoverHeaders(headers, data)
    ensures TableWidth(ColumnWidths(headers, data, padding)) >= |headers| + 1
    ensures TableWidth(ColumnWidths(headers, data, padding)) - (|headers| + 1) == Sum(ColumnWidths(headers, data, padding))
    ensures Sum(ColumnWidths(headers, data, padding)) >=
            Sum(seq(|headers|, i requires 0 <= i < |headers| => |headers[i]| + 2 * padding))
  {
    var widths := ColumnWidths(headers, data, padding);
    var least := seq(|headers|, i requires 0 <= i < |headers| => |headers[i]| + 2 * padding);
    forall k | 0 <= k < |headers| ensures least[k] <= widths[k] {
      ColumnWidthIsMax(headers, data, padding, k);
    }
    SumMonotone(least, widths);
  }

  // ---------------------------------------------------------------------------
  // Row selection without wrap-around
  // ---------------------------------------------------------------------------

  /** The row `move_cursor_down` selects: one down, unless on the last row (or past it). */
  function RowDown(row: nat, n: nat): (r: nat)
    requires n > 0
    ensures row < n ==> r < n
    ensures r == row <==> row >= n - 1
    ensures r != row ==> r == row + 1
  {
    if row < n - 1 then row + 1 else row
  }

  /** The row `move_cursor_up` selects: one up, unless on row 0. */
  function RowUp(row: nat): (r: nat)
    ensures r == row <==> row == 0
    ensures r != row ==> r + 1 == row
  {
    if row > 0 then row - 1 else row
  }

  function RowDownTimes(row: nat, n: nat, k: nat): nat
    requires n > 0
    decreases k
  {
    if k == 0 then row else RowDown(RowDownTimes(row, n, k - 1), n)
  }

  /** Moving down clamps at the last row: `k` moves from a row reach `min(row + k, n - 1)`. */
  lemma {:induction false} RowDownTimesClamps(row: nat, n: nat, k: nat)
    requires row < n
    ensures RowDownTimes(row, n, k) == Min(row + k, n - 1)
    decreases k
  {
    if k > 0 {
      RowDownTimesClamps(row, n, k - 1);
    }
  }

  /** From the first row, `n - 1` moves reach the last row and further moves change nothing. */
  lemma DownFromTopReachesBottom(n: nat, extra: nat)
    requires n > 0
    ensures RowDownTimes(0, n, n - 1) == n - 1
    ensures RowDownTimes(0, n, n - 1 + extra) == n - 1
  {
    RowDownTimesClamps(0, n, n - 1);
    RowDownTimesClamps(0, n, n - 1 + extra);
  }

  predicate InWindow(row: nat, offset: nat, visible: nat) {
    offset <= row < offset + visible
  }

  // ---------------------------------------------------------------------------
  // The rows `render` draws
  // ---------------------------------------------------------------------------

  datatype RenderedRow = RenderedRow(index: nat, cells: seq<string>, highlighted: bool)

  /**
   * The rows drawn by `render`: `table_data[offset..min(offset + visible,
   * len)]`, each highlighted when its index is the selected row. The slice
   * needs `offset <= len`.
   */
  function VisibleRows(data: seq<seq<string>>, offset: nat, visible: nat, selected: nat): (rows: seq<RenderedRow>)
    requires offset <= |data|
    ensures |rows| == Min(offset + visible, |data|) - offset
  {
    var end := Min(offset + visible, |data|);
    seq(end - offset, k requires 0 <= k < end - offset =>
      RenderedRow(offset + k, data[offset + k], offset + k == selected))
  }

  /**
   * The drawn rows are the consecutive rows from the offset, with their
   * cells; when the selected row is in the window, it is drawn and is the
   * only highlighted one; otherwise none is.
   */
  lemma VisibleRowsShowSelection(data: seq<seq<string>>, offset: nat, visible: nat, selected: nat)
    requires offset <= |data|
    ensures forall k :: 0 <= k < |VisibleRows(data, offset, visible, selected)| ==>
      VisibleRows(data, offset, visible, selected)[k].index == offset + k &&
      VisibleRows(data, offset, visible, selected)[k].cells == data[offset + k]
    ensures InWindow(selected, offset, visible) && selected < |data| ==>
      selected - offset < |VisibleRows(data, offset, visible, selected)| &&
      VisibleRows(data, offset, visible, selected)[selected - offset].highlighted
    ensures forall k :: 0 <= k < |VisibleRows(data, offset, visible, selected)| ==>
      (VisibleRows(data, offset, visible, selected)[k].highlighted <==> offset + k == selected)
  {
  }

  // ---------------------------------------------------------------------------
  // The widget
  // ---------------------------------------------------------------------------

  class Table {
    var tableHeaders: seq<string>
    var tableData: seq<seq<string>>
    var selectedRow: nat
    var tableWidth: nat
    var padding: nat
    var visibleLines: nat
    var scrollOffset: nat

    /** `calculate_column_widths`: the nested loops over headers and rows. */
    static method CalculateColumnWidths(headers: seq<string>, data: seq<seq<string>>, padding: nat)
      returns (widths: seq<nat>)
      requires RowsCoverHeaders(headers, data)
      ensures widths == ColumnWidths(headers, data, padding)
    {
      var w := new nat[|headers|](_ => 0);
      var i := 0;
      while i < |headers|
        invariant 0 <= i <= |headers|
        invariant forall c :: 0 <= c < i ==> w[c] == ColumnWidth(headers, data, padding, c)
        invariant forall c :: i <= c < |headers| ==> w[c] == 0
      {
        w[i] := Max(w[i], |headers[i]| + 2 * padding);
        var j := 0;
        while j < |data|
          invariant 0 <= j <= |data|
          invariant forall c :: 0 <= c < i ==> w[c] == ColumnWidth(headers, data, padding, c)
          invariant forall c :: i < c < |headers| ==> w[c] == 0
          invariant w[i] == CellMax(data, i, padding, j, |headers[i]| + 2 * padding)
        {
          if |data[j][i]| + 2 * padding > w[i] {
            w[i] := |data[j][i]| + 2 * padding;
          }
          j := j + 1;
        }
        i := i + 1;
      }
      widths := w[..];
    }

    /** `Table::new`: the width is computed from the columns; the offset starts at 0. */
    constructor (headers: seq<string>, data: seq<seq<string>>, selectedRow: nat, padding: nat, visibleLines: nat)
      requires RowsCoverHeaders(headers, data)
      ensures tableHeaders == headers && tableData == data && this.selectedRow == selectedRow
      ensures this.padding == padding && this.visibleLines == visibleLines && scrollOffset == 0
      ensures tableWidth == TableWidth(ColumnWidths(headers, data, padding))
    {
      var widths := CalculateColumnWidths(headers, data, padding);
      tableWidth := Sum(widths) + |widths| + 1;
      tableHeaders := headers;
      tableData := data;
      this.selectedRow := selectedRow;
      this.padding := padding;
      this.visibleLines := visibleLines;
      scrollOffset := 0;
    }

    ghost predicate SelectionVisible()
      reads this
    {
      InWindow(selectedRow, scrollOffset, visibleLines)
    }

    /** `move_cursor_down`: one row down unless on the last, scrolling by one when it leaves the window. */
    method MoveCursorDown()
      requires |tableData| > 0
      modifies this`selectedRow, this`scrollOffset
      ensures selectedRow == RowDown(old(selectedRow), |tableData|)
      ensures scrollOffset == if selectedRow != old(selectedRow) && selectedRow >= old(scrollOffset) + visibleLines
                              then old(scrollOffset) + 1 else old(scrollOffset)
      ensures old(SelectionVisible()) ==> SelectionVisible()
    {
      if selectedRow < |tableData| - 1 {
        selectedRow := selectedRow + 1;
        if selectedRow >= scrollOffset + visibleLines {
          scrollOffset := scrollOffset + 1;
        }
      }
    }

    /** `move_cursor_up`: one row up unless on row 0, scrolling by one when it leaves the window. */
    method MoveCursorUp()
      modifies this`selectedRow, this`scrollOffset
      ensures selectedRow == RowUp(old(selectedRow))
      ensures scrollOffset == if selectedRow != old(selectedRow) && selectedRow < old(scrollOffset)
                              then old(scrollOffset) - 1 else old(scrollOffset)
      ensures old(SelectionVisible()) ==> SelectionVisible()
    {
      if selectedRow > 0 {
        selectedRow := selectedRow - 1;
        if selectedRow < scrollOffset {
          scrollOffset := scrollOffset - 1;
        }
      }
    }
  }
}
