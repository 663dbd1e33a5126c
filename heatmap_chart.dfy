/**
  The cell list the heatmap chart is drawn from: for each date row `y` and
  each hour column `x`, in that order, one cell `{x: hours[x], y: dates[y],
  v: data[y][x] || 0}`. The chart's colour scale and geometry are
  floating-point rendering and are not modelled.

  The dashboards pass the matrix of the `Heatmap` module, whose rows are
  hours and whose columns are dates, while the chart reads `data[y][x]`
  with `y` a date: see `ChartMisplacesCounts` and
  `CorrectedChartShowsCounts`.
 */
module HeatmapChart {
  import opened UserTypes
  import Heatmap

  datatype Cell = Cell(x: string, y: string, v: int)

  /** `data[r][c] || 0`: a missing entry reads as 0 (and so does a stored 0). */
  function ValueAt(data: seq<seq<int>>, r: int, c: int): int {
    if 0 <= r < |data| && 0 <= c < |data[r]| then data[r][c] else 0
  }

  /**
    The value shown at date `y`, hour `x`. As written (`hourRows` false) the
    chart reads `data[y][x]`; with `hourRows` it reads `data[x][y]`, the
    layout the dashboards actually build.
   */
  function CellValue(data: seq<seq<int>>, y: int, x: int, hourRows: bool): int {
    if hourRows then ValueAt(data, x, y) else ValueAt(data, y, x)
  }

  function RowCells(data: seq<seq<int>>, dates: seq<string>, hours: seq<string>, y: nat, hourRows: bool): seq<Cell>
    requires y < |dates|
  {
    seq(|hours|, x requires 0 <= x < |hours| => Cell(hours[x], dates[y], CellValue(data, y, x, hourRows)))
  }

  /** The cells of the first `n` date rows, row after row. */
  function Flattened(data: seq<seq<int>>, dates: seq<string>, hours: seq<string>, n: nat, hourRows: bool): seq<Cell>
    requires n <= |dates|
  {
    if n == 0 then [] else Flattened(data, dates, hours, n - 1, hourRows) + RowCells(data, dates, hours, n - 1, hourRows)
  }

  /**
    The nested loops of the chart's effect, pushing one cell per (date, hour).
    `data[y]` must exist for every date row: otherwise `data[y][x]` throws.
   */
  method Flatten(data: seq<seq<int>>, dates: seq<string>, hours: seq<string>) returns (cells: seq<Cell>)
    requires |dates| <= |data|
    ensures cells == Flattened(data, dates, hours, |dates|, false)
  {
    cells := [];
    var y := 0;
    while y < |dates|
      invariant 0 <= y <= |dates|
      invariant cells == Flattened(data, dates, hours, y, false)
    {
      var x := 0;
      while x < |hours|
        invariant 0 <= x <= |hours|
        invariant cells == Flattened(data, dates, hours, y, false) + RowCells(data, dates, hours, y, false)[..x]
      {
        var value := if x < |data[y]| then data[y][x] else 0;
        assert RowCells(data, dates, hours, y, false)[..x + 1]
            == RowCells(data, dates, hours, y, false)[..x] + [Cell(hours[x], dates[y], value)];
        cells := cells + [Cell(hours[x], dates[y], value)];
        x := x + 1;
      }
      assert RowCells(data, dates, hours, y, false)[..|hours|] == RowCells(data, dates, hours, y, false);
      y := y + 1;
    }
  }

  lemma {:induction false} FlattenedLength(data: seq<seq<int>>, dates: seq<string>, hours: seq<string>, n: nat, hourRows: bool)
    requires n <= |dates|
    ensures |Flattened(data, dates, hours, n, hourRows)| == n * |hours|
  {
    if n > 0 {
      FlattenedLength(data, dates, hours, n - 1, hourRows);
      assert (n - 1) * |hours| + |hours| == n * |hours|;
    }
  }

  lemma MulStep(y: nat, n: nat, k: nat)
    requires y < n
    ensures (y + 1) * k <= n * k
  {
  }

  /**
    The flattened list holds `|dates| * |hours|` cells in row-major order:
    the cell at `y * |hours| + x` is hour `hours[x]` of date `dates[y]`.
   */
  lemma {:induction false} FlattenedAt(data: seq<seq<int>>, dates: seq<string>, hours: seq<string>, n: nat, hourRows: bool, y: nat, x: nat)
    requires n <= |dates| && y < n && x < |hours|
    ensures |Flattened(data, dates, hours, n, hourRows)| == n * |hours|
    ensures y * |hours| + x < n * |hours|
    ensures Flattened(data, dates, hours, n, hourRows)[y * |hours| + x]
         == Cell(hours[x], dates[y], CellValue(data, y, x, hourRows))
  {
    FlattenedLength(data, dates, hours, n, hourRows);
    FlattenedLength(data, dates, hours, n - 1, hourRows);
    MulStep(y, n, |hours|);
    if y == n - 1 {
      assert (n - 1) * |hours| + x == y * |hours| + x;
    } else {
      FlattenedAt(data, dates, hours, n - 1, hourRows, y, x);
    }
  }

  /** No flattened value is negative when no entry of `data` is. */
  lemma {:induction false} FlattenedNonNegative(data: seq<seq<int>>, dates: seq<string>, hours: seq<string>, n: nat, hourRows: bool)
    requires n <= |dates|
    requires forall r, c :: 0 <= r < |data| && 0 <= c < |data[r]| ==> data[r][c] >= 0
    ensures forall i :: 0 <= i < |Flattened(data, dates, hours, n, hourRows)| ==>
      Flattened(data, dates, hours, n, hourRows)[i].v >= 0
  {
    if n > 0 {
      FlattenedNonNegative(data, dates, hours, n - 1, hourRows);
    }
  }

  function AsInts(m: seq<seq<nat>>): seq<seq<int>> {
    seq(|m|, r requires 0 <= r < |m| => seq(|m[r]|, c requires 0 <= c < |m[r]| => m[r][c] as int))
  }

  /**
    As written, the chart shows 0 for a date's hour 10 although a visitor
    came then: the hour indexes the 7-entry inner array of a date row.
   */
  lemma ChartMisplacesCounts(v: Visitor, dates: seq<string>)
    requires |dates| == Heatmap.DayColumns
    requires v.timestamp.date == dates[0] && v.timestamp.hour == 10
    ensures Heatmap.Counts([v], dates)[10][0] == 1
    ensures CellValue(AsInts(Heatmap.Counts([v], dates)), 0, 10, false) == 0
  {
    assert [v][..0] == [];
    assert Heatmap.IndexOf(dates, dates[0]) == 0;
    assert Heatmap.Tally([v], dates, 10, 0) == 1;
  }

  /**
    Corrected: reading `data[x][y]`, the cell of date `dates[y]` and hour
    `hours[x]` shows the number of visitors that came at hour `x` on the
    `y`-th date of the window.
   */
  lemma CorrectedChartShowsCounts(vs: seq<Visitor>, dates: seq<string>, hours: seq<string>, y: nat, x: nat)
    requires |dates| == Heatmap.DayColumns && |hours| == Heatmap.HourRows
    requires y < |dates| && x < |hours|
    ensures y * |hours| + x < |Flattened(AsInts(Heatmap.Counts(vs, dates)), dates, hours, |dates|, true)|
    ensures Flattened(AsInts(Heatmap.Counts(vs, dates)), dates, hours, |dates|, true)[y * |hours| + x]
         == Cell(hours[x], dates[y], Heatmap.Tally(vs, dates, x, y))
  {
    FlattenedAt(AsInts(Heatmap.Counts(vs, dates)), dates, hours, |dates|, true, y, x);
  }
}
