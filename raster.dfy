/**
 * The grid rasteriser of main.py (`draw_plot`): sensor row x, column y of the
 * reading grid becomes the 10-pixel block with corners (10x, 10y) and
 * (10x + 10, 10y + 10), painted in row-major order.  The row index runs along
 * the horizontal axis.  `PlotOps` is the log the nested loops append.
 */
module Raster {
  import opened ColorMap
  import opened Canvas

  /** Sensor resolution (`mlx_shape`) and block size used by the drawing loop. */
  const Rows := 24
  const Cols := 32
  const Block := 10

  function Min(a: int, b: int): int { if a <= b then a else b }

  function Max(a: int, b: int): int { if a >= b then a else b }

  function CellRect(x: int, y: int): (r: Rect)
    ensures r.x1 - r.x0 == Block && r.y1 - r.y0 == Block
  {
    Rect(x * Block, y * Block, x * Block + Block, y * Block + Block)
  }

  /** The fills for cells 0 .. n-1 of row x, in loop order. */
  function RowOps(row: seq<real>, x: int, n: nat, minTemp: int, maxTemp: int): (ops: seq<Op>)
    requires n <= |row| && maxTemp != minTemp
    ensures |ops| == n
  {
    if n == 0 then []
    else RowOps(row, x, n - 1, minTemp, maxTemp)
         + [Fill(CellRect(x, n - 1), ColorForTemp(row[n - 1], minTemp, maxTemp))]
  }

  /** Entry y of row x's fills is the block of cell (x, y) in the colour of its reading. */
  lemma {:induction false} RowAt(row: seq<real>, x: int, n: nat, minTemp: int, maxTemp: int, y: int)
    requires n <= |row| && maxTemp != minTemp && 0 <= y < n
    ensures RowOps(row, x, n, minTemp, maxTemp)[y] ==
      Fill(CellRect(x, y), ColorForTemp(row[y], minTemp, maxTemp))
  {
    if y < n - 1 {
      RowAt(row, x, n - 1, minTemp, maxTemp, y);
    }
  }

  /** The fills for rows 0 .. n-1 of the grid, each row complete, in loop order. */
  function PlotOps(grid: seq<seq<real>>, n: nat, minTemp: int, maxTemp: int): seq<Op>
    requires n <= |grid| && maxTemp != minTemp
  {
    if n == 0 then []
    else PlotOps(grid, n - 1, minTemp, maxTemp)
         + RowOps(grid[n - 1], n - 1, |grid[n - 1]|, minTemp, maxTemp)
  }

  /** `op` fills a rectangle inside [0, w] x [0, h]. */
  predicate FillsWithin(op: Op, w: int, h: int)
  {
    op.Fill? && 0 <= op.rect.x0 && op.rect.x1 <= w && 0 <= op.rect.y0 && op.rect.y1 <= h
  }

  predicate IsRectangular(grid: seq<seq<real>>, cols: nat)
  {
    forall x :: 0 <= x < |grid| ==> |grid[x]| == cols
  }

  lemma MulStep(x: int, n: int, c: int, y: int)
    requires 0 <= x < n && 0 <= y < c
    ensures 0 <= x * c + y < n * c
    ensures x * c + y < (n - 1) * c ==> x < n - 1
  {
    assert x * c <= (n - 1) * c;
    assert (n - 1) * c + c == n * c;
    if x == n - 1 {
      assert x * c + y >= (n - 1) * c;
    }
  }

  /** On a grid of rows of `cols` readings, n rows paint n * cols blocks. */
  lemma {:induction false} PlotLength(grid: seq<seq<real>>, cols: nat, n: nat, minTemp: int, maxTemp: int)
    requires n <= |grid| && maxTemp != minTemp && IsRectangular(grid, cols)
    ensures |PlotOps(grid, n, minTemp, maxTemp)| == n * cols
  {
    if n > 0 {
      PlotLength(grid, cols, n - 1, minTemp, maxTemp);
      assert (n - 1) * cols + cols == n * cols;
    }
  }

  /** The block at position x * cols + y of the plot log is cell (x, y): row-major order. */
  lemma {:induction false} PlotCellAt(grid: seq<seq<real>>, cols: nat, n: nat, minTemp: int, maxTemp: int, x: int, y: int)
    requires n <= |grid| && maxTemp != minTemp && IsRectangular(grid, cols)
    requires 0 <= x < n && 0 <= y < cols
    ensures x * cols + y < |PlotOps(grid, n, minTemp, maxTemp)|
    ensures PlotOps(grid, n, minTemp, maxTemp)[x * cols + y] ==
      Fill(CellRect(x, y), ColorForTemp(grid[x][y], minTemp, maxTemp))
  {
    var prev := PlotOps(grid, n - 1, minTemp, maxTemp);
    var row := RowOps(grid[n - 1], n - 1, cols, minTemp, maxTemp);
    assert PlotOps(grid, n, minTemp, maxTemp) == prev + row;
    PlotLength(grid, cols, n - 1, minTemp, maxTemp);
    ConcatAt(prev, row, x, n, cols, y);
    if x < n - 1 {
      PlotCellAt(grid, cols, n - 1, minTemp, maxTemp, x, y);
    } else {
      RowAt(grid[n - 1], n - 1, cols, minTemp, maxTemp, y);
    }
  }

  /** Position x * c + y of n rows of c entries each, the last row appended. */
  lemma ConcatAt(prev: seq<Op>, row: seq<Op>, x: int, n: int, c: int, y: int)
    requires 0 <= x < n && 0 <= y < c && |prev| == (n - 1) * c && |row| == c
    ensures 0 <= x * c + y < |prev + row|
    ensures x < n - 1 ==> x * c + y < |prev| && (prev + row)[x * c + y] == prev[x * c + y]
    ensures x == n - 1 ==> (prev + row)[x * c + y] == row[y]
  {
    var i := x * c + y;
    MulStep(x, n, c, y);
    assert |prev + row| == n * c by {
      assert (n - 1) * c + c == n * c;
    }
    if x < n - 1 {
      MulStep(x, n - 1, c, y);
      assert i < |prev|;
    } else {
      assert x * c == (n - 1) * c;
      assert i - |prev| == y;
    }
  }

  /** Every block of the plot lies inside [0, 10 n] x [0, 10 cols]. */
  lemma {:induction false} PlotBounds(grid: seq<seq<real>>, cols: nat, n: nat, minTemp: int, maxTemp: int)
    requires n <= |grid| && maxTemp != minTemp && IsRectangular(grid, cols)
    ensures forall i :: 0 <= i < |PlotOps(grid, n, minTemp, maxTemp)| ==>
      FillsWithin(PlotOps(grid, n, minTemp, maxTemp)[i], Block * n, Block * cols)
  {
    if n > 0 {
      PlotBounds(grid, cols, n - 1, minTemp, maxTemp);
      var prev := PlotOps(grid, n - 1, minTemp, maxTemp);
      var row := RowOps(grid[n - 1], n - 1, cols, minTemp, maxTemp);
      assert PlotOps(grid, n, minTemp, maxTemp) == prev + row;
      forall i | 0 <= i < |prev + row|
        ensures FillsWithin((prev + row)[i], Block * n, Block * cols)
      {
        if i >= |prev| {
          assert (prev + row)[i] == row[i - |prev|];
          RowAt(grid[n - 1], n - 1, cols, minTemp, maxTemp, i - |prev|);
        }
      }
    }
  }

  /** Within row x's strip, pixel (px, py) shows the last block of the row over it. */
  lemma {:induction false} RowVisible(row: seq<real>, x: int, n: nat, minTemp: int, maxTemp: int, px: int, py: int)
    requires 1 <= n <= |row| && maxTemp != minTemp
    requires Block * x <= px <= Block * x + Block && 0 <= py <= Block * n
    ensures Visible(RowOps(row, x, n, minTemp, maxTemp), px, py) ==
      Some(ColorForTemp(row[Min(py / Block, n - 1)], minTemp, maxTemp))
  {
    var ops := RowOps(row, x, n, minTemp, maxTemp);
    var prev := RowOps(row, x, n - 1, minTemp, maxTemp);
    assert ops == prev + [ops[n - 1]];
    assert ops[..|ops| - 1] == prev;
    if py < Block * (n - 1) {
      RowVisible(row, x, n - 1, minTemp, maxTemp, px, py);
    }
  }

  /**
   * Pixel (px, py) of the plotted region [0, 10 n] x [0, 10 cols] shows the
   * colour of cell (px / 10, py / 10), the last row and column also owning
   * the closing edge: every pixel is painted, by exactly the cell the later
   * block of the row-major order assigns it.
   */
  lemma {:induction false} PlotVisible(grid: seq<seq<real>>, cols: nat, n: nat, minTemp: int, maxTemp: int, px: int, py: int)
    requires 1 <= n <= |grid| && 1 <= cols && maxTemp != minTemp && IsRectangular(grid, cols)
    requires 0 <= px <= Block * n && 0 <= py <= Block * cols
    ensures Visible(PlotOps(grid, n, minTemp, maxTemp), px, py) ==
      Some(ColorForTemp(grid[Min(px / Block, n - 1)][Min(py / Block, cols - 1)], minTemp, maxTemp))
  {
    var prev := PlotOps(grid, n - 1, minTemp, maxTemp);
    var row := RowOps(grid[n - 1], n - 1, cols, minTemp, maxTemp);
    assert PlotOps(grid, n, minTemp, maxTemp) == prev + row;
    VisibleAppend(prev, row, px, py);
    if px >= Block * (n - 1) {
      RowVisible(grid[n - 1], n - 1, cols, minTemp, maxTemp, px, py);
      assert Min(px / Block, n - 1) == n - 1;
    } else {
      assert px / Block < n - 1;
      RowMisses(grid[n - 1], n - 1, cols, minTemp, maxTemp, px, py);
      PlotVisible(grid, cols, n - 1, minTemp, maxTemp, px, py);
    }
  }

  /** A row paints nothing outside its own vertical strip. */
  lemma {:induction false} RowMisses(row: seq<real>, x: int, n: nat, minTemp: int, maxTemp: int, px: int, py: int)
    requires n <= |row| && maxTemp != minTemp
    requires px < Block * x || px > Block * x + Block
    ensures Visible(RowOps(row, x, n, minTemp, maxTemp), px, py) == None
  {
    if n > 0 {
      var ops := RowOps(row, x, n, minTemp, maxTemp);
      assert ops[..|ops| - 1] == RowOps(row, x, n - 1, minTemp, maxTemp);
      RowMisses(row, x, n - 1, minTemp, maxTemp, px, py);
    }
  }

  /**
   * Drawing a plot over any earlier canvas leaves no stale pixel in the
   * plotted region, and leaves every pixel outside it as it was.
   */
  lemma PlotHidesEarlier(before: seq<Op>, grid: seq<seq<real>>, cols: nat, minTemp: int, maxTemp: int, px: int, py: int)
    requires 1 <= |grid| && 1 <= cols && maxTemp != minTemp && IsRectangular(grid, cols)
    ensures var plot := PlotOps(grid, |grid|, minTemp, maxTemp);
      if 0 <= px <= Block * |grid| && 0 <= py <= Block * cols
      then Visible(before + plot, px, py) == Visible(plot, px, py)
      else Visible(before + plot, px, py) == Visible(before, px, py)
  {
    var plot := PlotOps(grid, |grid|, minTemp, maxTemp);
    VisibleAppend(before, plot, px, py);
    if 0 <= px <= Block * |grid| && 0 <= py <= Block * cols {
      PlotVisible(grid, cols, |grid|, minTemp, maxTemp, px, py);
    } else {
      PlotBounds(grid, cols, |grid|, minTemp, maxTemp);
    }
  }
}
