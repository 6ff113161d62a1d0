/**
 * The random player of the array-board generation: it reads an 8 x 8 grid of
 * available squares, draws an index below the number of available squares, and
 * plays the available square with that many available squares before it, scanning
 * column by column (x outer) and top to bottom (y inner). The draw is a parameter.
 */
module GridPlayer {
  import opened Wrappers
  import ArrayBoard

  const CannotPut: string := "Can't put stone"

  /** An availability grid: 8 rows of 8 cells; row y, column x is grid[y][x]. */
  predicate IsGrid(grid: seq<seq<bool>>) {
    |grid| == 8 && forall y :: 0 <= y < 8 ==> |grid[y]| == 8
  }

  /** The true cells of a row. */
  function RowCount(row: seq<bool>): nat {
    if |row| == 0 then 0 else RowCount(row[..|row| - 1]) + (if row[|row| - 1] then 1 else 0)
  }

  /** The true cells of rows 0 .. h-1, columns 0 .. w-1, counted row by row. */
  function Block(grid: seq<seq<bool>>, h: nat, w: nat): nat
    requires IsGrid(grid) && h <= 8 && w <= 8
  {
    if h == 0 then 0 else Block(grid, h - 1, w) + RowCount(grid[h - 1][..w])
  }

  /** `iter().flatten().filter(..).count()`: every true cell, row after row. */
  function CountTrue(grid: seq<seq<bool>>): nat
    requires IsGrid(grid)
  {
    Block(grid, 8, 8)
  }

  /** The true cells of column x among rows 0 .. h-1. */
  function ColumnCount(grid: seq<seq<bool>>, x: nat, h: nat): nat
    requires IsGrid(grid) && x < 8 && h <= 8
  {
    if h == 0 then 0 else ColumnCount(grid, x, h - 1) + (if grid[h - 1][x] then 1 else 0)
  }

  /** The true cells of columns 0 .. w-1 among rows 0 .. h-1, counted column by column. */
  function Columns(grid: seq<seq<bool>>, h: nat, w: nat): nat
    requires IsGrid(grid) && h <= 8 && w <= 8
  {
    if w == 0 then 0 else Columns(grid, h, w - 1) + ColumnCount(grid, w - 1, h)
  }

  /** The true cells the scan passes before it reaches (x, y). */
  function CellsBefore(grid: seq<seq<bool>>, x: nat, y: nat): nat
    requires IsGrid(grid) && x < 8 && y <= 8
  {
    Columns(grid, 8, x) + ColumnCount(grid, x, y)
  }

  /** Counting one more row column by column adds that row's cells. */
  lemma {:induction false} AddRow(grid: seq<seq<bool>>, h: nat, w: nat)
    requires IsGrid(grid) && 0 < h <= 8 && w <= 8
    ensures Columns(grid, h, w) == Columns(grid, h - 1, w) + RowCount(grid[h - 1][..w])
  {
    if w > 0 {
      AddRow(grid, h, w - 1);
      assert grid[h - 1][..w][..w - 1] == grid[h - 1][..w - 1];
    }
  }

  /** Counting row by row and column by column give the same number. */
  lemma {:induction false} Swap(grid: seq<seq<bool>>, h: nat, w: nat)
    requires IsGrid(grid) && h <= 8 && w <= 8
    ensures Block(grid, h, w) == Columns(grid, h, w)
  {
    if h > 0 {
      Swap(grid, h - 1, w);
      AddRow(grid, h, w);
    } else {
      ColumnsEmpty(grid, w);
    }
  }

  lemma {:induction false} ColumnsEmpty(grid: seq<seq<bool>>, w: nat)
    requires IsGrid(grid) && w <= 8
    ensures Columns(grid, 0, w) == 0
  {
    if w > 0 {
      ColumnsEmpty(grid, w - 1);
    }
  }

  lemma {:induction false} ColumnMono(grid: seq<seq<bool>>, x: nat, h: nat, k: nat)
    requires IsGrid(grid) && x < 8 && h <= k <= 8
    ensures ColumnCount(grid, x, h) <= ColumnCount(grid, x, k)
    decreases k
  {
    if h < k {
      ColumnMono(grid, x, h, k - 1);
    }
  }

  lemma {:induction false} ColumnsMono(grid: seq<seq<bool>>, w: nat, v: nat)
    requires IsGrid(grid) && w <= v <= 8
    ensures Columns(grid, 8, w) <= Columns(grid, 8, v)
    decreases v
  {
    if w < v {
      ColumnsMono(grid, w, v - 1);
    }
  }

  /** Every available square is picked by one of the draws 0 .. n-1. */
  lemma EveryCellDrawn(grid: seq<seq<bool>>, x: nat, y: nat)
    requires IsGrid(grid) && x < 8 && y < 8 && grid[y][x]
    ensures CellsBefore(grid, x, y) < CountTrue(grid)
  {
    ColumnMono(grid, x, y + 1, 8);
    ColumnsMono(grid, x + 1, 8);
    Swap(grid, 8, 8);
  }

  class Player {
    /** The colour this player plays. */
    const stone: ArrayBoard.Stone

    constructor(stone: ArrayBoard.Stone)
      ensures Colour() == stone
    {
      this.stone := stone;
    }

    /** `stone()`. */
    function Colour(): ArrayBoard.Stone {
      stone
    }

    /**
     * `find_move` on the grid of available squares: no available square is an error;
     * otherwise the square (x, y) that the draw picks in the column-by-column scan.
     */
    method FindMove(available: seq<seq<bool>>, draw: nat) returns (r: Result<(nat, nat), string>)
      requires IsGrid(available)
      requires CountTrue(available) == 0 || draw < CountTrue(available)
      ensures r.Err? <==> CountTrue(available) == 0
      ensures r.Err? ==> r.error == CannotPut
      ensures r.Ok? ==> r.value.0 < 8 && r.value.1 < 8 && available[r.value.1][r.value.0]
      ensures r.Ok? ==> CellsBefore(available, r.value.0, r.value.1) == draw
    {
      var n := CountTrue(available);
      if n == 0 {
        return Err(CannotPut);
      }
      var idx: nat := draw;
      for i := 0 to 8
        invariant idx + Columns(available, 8, i) == draw
      {
        for j := 0 to 8
          invariant idx + Columns(available, 8, i) + ColumnCount(available, i, j) == draw
        {
          if available[j][i] {
            if idx == 0 {
              return Ok((i, j));
            } else {
              idx := idx - 1;
            }
          }
        }
      }
      Swap(available, 8, 8);
      assert false;
    }
  }
}
