/** `define_blocks` of the main game: turning a level's grid of cells into
    bricks, row by row, centred on the screen. */
module Layout {
  import opened Geometry
  import opened Palette
  import opened Levels
  import opened Bricks

  const BlockWidth: int := 60
  const BlockHeight: int := 25
  const BlockSpace: int := 10
  const BricksTop: int := 140
  /** Columns of the debug level's single row. */
  const DebugColumns: int := 16

  /** The integer `0` of a grid: no brick. */
  predicate IsZero(cell: Cell)
  {
    cell.Empty? || (cell.Plain? && cell.kind == 0)
  }

  /** Level 0, the debug level: one row of 16 with a brick in column 8, and
      also in column 7 in the countdown debug mode. */
  function DebugRow(countdown: bool): (row: seq<Cell>)
    ensures |row| == DebugColumns
    ensures forall c :: 0 <= c < |row| ==>
      (!IsZero(row[c]) <==> c == 8 || (countdown && c == 7))
  {
    var half := DebugColumns / 2;
    seq(DebugColumns, c requires 0 <= c < DebugColumns =>
      if c == half || (countdown && c == half - 1) then Plain(1) else E)
  }

  /** The grid `define_blocks` lays out for a level number. */
  function LevelLayout(level: int, countdown: bool): seq<seq<Cell>>
  {
    if level == 0 then [DebugRow(countdown)] else LevelPattern(level)
  }

  /** Left edge of the first column: the row of `cols` bricks and gaps is
      centred on the screen (floor division). */
  function LeftOffset(cols: int): int
  {
    (ScreenWidth - (cols * BlockWidth + (cols - 1) * BlockSpace)) / 2
  }

  /** The brick for a non-zero cell at row `r`, column `c`: plain cells take
      the row's colour, pairs their own colour index; type-2 squares are
      shifted to sit centred on the grid slot. */
  function BrickAt(cell: Cell, r: nat, c: nat, left: int, squareArt: bool): (b: Brick)
    requires !IsZero(cell)
    ensures cell.Plain? ==> b.color == Colors[r % 7] && b.kind == cell.kind
    ensures cell.Styled? ==> b.color == Colors[cell.color % 7] && b.kind == cell.kind
    ensures b.kind == 2 ==> b.rect == Rect(left + c * 70 + 12, BricksTop + 35 * r - 5, 35, 35)
    ensures b.kind != 2 ==> b.rect == Rect(left + c * 70, BricksTop + 35 * r, BlockWidth, BlockHeight)
    ensures ValidHp(b)
  {
    var x := left + c * (BlockWidth + BlockSpace);
    var y := BricksTop + BlockHeight * r + BlockSpace * r;
    var kind := if cell.Plain? then cell.kind else cell.kind;
    var color := if cell.Plain? then Colors[r % |Colors|] else Colors[cell.color % |Colors|];
    if kind == 2 then NewBrick(x + (BlockWidth - 35) / 2, y + (BlockHeight - 35) / 2, color, kind, squareArt)
    else NewBrick(x, y, color, kind, squareArt)
  }

  /** Bricks of the first `|row|` cells of row `r`, in column order. */
  function RowBricks(row: seq<Cell>, r: nat, left: int, squareArt: bool): seq<Brick>
  {
    if row == [] then []
    else
      var c := |row| - 1;
      RowBricks(row[..c], r, left, squareArt) +
      (if IsZero(row[c]) then [] else [BrickAt(row[c], r, c, left, squareArt)])
  }

  /** Bricks of all the given rows, in row-major order. */
  function RowsBricks(rows: seq<seq<Cell>>, left: int, squareArt: bool): seq<Brick>
  {
    if rows == [] then []
    else
      var r := |rows| - 1;
      RowsBricks(rows[..r], left, squareArt) + RowBricks(rows[r], r, left, squareArt)
  }

  /** What `define_blocks` returns for a grid: nothing for an empty grid,
      otherwise the bricks of every row with the offset from the first
      row's width. */
  function Placed(layout: seq<seq<Cell>>, squareArt: bool): seq<Brick>
  {
    if layout == [] then [] else RowsBricks(layout, LeftOffset(|layout[0]|), squareArt)
  }

  /** `define_blocks`: lays out the level's grid. */
  method DefineBlocks(level: int, countdown: bool, squareArt: bool) returns (blocks: seq<Brick>)
    ensures blocks == Placed(LevelLayout(level, countdown), squareArt)
  {
    var layout := LevelLayout(level, countdown);
    blocks := PlaceBlocks(layout, squareArt);
  }

  /** The placement loops of `define_blocks`: row by row and cell by cell,
      skipping zeros and appending a brick for everything else. */
  method PlaceBlocks(layout: seq<seq<Cell>>, squareArt: bool) returns (blocks: seq<Brick>)
    ensures blocks == Placed(layout, squareArt)
  {
    blocks := [];
    if layout == [] {
      return;
    }
    var left := LeftOffset(|layout[0]|);
    var r := 0;
    while r < |layout|
      invariant 0 <= r <= |layout|
      invariant blocks == RowsBricks(layout[..r], left, squareArt)
    {
      var row := layout[r];
      var c := 0;
      var rowBlocks: seq<Brick> := [];
      while c < |row|
        invariant 0 <= c <= |row|
        invariant rowBlocks == RowBricks(row[..c], r, left, squareArt)
      {
        assert row[..c + 1][..c] == row[..c];
        if !IsZero(row[c]) {
          rowBlocks := rowBlocks + [BrickAt(row[c], r, c, left, squareArt)];
        }
        c := c + 1;
      }
      assert row[..c] == row;
      assert layout[..r + 1][..r] == layout[..r];
      blocks := blocks + rowBlocks;
      r := r + 1;
    }
    assert layout[..r] == layout;
  }

  /** Number of non-zero cells in a row. */
  function NonZero(row: seq<Cell>): nat
  {
    if row == [] then 0 else NonZero(row[..|row| - 1]) + (if IsZero(row[|row| - 1]) then 0 else 1)
  }

  /** Number of non-zero cells in a grid. */
  function NonZeroRows(rows: seq<seq<Cell>>): nat
  {
    if rows == [] then 0 else NonZeroRows(rows[..|rows| - 1]) + NonZero(rows[|rows| - 1])
  }

  /** A row yields one brick per non-zero cell, and the brick of cell `c`
      comes after exactly the bricks of the non-zero cells before it. */
  lemma {:induction false} RowBricksIndex(row: seq<Cell>, r: nat, left: int, squareArt: bool, c: nat)
    ensures |RowBricks(row, r, left, squareArt)| == NonZero(row)
    ensures c < |row| && !IsZero(row[c]) ==>
      NonZero(row[..c]) < NonZero(row) &&
      RowBricks(row, r, left, squareArt)[NonZero(row[..c])] == BrickAt(row[c], r, c, left, squareArt)
  {
    if row != [] {
      var n := |row| - 1;
      var init := row[..n];
      RowBricksIndex(init, r, left, squareArt, c);
      if c < n {
        assert init[..c] == row[..c];
      } else if c == n {
        assert init == row[..c];
      }
    }
  }

  /** The grid yields one brick per non-zero cell, in row-major order: the
      brick of cell (`r`, `c`) follows exactly the bricks of the non-zero
      cells of earlier rows and of earlier columns of its own row. */
  lemma {:induction false} RowsBricksIndex(rows: seq<seq<Cell>>, left: int, squareArt: bool, r: nat, c: nat)
    ensures |RowsBricks(rows, left, squareArt)| == NonZeroRows(rows)
    ensures r < |rows| && c < |rows[r]| && !IsZero(rows[r][c]) ==>
      NonZeroRows(rows[..r]) + NonZero(rows[r][..c]) < NonZeroRows(rows) &&
      RowsBricks(rows, left, squareArt)[NonZeroRows(rows[..r]) + NonZero(rows[r][..c])] ==
        BrickAt(rows[r][c], r, c, left, squareArt)
  {
    if rows != [] {
      var n := |rows| - 1;
      var init := rows[..n];
      RowsBricksIndex(init, left, squareArt, r, c);
      RowBricksIndex(rows[n], n, left, squareArt, c);
      if r < n {
        assert init[..r] == rows[..r];
        assert init[r] == rows[r];
        NonZeroRowsPrefix(rows, r);
      } else if r == n {
        assert init == rows[..r];
      }
    }
  }

  /** Counting non-zero cells over a prefix of the rows never exceeds the
      count over all of them. */
  lemma {:induction false} NonZeroRowsPrefix(rows: seq<seq<Cell>>, k: nat)
    requires k <= |rows|
    ensures NonZeroRows(rows[..k]) <= NonZeroRows(rows)
    decreases |rows|
  {
    if k < |rows| {
      var n := |rows| - 1;
      assert rows[..n][..k] == rows[..k];
      NonZeroRowsPrefix(rows[..n], k);
    } else {
      assert rows[..k] == rows;
    }
  }

  /** An empty grid gives no bricks. */
  lemma EmptyLayoutNoBricks(squareArt: bool)
    ensures Placed([], squareArt) == []
  {
  }

  /** The one-block debug level: the row of 16 is centred with a left
      offset of 45, so its single brick sits at x = 605 on the top row; the
      countdown debug level adds the brick to its left. */
  lemma DebugLevelBricks(squareArt: bool)
    ensures Placed(LevelLayout(0, false), squareArt) ==
      [NewBrick(605, BricksTop, Colors[0], 1, squareArt)]
    ensures Placed(LevelLayout(0, true), squareArt) ==
      [NewBrick(535, BricksTop, Colors[0], 1, squareArt), NewBrick(605, BricksTop, Colors[0], 1, squareArt)]
  {
    assert LeftOffset(DebugColumns) == 45;
    var row0 := DebugRow(false);
    var row1 := DebugRow(true);
    RowsBricksIndex([row0], 45, squareArt, 0, 8);
    RowsBricksIndex([row1], 45, squareArt, 0, 7);
    RowsBricksIndex([row1], 45, squareArt, 0, 8);
    NonZeroDebug(row0, false);
    NonZeroDebug(row1, true);
    assert [row0][..0] == [] && [row1][..0] == [];
  }

  /** Counts of non-zero cells in prefixes of the debug row. */
  lemma NonZeroDebug(row: seq<Cell>, countdown: bool)
    requires row == DebugRow(countdown)
    ensures NonZero(row[..7]) == 0 && NonZero(row[..8]) == (if countdown then 1 else 0)
    ensures NonZero(row) == (if countdown then 2 else 1)
  {
    NonZeroZeros(row, 7);
    assert row[..8][..7] == row[..7];
    assert row[..9][..8] == row[..8];
    var k := 9;
    while k < 16
      invariant 9 <= k <= 16
      invariant NonZero(row[..k]) == (if countdown then 2 else 1)
    {
      assert row[..k + 1][..k] == row[..k];
      k := k + 1;
    }
    assert row[..16] == row;
  }

  /** A prefix of zeros counts nothing. */
  lemma {:induction false} NonZeroZeros(row: seq<Cell>, k: nat)
    requires k <= |row|
    requires forall i :: 0 <= i < k ==> IsZero(row[i])
    ensures NonZero(row[..k]) == 0
  {
    if k > 0 {
      assert row[..k][..k - 1] == row[..k - 1];
      NonZeroZeros(row, k - 1);
    }
  }
}
