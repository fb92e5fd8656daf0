/**
  The board engine: the 3x3 grid, win detection in the fixed scan order,
  the full-board (draw) test, and the two routines that allocate boards.
*/
module Board {

  const BoardSize: int := 3

  /** The two symbols a participant plays as ("X" and "O"). */
  datatype Player = X | O

  /** A cell of the board: the empty string or one player's symbol. */
  datatype Cell = Empty | Mark(player: Player)

  /** A board position; `row` is the y index, `col` the x index. */
  datatype Coord = Coord(row: int, col: int)

  /** A board as a value: a sequence of rows. */
  type Grid = seq<seq<Cell>>

  /** The other player. */
  function Opponent(p: Player): (q: Player)
    ensures q != p
  {
    if p == X then O else X
  }

  /** A board of the fixed 3x3 shape. */
  predicate IsBoard(g: Grid) {
    |g| == BoardSize && forall i :: 0 <= i < |g| ==> |g[i]| == BoardSize
  }

  predicate OnBoard(c: Coord) {
    0 <= c.row < BoardSize && 0 <= c.col < BoardSize
  }

  /** The cell at `c`, or Empty when `c` lies outside `g`. */
  function CellAt(g: Grid, c: Coord): Cell {
    if 0 <= c.row < |g| && 0 <= c.col < |g[c.row]| then g[c.row][c.col] else Empty
  }

  /** `g` with the cell at row `y`, column `x` replaced by `v`. */
  function SetCell(g: Grid, y: int, x: int, v: Cell): (h: Grid)
    requires 0 <= y < |g| && 0 <= x < |g[y]|
    ensures |h| == |g| && forall i :: 0 <= i < |g| ==> |h[i]| == |g[i]|
    ensures forall i, j :: 0 <= i < |g| && 0 <= j < |g[i]| ==>
              h[i][j] == if i == y && j == x then v else g[i][j]
  {
    g[y := g[y][x := v]]
  }

  // ----- The eight lines, in the order the win check scans them -----

  function RowLine(y: int): seq<Coord> {
    [Coord(y, 0), Coord(y, 1), Coord(y, 2)]
  }

  function ColumnLine(x: int): seq<Coord> {
    [Coord(0, x), Coord(1, x), Coord(2, x)]
  }

  const MainDiagonal: seq<Coord> := [Coord(0, 0), Coord(1, 1), Coord(2, 2)]

  const AntiDiagonal: seq<Coord> := [Coord(0, 2), Coord(1, 1), Coord(2, 0)]

  /** Rows top to bottom, columns left to right, main diagonal, anti-diagonal. */
  const ScanOrder: seq<seq<Coord>> :=
    [RowLine(0), RowLine(1), RowLine(2),
     ColumnLine(0), ColumnLine(1), ColumnLine(2),
     MainDiagonal, AntiDiagonal]

  /** Every cell of `line` holds `p`'s mark. */
  predicate Completes(g: Grid, line: seq<Coord>, p: Player) {
    forall k :: 0 <= k < |line| ==> CellAt(g, line[k]) == Mark(p)
  }

  /** Some line of the scan order is entirely `p`. */
  predicate HasLine(g: Grid, p: Player) {
    exists k :: 0 <= k < |ScanOrder| && Completes(g, ScanOrder[k], p)
  }

  /** `line` is the `k`-th line of the scan order, it is complete for `p`,
      and no line scanned between position `from` and it is. */
  predicate FirstCompleteFrom(g: Grid, p: Player, line: seq<Coord>, from: int, k: int) {
    0 <= from <= k < |ScanOrder| && line == ScanOrder[k] && Completes(g, line, p) &&
    forall j :: from <= j < k ==> !Completes(g, ScanOrder[j], p)
  }

  /** `line` is the first line complete for `p` in the scan order from position `from` on. */
  ghost predicate FirstComplete(g: Grid, p: Player, line: seq<Coord>, from: int) {
    exists k :: FirstCompleteFrom(g, p, line, from, k)
  }

  /** The first complete line from position `from` is also the first from an
      earlier position `start` when nothing scanned in between is complete. */
  lemma FirstCompleteEarlier(g: Grid, p: Player, line: seq<Coord>, start: int, from: int)
    requires 0 <= start <= from
    requires FirstComplete(g, p, line, from)
    requires forall j :: start <= j < from ==> !Completes(g, ScanOrder[j], p)
    ensures FirstComplete(g, p, line, start)
  {
    var k :| FirstCompleteFrom(g, p, line, from, k);
    assert FirstCompleteFrom(g, p, line, start, k);
  }

  lemma CompletesThree(g: Grid, a: Coord, b: Coord, c: Coord, p: Player)
    ensures Completes(g, [a, b, c], p) <==>
              CellAt(g, a) == Mark(p) && CellAt(g, b) == Mark(p) && CellAt(g, c) == Mark(p)
  {
    var line := [a, b, c];
    assert line[0] == a && line[1] == b && line[2] == c;
  }

  lemma ScanOrderRow(y: int)
    requires 0 <= y < 3
    ensures ScanOrder[y] == RowLine(y)
  {
    if y == 0 {} else if y == 1 {} else {}
  }

  lemma ScanOrderColumn(x: int)
    requires 0 <= x < 3
    ensures ScanOrder[3 + x] == ColumnLine(x)
  {
    if x == 0 {} else if x == 1 {} else {}
  }

  // ----- checkWinner -----

  /** The row scan of the win check, from row `y` down. */
  function CheckRows(g: Grid, p: Player, y: int): (cells: seq<Coord>)
    requires IsBoard(g) && 0 <= y <= 3
    ensures cells == [] <==> forall k :: y <= k < 3 ==> !Completes(g, ScanOrder[k], p)
    ensures cells != [] ==> FirstComplete(g, p, cells, y)
    decreases 3 - y
  {
    if y == 3 then []
    else if g[y][0] == Mark(p) && g[y][1] == Mark(p) && g[y][2] == Mark(p) then
      ScanOrderRow(y);
      CompletesThree(g, Coord(y, 0), Coord(y, 1), Coord(y, 2), p);
      assert FirstCompleteFrom(g, p, RowLine(y), y, y);
      [Coord(y, 0), Coord(y, 1), Coord(y, 2)]
    else
      ScanOrderRow(y);
      CompletesThree(g, Coord(y, 0), Coord(y, 1), Coord(y, 2), p);
      var cells := CheckRows(g, p, y + 1);
      if cells != [] then FirstCompleteEarlier(g, p, cells, y, y + 1); cells else cells
  }

  /** The column scan of the win check, from column `x` rightwards. */
  function CheckColumns(g: Grid, p: Player, x: int): (cells: seq<Coord>)
    requires IsBoard(g) && 0 <= x <= 3
    ensures cells == [] <==> forall k :: 3 + x <= k < 6 ==> !Completes(g, ScanOrder[k], p)
    ensures cells != [] ==> FirstComplete(g, p, cells, 3 + x)
    decreases 3 - x
  {
    if x == 3 then []
    else if g[0][x] == Mark(p) && g[1][x] == Mark(p) && g[2][x] == Mark(p) then
      ScanOrderColumn(x);
      CompletesThree(g, Coord(0, x), Coord(1, x), Coord(2, x), p);
      assert FirstCompleteFrom(g, p, ColumnLine(x), 3 + x, 3 + x);
      [Coord(0, x), Coord(1, x), Coord(2, x)]
    else
      ScanOrderColumn(x);
      CompletesThree(g, Coord(0, x), Coord(1, x), Coord(2, x), p);
      var cells := CheckColumns(g, p, x + 1);
      if cells != [] then FirstCompleteEarlier(g, p, cells, 3 + x, 4 + x); cells else cells
  }

  /** checkWinner: the first line of the scan order that is entirely `p`,
      or the empty sequence (Go's nil) when there is none. */
  function CheckWinner(g: Grid, p: Player): (cells: seq<Coord>)
    requires IsBoard(g)
    ensures cells == [] <==> !HasLine(g, p)
    ensures cells != [] ==> |cells| == 3 && Completes(g, cells, p)
    ensures cells != [] ==> FirstComplete(g, p, cells, 0)
  {
    var rows := CheckRows(g, p, 0);
    if rows != [] then rows
    else
      var cols := CheckColumns(g, p, 0);
      if cols != [] then
        FirstCompleteEarlier(g, p, cols, 0, 3);
        cols
      else
        CompletesThree(g, Coord(0, 0), Coord(1, 1), Coord(2, 2), p);
        CompletesThree(g, Coord(0, 2), Coord(1, 1), Coord(2, 0), p);
        assert ScanOrder[6] == MainDiagonal && ScanOrder[7] == AntiDiagonal;
        if g[0][0] == Mark(p) && g[1][1] == Mark(p) && g[2][2] == Mark(p) then
          assert FirstCompleteFrom(g, p, MainDiagonal, 0, 6);
          [Coord(0, 0), Coord(1, 1), Coord(2, 2)]
        else if g[0][2] == Mark(p) && g[1][1] == Mark(p) && g[2][0] == Mark(p) then
          assert FirstCompleteFrom(g, p, AntiDiagonal, 0, 7);
          [Coord(0, 2), Coord(1, 1), Coord(2, 0)]
        else
          []
  }

  // ----- isDraw -----

  /** The cells of `row` from index `j` on are all non-empty. */
  function RowFilled(row: seq<Cell>, j: int): (full: bool)
    requires 0 <= j <= |row|
    ensures full <==> forall k :: j <= k < |row| ==> row[k] != Empty
    decreases |row| - j
  {
    if j == |row| then true
    else if row[j] == Empty then false
    else RowFilled(row, j + 1)
  }

  /** The rows of `g` from index `i` on hold no empty cell. */
  function RowsFilled(g: Grid, i: int): (full: bool)
    requires 0 <= i <= |g|
    ensures full <==> forall r, c :: i <= r < |g| && 0 <= c < |g[r]| ==> g[r][c] != Empty
    decreases |g| - i
  {
    if i == |g| then true
    else if !RowFilled(g[i], 0) then false
    else RowsFilled(g, i + 1)
  }

  /** isDraw: no cell of the board is empty (whatever its shape). */
  function IsDraw(g: Grid): (full: bool)
    ensures full <==> forall r, c :: 0 <= r < |g| && 0 <= c < |g[r]| ==> g[r][c] != Empty
  {
    RowsFilled(g, 0)
  }

  // ----- Boards in memory -----

  /** The value of an in-memory board: its rows as a grid when it is 3x3,
      and [] for any other shape. */
  function Contents(b: array2<Cell>): (g: Grid)
    reads b
    ensures b.Length0 == BoardSize && b.Length1 == BoardSize ==> IsBoard(g)
    ensures !(b.Length0 == BoardSize && b.Length1 == BoardSize) ==> g == []
  {
    if b.Length0 == BoardSize && b.Length1 == BoardSize then
      [[b[0, 0], b[0, 1], b[0, 2]], [b[1, 0], b[1, 1], b[1, 2]], [b[2, 0], b[2, 1], b[2, 2]]]
    else []
  }

  /** Cell (i, j) of a 3x3 board's value is cell [i, j] of the board. */
  lemma ContentsCells(b: array2<Cell>)
    requires b.Length0 == BoardSize && b.Length1 == BoardSize
    ensures forall i, j :: 0 <= i < BoardSize && 0 <= j < BoardSize ==> Contents(b)[i][j] == b[i, j]
  {
  }

  /** The all-empty 3x3 board as a value. */
  function EmptyGrid(): (g: Grid)
    ensures IsBoard(g)
    ensures forall i, j :: 0 <= i < 3 && 0 <= j < 3 ==> g[i][j] == Empty
  {
    [[Empty, Empty, Empty], [Empty, Empty, Empty], [Empty, Empty, Empty]]
  }

  /** Two grids with the same shape and the same cells are equal. */
  lemma SameGrid(g: Grid, h: Grid)
    requires |g| == |h|
    requires forall i :: 0 <= i < |g| ==> |g[i]| == |h[i]|
    requires forall i, j :: 0 <= i < |g| && 0 <= j < |g[i]| ==> g[i][j] == h[i][j]
    ensures g == h
  {
    forall i | 0 <= i < |g|
      ensures g[i] == h[i]
    {
      assert forall j :: 0 <= j < |g[i]| ==> g[i][j] == h[i][j];
    }
  }

  /** An in-place write of one cell. */
  method WriteCell(b: array2<Cell>, y: int, x: int, v: Cell)
    requires b.Length0 == BoardSize && b.Length1 == BoardSize
    requires 0 <= y < BoardSize && 0 <= x < BoardSize
    modifies b
    ensures Contents(b) == SetCell(old(Contents(b)), y, x, v)
  {
    ghost var before := Contents(b);
    b[y, x] := v;
    SameGrid(Contents(b), SetCell(before, y, x, v));
  }

  /** createEmptyBoard: a fresh 3x3 board, every cell Empty. */
  method CreateEmptyBoard() returns (b: array2<Cell>)
    ensures fresh(b)
    ensures b.Length0 == BoardSize && b.Length1 == BoardSize
    ensures Contents(b) == EmptyGrid()
  {
    b := new Cell[BoardSize, BoardSize];
    var i := 0;
    while i < BoardSize
      invariant 0 <= i <= BoardSize
      invariant forall r, c :: 0 <= r < i && 0 <= c < BoardSize ==> b[r, c] == Empty
    {
      var j := 0;
      while j < BoardSize
        invariant 0 <= j <= BoardSize
        invariant forall r, c :: 0 <= r < i && 0 <= c < BoardSize ==> b[r, c] == Empty
        invariant forall c :: 0 <= c < j ==> b[i, c] == Empty
      {
        b[i, j] := Empty;
        j := j + 1;
      }
      i := i + 1;
    }
  }

  /** copyBoard: a fresh board of the same shape holding the same cells. */
  method CopyBoard(b: array2<Cell>) returns (r: array2<Cell>)
    ensures fresh(r)
    ensures r.Length0 == b.Length0 && r.Length1 == b.Length1
    ensures forall y, x :: 0 <= y < b.Length0 && 0 <= x < b.Length1 ==> r[y, x] == b[y, x]
    ensures Contents(r) == Contents(b)
  {
    r := new Cell[b.Length0, b.Length1];
    var i := 0;
    while i < b.Length0
      invariant 0 <= i <= b.Length0
      invariant forall y, x :: 0 <= y < i && 0 <= x < b.Length1 ==> r[y, x] == b[y, x]
    {
      var j := 0;
      while j < b.Length1
        invariant 0 <= j <= b.Length1
        invariant forall y, x :: 0 <= y < i && 0 <= x < b.Length1 ==> r[y, x] == b[y, x]
        invariant forall x :: 0 <= x < j ==> r[i, x] == b[i, x]
      {
        r[i, j] := b[i, j];
        j := j + 1;
      }
      i := i + 1;
    }
  }
}
