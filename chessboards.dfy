/**
  The chessboard of scripts/RayTrace/Chessboard.cpp: 8 x 8 squares of two
  triangles each in the plane y = 0, coloured by parity, followed by two
  black side triangles; and `GetObjectPointers`, which lists them.
 */
module Chessboards {
  import opened Exceptions
  import opened Vectors
  import opened Utils
  import opened Objects

  /** Squares per side of the board. */
  const BOARD_SIZE: nat := 8

  /** Triangles the constructor creates: two per square and two side triangles. */
  const BOARD_TRIANGLES: nat := 8 * 8 * 2 + 2

  /** The colour of square (i, j): white when i + j is odd, black when it is even. */
  function SquareColor(i: nat, j: nat): Vec3
  {
    if (i + j) % 2 == 1 then WHITE_BOARD_COLOR else BLACK_BOARD_COLOR
  }

  /**
    Triangle h (0 or 1) of square (i, j). The x coordinates are offset by
    bottomLeft[0] and the z coordinates by bottomLeft[1]; y is always 0.
   */
  function SquareTriangle(bottomLeft: Vec3, i: nat, j: nat, h: nat): (Vec3, Vec3, Vec3)
  {
    var x0, x1 := i as real + bottomLeft.x, i as real + 1.0 + bottomLeft.x;
    var z0, z1 := j as real + bottomLeft.y, j as real + 1.0 + bottomLeft.y;
    if h == 0 then (Vec3(x0, 0.0, z0), Vec3(x0, 0.0, z1), Vec3(x1, 0.0, z1))
    else (Vec3(x1, 0.0, z0), Vec3(x0, 0.0, z0), Vec3(x1, 0.0, z1))
  }

  /** The two side triangles appended after the squares; they ignore `bottomLeft`. */
  const SIDE_TRIANGLE_1: (Vec3, Vec3, Vec3) := (Vec3(8.0, -1.0, 8.0), Vec3(8.0, 0.0, 8.0), Vec3(0.0, 0.0, 8.0))
  const SIDE_TRIANGLE_2: (Vec3, Vec3, Vec3) := (Vec3(0.0, 0.0, 8.0), Vec3(0.0, -1.0, 8.0), Vec3(8.0, -1.0, 8.0))

  /** The square and the half that grid position n < 128 holds: squares row by row (i outer, j inner). */
  function Square(n: nat): (r: (nat, nat, nat))
    requires n < 128
    ensures r.0 < BOARD_SIZE && r.1 < BOARD_SIZE && r.2 < 2
  {
    (n / 16, (n % 16) / 2, n % 2)
  }

  /** Triangle h of square (i, j) sits at position 16 i + 2 j + h. */
  lemma SquareDecodes(i: nat, j: nat, h: nat)
    requires i < BOARD_SIZE && j < BOARD_SIZE && h < 2
    ensures 16 * i + 2 * j + h < 128 && Square(16 * i + 2 * j + h) == (i, j, h)
  {
  }

  /** The corners of the triangle at grid position n. */
  function BoardTriangle(bottomLeft: Vec3, n: nat): (Vec3, Vec3, Vec3)
    requires n < BOARD_TRIANGLES
  {
    if n < 128 then
      var (i, j, h) := Square(n);
      SquareTriangle(bottomLeft, i, j, h)
    else if n == 128 then SIDE_TRIANGLE_1
    else SIDE_TRIANGLE_2
  }

  /** The colour of the triangle at grid position n: its square's, or black for the side triangles. */
  function BoardColor(n: nat): Vec3
    requires n < BOARD_TRIANGLES
  {
    if n < 128 then SquareColor(Square(n).0, Square(n).1) else BLACK_BOARD_COLOR
  }

  /**
    The two triangles of a square share its colour, which is white exactly
    on odd i + j.
   */
  lemma BoardColorsAlternate(i: nat, j: nat)
    requires i < BOARD_SIZE && j < BOARD_SIZE
    ensures BoardColor(16 * i + 2 * j) == BoardColor(16 * i + 2 * j + 1) == SquareColor(i, j)
    ensures SquareColor(i, j) == WHITE_BOARD_COLOR <==> (i + j) % 2 == 1
  {
    SquareDecodes(i, j, 0);
    SquareDecodes(i, j, 1);
  }

  /** Squares next to each other along either axis have different colours. */
  lemma NeighbouringSquaresDiffer(i: nat, j: nat)
    ensures SquareColor(i, j) != SquareColor(i + 1, j) && SquareColor(i, j) != SquareColor(i, j + 1)
  {
    assert (i + 1 + j) % 2 != (i + j) % 2 && (i + (j + 1)) % 2 != (i + j) % 2;
  }

  /**
    The two triangles of square (i, j) lie in y = 0 inside
    [i + b0, i + 1 + b0] x [j + b1, j + 1 + b1], and between them use all four
    corners of that square.
   */
  lemma SquareIsCovered(bottomLeft: Vec3, i: nat, j: nat)
    ensures var (a1, b1, c1) := SquareTriangle(bottomLeft, i, j, 0);
            var (a2, b2, c2) := SquareTriangle(bottomLeft, i, j, 1);
            var x0, x1 := i as real + bottomLeft.x, i as real + 1.0 + bottomLeft.x;
            var z0, z1 := j as real + bottomLeft.y, j as real + 1.0 + bottomLeft.y;
            && (forall p :: p in {a1, b1, c1, a2, b2, c2} ==> p.y == 0.0 && x0 <= p.x <= x1 && z0 <= p.z <= z1)
            && {a1, b1, c1} + {a2, b2, c2} ==
               {Vec3(x0, 0.0, z0), Vec3(x1, 0.0, z0), Vec3(x0, 0.0, z1), Vec3(x1, 0.0, z1)}
  {
  }

  /** Only bottomLeft[0] and bottomLeft[1] move the board; bottomLeft[2] plays no part. */
  lemma BoardIgnoresBottomLeftZ(bottomLeft: Vec3, z: real, n: nat)
    requires n < BOARD_TRIANGLES
    ensures BoardTriangle(bottomLeft, n) == BoardTriangle(Vec3(bottomLeft.x, bottomLeft.y, z), n)
  {
  }

  /**
    The two side triangles do not move with `bottomLeft`: they are black and
    stand upright in the plane z = 8, between y = -1 and y = 0 over x in [0, 8].
   */
  lemma SideTrianglesFixed(bottomLeft: Vec3, other: Vec3, n: nat)
    requires 128 <= n < BOARD_TRIANGLES
    ensures BoardTriangle(bottomLeft, n) == BoardTriangle(other, n)
    ensures BoardColor(n) == BLACK_BOARD_COLOR
    ensures var (a, b, c) := BoardTriangle(bottomLeft, n);
            forall p :: p in {a, b, c} ==> p.z == 8.0 && -1.0 <= p.y <= 0.0 && 0.0 <= p.x <= 8.0
  {
  }

  /** The cells of the board in row-major order: row 0 first, each row left to right. */
  function Cells(rows: seq<seq<Option<SceneObject>>>): seq<Option<SceneObject>>
  {
    if rows == [] then [] else Cells(rows[..|rows| - 1]) + rows[|rows| - 1]
  }

  /** Every cell of every row is among the cells, and every cell comes from some row. */
  lemma {:induction false} CellsOfRows(rows: seq<seq<Option<SceneObject>>>)
    ensures forall i, j :: 0 <= i < |rows| && 0 <= j < |rows[i]| ==> rows[i][j] in Cells(rows)
    ensures forall k :: 0 <= k < |Cells(rows)| ==> exists i :: 0 <= i < |rows| && Cells(rows)[k] in rows[i]
  {
    if rows == [] {
      assert Cells(rows) == [];
    } else {
      var init := rows[..|rows| - 1];
      CellsOfRows(init);
      assert forall i :: 0 <= i < |init| ==> init[i] == rows[i];
      var c := Cells(rows);
      assert c == Cells(init) + rows[|rows| - 1];
      forall i, j | 0 <= i < |rows| && 0 <= j < |rows[i]|
        ensures rows[i][j] in c
      {
        if i < |init| {
          assert rows[i][j] in Cells(init);
        } else {
          assert c[|Cells(init)| + j] == rows[i][j];
        }
      }
      forall k | 0 <= k < |c|
        ensures exists i :: 0 <= i < |rows| && c[k] in rows[i]
      {
        if k < |Cells(init)| {
          assert c[k] == Cells(init)[k];
          var i :| 0 <= i < |init| && c[k] in init[i];
          assert c[k] in rows[i];
        } else {
          assert c[k] in rows[|rows| - 1];
        }
      }
    }
  }

  /**
    The listed objects are exactly the board's: every non-null cell's object
    is listed, and every listed object stands in some row.
   */
  lemma NonNullHoldsBoard(rows: seq<seq<Option<SceneObject>>>)
    ensures forall i, j :: 0 <= i < |rows| && 0 <= j < |rows[i]| && rows[i][j].Some? ==> rows[i][j].value in NonNull(rows)
    ensures forall k :: 0 <= k < |NonNull(rows)| ==> exists i :: 0 <= i < |rows| && Some(NonNull(rows)[k]) in rows[i]
  {
    CellsOfRows(rows);
    NonNullRowKeepsAll(Cells(rows));
    var c := Cells(rows);
    var r := NonNull(rows);
    forall i, j | 0 <= i < |rows| && 0 <= j < |rows[i]| && rows[i][j].Some?
      ensures rows[i][j].value in r
    {
      var k :| 0 <= k < |c| && c[k] == rows[i][j];
    }
    forall k | 0 <= k < |r|
      ensures exists i :: 0 <= i < |rows| && Some(r[k]) in rows[i]
    {
      var m :| 0 <= m < |c| && c[m] == Some(r[k]);
    }
  }

  /**
    The board listed without null entries, row by row: the non-null cells in
    row-major order, so exactly the objects the board holds somewhere.
   */
  function NonNull(rows: seq<seq<Option<SceneObject>>>): (r: seq<SceneObject>)
    ensures r == NonNullRow(Cells(rows))
  {
    if rows == [] then []
    else
      var init := rows[..|rows| - 1];
      NonNullRowAppend(Cells(init), rows[|rows| - 1]);
      NonNull(init) + NonNullRow(rows[|rows| - 1])
  }

  /**
    One row without its null entries: one entry per non-null cell, holding
    exactly the objects of the row's cells.
   */
  function NonNullRow(row: seq<Option<SceneObject>>): (r: seq<SceneObject>)
    ensures |r| <= |row| && forall k :: 0 <= k < |r| ==> Some(r[k]) in row
  {
    if row == [] then [] else NonNullRow(row[..|row| - 1]) + (if row[|row| - 1].Some? then [row[|row| - 1].value] else [])
  }

  /** The row keeps one entry per non-null cell and the object of every non-null cell. */
  lemma {:induction false} NonNullRowKeepsAll(row: seq<Option<SceneObject>>)
    ensures |NonNullRow(row)| == |row| - multiset(row)[None]
    ensures forall j :: 0 <= j < |row| && row[j].Some? ==> row[j].value in NonNullRow(row)
  {
    if row != [] {
      var init := row[..|row| - 1];
      NonNullRowKeepsAll(init);
      assert row == init + [row[|row| - 1]];
      assert forall j :: 0 <= j < |init| ==> init[j] == row[j];
    }
  }

  /** Dropping the null cells of two pieces one after the other keeps their order. */
  lemma {:induction false} NonNullRowAppend(a: seq<Option<SceneObject>>, b: seq<Option<SceneObject>>)
    ensures NonNullRow(a + b) == NonNullRow(a) + NonNullRow(b)
    decreases |b|
  {
    if b != [] {
      var init := b[..|b| - 1];
      assert (a + b)[..|a + b| - 1] == a + init;
      NonNullRowAppend(a, init);
    } else {
      assert a + b == a;
    }
  }

  /** The triangles at grid positions below `count` have the corners and colours of the board's layout. */
  ghost predicate GridUpTo(bottomLeft: Vec3, grid: seq<SceneObject>, count: nat)
    requires count <= |grid| && count <= BOARD_TRIANGLES
    reads set n | 0 <= n < count && grid[n].Tri? :: grid[n].tri
  {
    forall n :: 0 <= n < count ==>
      && grid[n].Tri?
      && grid[n].tri.Valid()
      && (grid[n].tri.pointA, grid[n].tri.pointB, grid[n].tri.pointC) == BoardTriangle(bottomLeft, n)
      && grid[n].tri.color == BoardColor(n)
  }

  /** A grid that matches the layout below its length still does with one more triangle that matches at its position. */
  lemma GridExtend(bottomLeft: Vec3, grid: seq<SceneObject>, t: Triangle)
    requires |grid| < BOARD_TRIANGLES && GridUpTo(bottomLeft, grid, |grid|)
    requires t.Valid() && (t.pointA, t.pointB, t.pointC) == BoardTriangle(bottomLeft, |grid|)
    requires t.color == BoardColor(|grid|)
    ensures GridUpTo(bottomLeft, grid + [Tri(t)], |grid| + 1)
  {
    var g := grid + [Tri(t)];
    forall n | 0 <= n < |grid| + 1
      ensures g[n].Tri? && g[n].tri.Valid()
      ensures (g[n].tri.pointA, g[n].tri.pointB, g[n].tri.pointC) == BoardTriangle(bottomLeft, n)
      ensures g[n].tri.color == BoardColor(n)
    {
      if n < |grid| {
        assert g[n] == grid[n];
      }
    }
  }

  /**
    One triangle of the square loop: half h of square (i, j), new, with the
    square's corners and coloured white on odd i + j and black otherwise;
    it is the triangle the layout puts at position 16 i + 2 j + h.
   */
  method NewSquareTriangle(bottomLeft: Vec3, i: nat, j: nat, h: nat) returns (t: Triangle)
    requires i < BOARD_SIZE && j < BOARD_SIZE && h < 2
    ensures fresh(t) && t.Valid()
    ensures 16 * i + 2 * j + h < BOARD_TRIANGLES
    ensures (t.pointA, t.pointB, t.pointC) == BoardTriangle(bottomLeft, 16 * i + 2 * j + h)
    ensures t.color == BoardColor(16 * i + 2 * j + h)
  {
    var (a, b, c) := SquareTriangle(bottomLeft, i, j, h);
    t := new Triangle(a, b, c);
    if (i + j) % 2 == 1 {
      t.SetColor(WHITE_BOARD_COLOR);
    } else {
      t.SetColor(BLACK_BOARD_COLOR);
    }
    SquareDecodes(i, j, h);
  }

  /** One of the two black side triangles, at position 128 or 129. */
  method NewSideTriangle(bottomLeft: Vec3, n: nat) returns (t: Triangle)
    requires n == 128 || n == 129
    ensures fresh(t) && t.Valid()
    ensures (t.pointA, t.pointB, t.pointC) == BoardTriangle(bottomLeft, n)
    ensures t.color == BoardColor(n)
  {
    hide Triangle.Valid;
    var (a, b, c) := if n == 128 then SIDE_TRIANGLE_1 else SIDE_TRIANGLE_2;
    t := new Triangle(a, b, c);
    t.SetColor(BLACK_BOARD_COLOR);
  }

  /** `Chessboard`: the board of piece pointers and the triangles of the squares. */
  class Chessboard {
    var board: seq<seq<Option<SceneObject>>>
    var triangleGrid: seq<SceneObject>

    /**
      `Chessboard(bottomLeft)`: the 128 square triangles, then the two black
      side triangles: 130 triangles in all, in that order. `board_` is left
      empty: each `row` is built and dropped.
     */
    constructor (bottomLeft: Vec3)
      ensures board == []
      ensures |triangleGrid| == BOARD_TRIANGLES
      ensures forall n :: 0 <= n < BOARD_TRIANGLES ==> triangleGrid[n].Tri? && fresh(triangleGrid[n].tri)
      ensures GridUpTo(bottomLeft, triangleGrid, BOARD_TRIANGLES)
    {
      var grid := Chessboard.NewTriangleGrid(bottomLeft);
      board := [];
      triangleGrid := grid;
    }

    /** The constructor's triangles: the 128 square triangles, then the two side triangles. */
    static method NewTriangleGrid(bottomLeft: Vec3) returns (grid: seq<SceneObject>)
      ensures |grid| == BOARD_TRIANGLES
      ensures forall n :: 0 <= n < BOARD_TRIANGLES ==> grid[n].Tri? && fresh(grid[n].tri)
      ensures GridUpTo(bottomLeft, grid, BOARD_TRIANGLES)
    {
      hide Triangle.Valid, BoardTriangle, BoardColor;
      grid := NewSquares(bottomLeft);
      var t := NewSideTriangle(bottomLeft, 128);
      GridExtend(bottomLeft, grid, t);
      grid := grid + [Tri(t)];
      t := NewSideTriangle(bottomLeft, 129);
      GridExtend(bottomLeft, grid, t);
      grid := grid + [Tri(t)];
    }

    /**
      The constructor's square loops: for i then j in 0 .. 7, two new
      triangles for square (i, j) in its colour, 128 in all, each where the
      layout puts it.
     */
    static method NewSquares(bottomLeft: Vec3) returns (grid: seq<SceneObject>)
      ensures |grid| == 128
      ensures forall n :: 0 <= n < |grid| ==> grid[n].Tri? && fresh(grid[n].tri)
      ensures GridUpTo(bottomLeft, grid, |grid|)
    {
      hide Triangle.Valid, BoardTriangle, BoardColor;
      grid := [];
      for i := 0 to BOARD_SIZE
        invariant |grid| == 16 * i
        invariant forall n :: 0 <= n < |grid| ==> grid[n].Tri? && fresh(grid[n].tri)
        invariant GridUpTo(bottomLeft, grid, |grid|)
      {
        var row;
        grid, row := NewSquareRow(bottomLeft, i, grid);
      }
    }

    /**
      One pass of the outer loop: the eight squares (i, 0) .. (i, 7), two
      new triangles each, appended in order; `row` collects one null piece
      per square.
     */
    static method NewSquareRow(bottomLeft: Vec3, i: nat, grid: seq<SceneObject>)
      returns (grid': seq<SceneObject>, row: seq<Option<SceneObject>>)
      requires i < BOARD_SIZE && |grid| == 16 * i && GridUpTo(bottomLeft, grid, |grid|)
      ensures |grid'| == |grid| + 16 && grid'[..|grid|] == grid
      ensures forall n :: |grid| <= n < |grid'| ==> grid'[n].Tri? && fresh(grid'[n].tri)
      ensures GridUpTo(bottomLeft, grid', |grid'|)
      ensures |row| == BOARD_SIZE && forall j :: 0 <= j < |row| ==> row[j] == None
    {
      hide Triangle.Valid, BoardTriangle, BoardColor;
      grid' := grid;
      row := [];
      for j := 0 to BOARD_SIZE
        invariant |grid'| == 16 * i + 2 * j && grid'[..|grid|] == grid
        invariant forall n :: |grid| <= n < |grid'| ==> grid'[n].Tri? && fresh(grid'[n].tri)
        invariant GridUpTo(bottomLeft, grid', |grid'|)
        invariant |row| == j && forall k :: 0 <= k < j ==> row[k] == None
      {
        row := row + [None];
        grid' := AppendSquare(bottomLeft, i, j, grid');
      }
    }

    /**
      The body of the inner loop: the two new triangles of square (i, j),
      coloured, appended to the grid.
     */
    static method AppendSquare(bottomLeft: Vec3, i: nat, j: nat, grid: seq<SceneObject>) returns (grid': seq<SceneObject>)
      requires i < BOARD_SIZE && j < BOARD_SIZE && |grid| == 16 * i + 2 * j && GridUpTo(bottomLeft, grid, |grid|)
      ensures |grid'| == |grid| + 2 && grid'[..|grid|] == grid
      ensures grid'[|grid|].Tri? && fresh(grid'[|grid|].tri)
      ensures grid'[|grid| + 1].Tri? && fresh(grid'[|grid| + 1].tri)
      ensures GridUpTo(bottomLeft, grid', |grid'|)
    {
      hide Triangle.Valid, BoardTriangle, BoardColor;
      var t1 := NewSquareTriangle(bottomLeft, i, j, 0);
      var t2 := NewSquareTriangle(bottomLeft, i, j, 1);
      GridExtend(bottomLeft, grid, t1);
      GridExtend(bottomLeft, grid + [Tri(t1)], t2);
      grid' := grid + [Tri(t1)] + [Tri(t2)];
    }

    /** The inner loop of `GetObjectPointers`: appends the non-null entries of one row, in order. */
    static method AppendNonNull(prefix: seq<SceneObject>, row: seq<Option<SceneObject>>) returns (result: seq<SceneObject>)
      ensures result == prefix + NonNullRow(row)
    {
      result := prefix;
      for c := 0 to |row|
        invariant result == prefix + NonNullRow(row[..c])
      {
        assert row[..c + 1][..c] == row[..c];
        if row[c] != None {
          result := result + [row[c].value];
        }
      }
      assert row[..|row|] == row;
    }

    /**
      `GetObjectPointers`: the triangles in grid order, then the non-null
      pieces of the board row by row; as the board is empty, exactly the
      triangles.
     */
    method GetObjectPointers() returns (result: seq<SceneObject>)
      ensures result == triangleGrid + NonNull(board)
      ensures board == [] ==> result == triangleGrid
    {
      result := [];
      for k := 0 to |triangleGrid|
        invariant result == triangleGrid[..k]
      {
        result := result + [triangleGrid[k]];
      }
      for r := 0 to |board|
        invariant result == triangleGrid + NonNull(board[..r])
      {
        result := AppendNonNull(result, board[r]);
        assert board[..r + 1][..r] == board[..r];
      }
      assert board[..|board|] == board;
    }
  }
}
