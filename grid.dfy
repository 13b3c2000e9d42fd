/** The tile grid of source/raycaster.cc: a 24 x 24 table of wall-material
    ids stored row-major in one vector (`map`), read by get_map_tile at index
    y * 24 + x.  The table is written here as its 24 rows; `Map` is their
    concatenation, the same 576 values in the same order.  The lookups take the
    table as an argument: the Raycaster object holds it as its member `map`,
    and everything proved about the march and the movement needs only MapOk,
    which MapIsOk shows of this table. */
module Grid {
  import opened Vec

  const MapWidth: int := 24
  const MapHeight: int := 24

  /** Number of textures on_load pushes into `textures`; a tile id indexes it. */
  const TextureCount: int := 12

  const Row0: seq<int> := [8, 8, 8, 8, 8, 8, 8, 8, 8, 8, 8, 4, 4, 6, 4, 4, 6, 4, 6, 4, 4, 4, 6, 4]
  const Row1: seq<int> := [8, 0, 0, 0, 0, 0, 0, 0, 0, 0, 8, 4, 0, 0, 0, 0, 0, 0, 0, 0, 0, 0, 0, 4]
  const Row2: seq<int> := [8, 0, 3, 3, 0, 0, 0, 0, 0, 8, 8, 4, 0, 0, 0, 0, 0, 0, 0, 0, 0, 0, 0, 6]
  const Row3: seq<int> := [8, 0, 0, 3, 0, 0, 0, 0, 0, 0, 0, 0, 0, 0, 0, 0, 0, 0, 0, 0, 0, 0, 0, 6]
  const Row4: seq<int> := [8, 0, 3, 3, 0, 0, 0, 0, 0, 8, 8, 4, 0, 0, 0, 0, 0, 0, 0, 0, 0, 0, 0, 4]
  const Row5: seq<int> := [8, 0, 0, 0, 0, 0, 0, 0, 0, 0, 8, 4, 0, 0, 0, 0, 0, 6, 6, 6, 0, 6, 4, 6]
  const Row6: seq<int> := [8, 8, 8, 8, 0, 8, 8, 8, 8, 8, 8, 4, 4, 4, 4, 4, 4, 6, 0, 0, 0, 0, 0, 6]
  const Row7: seq<int> := [7, 7, 7, 7, 0, 7, 7, 7, 7, 0, 8, 0, 8, 0, 8, 0, 8, 4, 0, 4, 0, 6, 0, 6]
  const Row8: seq<int> := [7, 7, 0, 0, 0, 0, 0, 0, 7, 8, 0, 8, 0, 8, 0, 8, 8, 6, 0, 0, 0, 0, 0, 6]
  const Row9: seq<int> := [7, 0, 0, 0, 0, 0, 0, 0, 0, 0, 0, 0, 0, 0, 0, 0, 8, 6, 0, 0, 0, 0, 0, 4]
  const Row10: seq<int> := [7, 0, 0, 0, 0, 0, 0, 0, 0, 0, 0, 0, 0, 0, 0, 0, 8, 6, 0, 6, 0, 6, 0, 6]
  const Row11: seq<int> := [7, 7, 0, 0, 0, 0, 0, 0, 7, 8, 0, 8, 0, 8, 0, 8, 8, 6, 4, 6, 0, 6, 6, 6]
  const Row12: seq<int> := [7, 7, 7, 7, 0, 7, 7, 7, 7, 8, 8, 4, 0, 6, 8, 4, 8, 3, 3, 3, 0, 3, 3, 3]
  const Row13: seq<int> := [2, 2, 2, 2, 0, 2, 2, 2, 2, 4, 6, 4, 0, 0, 6, 0, 6, 3, 0, 0, 0, 0, 0, 3]
  const Row14: seq<int> := [2, 2, 0, 0, 0, 0, 0, 2, 2, 4, 0, 0, 0, 0, 0, 0, 4, 3, 0, 0, 0, 0, 0, 3]
  const Row15: seq<int> := [2, 0, 0, 0, 0, 0, 0, 0, 2, 4, 0, 0, 0, 0, 0, 0, 4, 3, 0, 0, 0, 0, 0, 3]
  const Row16: seq<int> := [1, 0, 0, 0, 0, 0, 0, 0, 1, 4, 4, 4, 4, 4, 6, 0, 6, 3, 3, 0, 0, 0, 3, 3]
  const Row17: seq<int> := [2, 0, 0, 0, 0, 0, 0, 0, 2, 2, 2, 1, 2, 2, 2, 6, 6, 0, 0, 5, 0, 5, 0, 5]
  const Row18: seq<int> := [2, 2, 0, 0, 0, 0, 0, 2, 2, 2, 0, 0, 0, 2, 2, 0, 5, 0, 5, 0, 0, 0, 5, 5]
  const Row19: seq<int> := [2, 0, 0, 0, 0, 0, 0, 0, 2, 0, 0, 0, 0, 0, 2, 5, 0, 5, 0, 5, 0, 5, 0, 5]
  const Row20: seq<int> := [1, 0, 0, 0, 0, 0, 0, 0, 0, 0, 0, 0, 0, 0, 0, 0, 0, 0, 0, 0, 0, 0, 0, 5]
  const Row21: seq<int> := [2, 0, 0, 0, 0, 0, 0, 0, 2, 0, 0, 0, 0, 0, 2, 5, 0, 5, 0, 5, 0, 5, 0, 5]
  const Row22: seq<int> := [2, 2, 0, 0, 0, 0, 0, 2, 2, 2, 0, 0, 0, 2, 2, 0, 5, 0, 5, 0, 0, 0, 5, 5]
  const Row23: seq<int> := [2, 2, 2, 2, 1, 2, 2, 2, 2, 2, 2, 1, 2, 2, 2, 5, 5, 5, 5, 5, 5, 5, 5, 5]

  const Rows: seq<seq<int>> := [Row0, Row1, Row2, Row3, Row4, Row5, Row6, Row7, Row8, Row9, Row10, Row11, Row12, Row13, Row14, Row15, Row16, Row17, Row18, Row19, Row20, Row21, Row22, Row23]

  /** The row-major vector `map`: row 0 first, 24 entries per row. */
  const Map: seq<int> := Flatten(Rows)

  function Flatten(rows: seq<seq<int>>): seq<int>
  {
    if rows == [] then [] else rows[0] + Flatten(rows[1..])
  }

  /** Every entry of a row is a wall-material id 0..8. */
  predicate TileIds(r: seq<int>)
  {
    forall x :: 0 <= x < |r| ==> 0 <= r[x] <= 8
  }

  lemma {:induction false} FlattenIndex(rows: seq<seq<int>>, i: int)
    requires forall y :: 0 <= y < |rows| ==> |rows[y]| == 24
    requires 0 <= i < 24 * |rows|
    ensures |Flatten(rows)| == 24 * |rows|
    ensures Flatten(rows)[i] == rows[i / 24][i % 24]
  {
    if i < 24 {
      FlattenLength(rows[1..]);
    } else {
      FlattenIndex(rows[1..], i - 24);
    }
  }

  lemma {:induction false} FlattenLength(rows: seq<seq<int>>)
    requires forall y :: 0 <= y < |rows| ==> |rows[y]| == 24
    ensures |Flatten(rows)| == 24 * |rows|
  {
    if rows != [] {
      FlattenLength(rows[1..]);
    }
  }

  /** A row of the table: 24 material ids whose first and last entries are walls. */
  predicate RowOk(r: seq<int>)
  {
    |r| == MapWidth && TileIds(r) && r[0] != 0 && r[MapWidth - 1] != 0
  }

  lemma RowsOk0To3()
    ensures forall y :: 0 <= y < 4 ==> RowOk(Rows[y])
  {
    forall y | 0 <= y < 4
      ensures RowOk(Rows[y])
    {
      if y == 0 { assert Rows[y] == Row0; }
      else if y == 1 { assert Rows[y] == Row1; }
      else if y == 2 { assert Rows[y] == Row2; }
      else if y == 3 { assert Rows[y] == Row3; }
    }
  }

  lemma RowsOk4To7()
    ensures forall y :: 4 <= y < 8 ==> RowOk(Rows[y])
  {
    forall y | 4 <= y < 8
      ensures RowOk(Rows[y])
    {
      if y == 4 { assert Rows[y] == Row4; }
      else if y == 5 { assert Rows[y] == Row5; }
      else if y == 6 { assert Rows[y] == Row6; }
      else if y == 7 { assert Rows[y] == Row7; }
    }
  }

  lemma RowsOk8To11()
    ensures forall y :: 8 <= y < 12 ==> RowOk(Rows[y])
  {
    forall y | 8 <= y < 12
      ensures RowOk(Rows[y])
    {
      if y == 8 { assert Rows[y] == Row8; }
      else if y == 9 { assert Rows[y] == Row9; }
      else if y == 10 { assert Rows[y] == Row10; }
      else if y == 11 { assert Rows[y] == Row11; }
    }
  }

  lemma RowsOk12To15()
    ensures forall y :: 12 <= y < 16 ==> RowOk(Rows[y])
  {
    forall y | 12 <= y < 16
      ensures RowOk(Rows[y])
    {
      if y == 12 { assert Rows[y] == Row12; }
      else if y == 13 { assert Rows[y] == Row13; }
      else if y == 14 { assert Rows[y] == Row14; }
      else if y == 15 { assert Rows[y] == Row15; }
    }
  }

  lemma RowsOk16To19()
    ensures forall y :: 16 <= y < 20 ==> RowOk(Rows[y])
  {
    forall y | 16 <= y < 20
      ensures RowOk(Rows[y])
    {
      if y == 16 { assert Rows[y] == Row16; }
      else if y == 17 { assert Rows[y] == Row17; }
      else if y == 18 { assert Rows[y] == Row18; }
      else if y == 19 { assert Rows[y] == Row19; }
    }
  }

  lemma RowsOk20To23()
    ensures forall y :: 20 <= y < 24 ==> RowOk(Rows[y])
  {
    forall y | 20 <= y < 24
      ensures RowOk(Rows[y])
    {
      if y == 20 { assert Rows[y] == Row20; }
      else if y == 21 { assert Rows[y] == Row21; }
      else if y == 22 { assert Rows[y] == Row22; }
      else if y == 23 { assert Rows[y] == Row23; }
    }
  }

  /** Shape and contents of the literal table, row by row. */
  lemma RowsShape()
    ensures |Rows| == MapHeight
    ensures forall y :: 0 <= y < |Rows| ==> |Rows[y]| == MapWidth && RowOk(Rows[y])
  {
    RowsOk0To3();
    RowsOk4To7();
    RowsOk8To11();
    RowsOk12To15();
    RowsOk16To19();
    RowsOk20To23();
  }

  /** The table has exactly 24 * 24 entries, entry y * 24 + x is row y, column x,
      and every entry is a wall-material id 0..8. */
  lemma MapEntry(i: int)
    requires 0 <= i < MapWidth * MapHeight
    ensures |Map| == MapWidth * MapHeight
    ensures Map[i] == Rows[i / MapWidth][i % MapWidth]
    ensures 0 <= Map[i] <= 8
  {
    RowsShape();
    FlattenIndex(Rows, i);
  }

  /** get_map_tile(x, y) on a table `tiles` of 24 * 24 entries: the entry at
      y * 24 + x.  Neither coordinate is checked on its own; only the flat index
      must lie inside the vector. */
  function GetMapTile(tiles: seq<int>, x: int, y: int): int
    requires |tiles| == MapWidth * MapHeight && 0 <= y * MapWidth + x < MapWidth * MapHeight
  {
    tiles[y * MapWidth + x]
  }

  /** The flat index is row-major: for a column of the grid, the entry is
      column x of row y; for x == 24 it wraps to column 0 of row y + 1. */
  lemma GetMapTileRowMajor(tiles: seq<int>, x: int, y: int)
    requires |tiles| == MapWidth * MapHeight && 0 <= y * MapWidth + x < MapWidth * MapHeight
    ensures 0 <= x < MapWidth ==> 0 <= y < MapHeight && GetMapTile(tiles, x, y) == tiles[y * MapWidth .. (y + 1) * MapWidth][x]
    ensures x == MapWidth ==> -1 <= y < MapHeight - 1 && GetMapTile(tiles, x, y) == tiles[(y + 1) * MapWidth]
  {
  }

  /** What the rest of the program relies on about the table: 24 * 24 entries,
      each a wall-material id 0..8, and walls all along row 0, row 23, column 0
      and column 23. */
  predicate MapOk(tiles: seq<int>)
  {
    |tiles| == MapWidth * MapHeight
    && (forall i :: 0 <= i < |tiles| ==> 0 <= tiles[i] <= 8)
    && (forall x :: 0 <= x < MapWidth ==> GetMapTile(tiles, x, 0) != 0 && GetMapTile(tiles, x, MapHeight - 1) != 0)
    && (forall y :: 0 <= y < MapHeight ==> GetMapTile(tiles, 0, y) != 0 && GetMapTile(tiles, MapWidth - 1, y) != 0)
  }

  /** For a cell inside the grid the flat index y * 24 + x of the source's
      table is row y, column x. */
  lemma TileAtCell(x: int, y: int)
    requires 0 <= x < MapWidth && 0 <= y < MapHeight
    ensures |Map| == MapWidth * MapHeight && 0 <= y * MapWidth + x < MapWidth * MapHeight
    ensures GetMapTile(Map, x, y) == Rows[y][x]
  {
    var i := y * MapWidth + x;
    assert i / MapWidth == y && i % MapWidth == x;
    MapEntry(i);
  }

  /** The source's table meets MapOk: every entry is a material id 0..8 and
      every tile in row 0, row 23, column 0 and column 23 is a wall. */
  lemma MapIsOk()
    ensures MapOk(Map)
  {
    RowsShape();
    MapEntry(0);
    forall i | 0 <= i < |Map|
      ensures 0 <= Map[i] <= 8
    {
      MapEntry(i);
    }
    assert forall x :: 0 <= x < MapWidth ==> Row0[x] != 0 && Row23[x] != 0;
    forall i | 0 <= i < MapWidth
      ensures GetMapTile(Map, i, 0) != 0 && GetMapTile(Map, i, MapHeight - 1) != 0
      ensures GetMapTile(Map, 0, i) != 0 && GetMapTile(Map, MapWidth - 1, i) != 0
    {
      TileAtCell(i, 0);
      TileAtCell(i, 23);
      TileAtCell(0, i);
      TileAtCell(23, i);
    }
  }

  /** get_map_tile(const vec2i&): the same lookup for an integer vector.  On a
      table meeting MapOk the tile indexes the texture table, so
      textures.at(get_map_tile(...)) never throws. */
  function GetMapTileAt(tiles: seq<int>, c: Vec2<int>): (t: int)
    requires MapOk(tiles) && 0 <= c.y * MapWidth + c.x < MapWidth * MapHeight
    ensures 0 <= t < TextureCount
    ensures t == GetMapTile(tiles, c.x, c.y)
  {
    GetMapTile(tiles, c.x, c.y)
  }

  predicate InGrid(c: Vec2<int>)
  {
    0 <= c.x < MapWidth && 0 <= c.y < MapHeight
  }

  /** A cell that is neither on the border nor outside the grid. */
  predicate Interior(c: Vec2<int>)
  {
    1 <= c.x < MapWidth - 1 && 1 <= c.y < MapHeight - 1
  }

  /** Cells whose coordinates differ by at most one on each axis. */
  predicate Adjacent(a: Vec2<int>, b: Vec2<int>)
  {
    -1 <= a.x - b.x <= 1 && -1 <= a.y - b.y <= 1
  }

  /** On a walled table an empty tile of the grid is never a border tile. */
  lemma EmptyTileIsInterior(tiles: seq<int>, c: Vec2<int>)
    requires MapOk(tiles) && InGrid(c) && GetMapTileAt(tiles, c) == 0
    ensures Interior(c)
  {
    assert GetMapTile(tiles, 0, c.y) != 0 && GetMapTile(tiles, MapWidth - 1, c.y) != 0;
    assert GetMapTile(tiles, c.x, 0) != 0 && GetMapTile(tiles, c.x, MapHeight - 1) != 0;
  }

  /** A cell next to an interior cell lies inside the grid, so its flat index is
      inside the vector. */
  lemma NeighbourInGrid(a: Vec2<int>, b: Vec2<int>)
    requires Interior(a) && Adjacent(a, b)
    ensures InGrid(b) && 0 <= b.y * MapWidth + b.x < MapWidth * MapHeight
  {
  }

  /** The initial player position (8, 8) lies on a wall tile of material 7. */
  lemma StartTileIsWall()
    ensures |Map| == MapWidth * MapHeight && GetMapTile(Map, 8, 8) == 7
  {
    TileAtCell(8, 8);
  }

  /** The ray-march guard admits x == 24; for y < 23 that flat index is column 0
      of the next row. */
  lemma ColumnPastEdgeWraps(tiles: seq<int>, y: int)
    requires |tiles| == MapWidth * MapHeight && 0 <= y < MapHeight - 1
    ensures GetMapTile(tiles, MapWidth, y) == GetMapTile(tiles, 0, y + 1)
  {
  }

  /** C's float-to-int conversion: truncation toward zero. */
  function Trunc(r: real): (n: int)
    ensures 0.0 <= r ==> n as real <= r < n as real + 1.0
    ensures r < 0.0 ==> n as real - 1.0 < r <= n as real
  {
    if r >= 0.0 then r.Floor else -((-r).Floor)
  }

  /** Truncation toward zero never reverses an order. */
  lemma TruncMonotone(a: real, b: real)
    requires a <= b
    ensures Trunc(a) <= Trunc(b)
  {
  }

  /** Two reals less than one apart truncate to integers at most one apart. */
  lemma TruncClose(a: real, b: real)
    requires -1.0 < a - b < 1.0
    ensures -1 <= Trunc(a) - Trunc(b) <= 1
  {
  }

  /** The cell under a position, as (int)p.x, (int)p.y. */
  function TileOf(p: Vec2<real>): Vec2<int>
  {
    Vec2(Trunc(p.x), Trunc(p.y))
  }

  /** A position with non-negative coordinates lies inside the cell TileOf
      gives it. */
  lemma TileOfContains(p: Vec2<real>)
    requires 0.0 <= p.x && 0.0 <= p.y
    ensures var c := TileOf(p);
      c.x as real <= p.x < c.x as real + 1.0 && c.y as real <= p.y < c.y as real + 1.0
  {
  }

  predicate Near(p: Vec2<real>, q: Vec2<real>)
  {
    -1.0 < p.x - q.x < 1.0 && -1.0 < p.y - q.y < 1.0
  }

  /** A displacement of less than a tile on each axis stays near. */
  lemma SmallStepIsNear(p: Vec2<real>, d: Vec2<real>)
    requires -1.0 < d.x < 1.0 && -1.0 < d.y < 1.0
    ensures Near(Add(p, d), p)
  {
  }

  lemma NearTilesAdjacent(p: Vec2<real>, q: Vec2<real>)
    requires Near(p, q)
    ensures Adjacent(TileOf(p), TileOf(q))
  {
    TruncClose(p.x, q.x);
    TruncClose(p.y, q.y);
  }
}
