/** The brick-offset hexagon grid: integer tile coordinates, their projection
    onto the ground plane, and the circular cull that bounds the island. */
module HexGrid {

  /** A point of the ground plane. Like the 2D vector the original builds,
      the second component is the world z axis, named `y` here as there. */
  datatype Vec2 = Vec2(x: real, y: real)

  /** Distance between tile centres along a row. */
  const ColumnSpacing: real := 1.77
  /** Distance between two consecutive rows. */
  const RowSpacing: real := 1.535
  /** Tiles farther than this from the origin are not generated. */
  const CullRadius: real := 45.0

  /** JavaScript's `a % 2` on an integer: the remainder truncates toward zero,
      so it takes the sign of the dividend (`-3 % 2 == -1`), unlike Dafny's
      Euclidean `%`. The postconditions determine it uniquely. */
  function JsRem2(a: int): (r: int)
    ensures (a - r) % 2 == 0
    ensures -1 <= r <= 1
    ensures a >= 0 ==> r >= 0
    ensures a < 0 ==> r <= 0
  {
    if a >= 0 then a % 2 else -((-a) % 2)
  }

  /** Half-tile shift of a row in the brick layout, in tile widths. */
  function RowShift(row: int): real
  {
    JsRem2(row) as real * 0.5
  }

  /** Projects tile (x, y) onto the plane. Odd rows are shifted half a tile:
      to the right when the row index is positive, to the LEFT when it is
      negative, because of JavaScript's truncated remainder. */
  function TileToPosition(x: int, y: int): (p: Vec2)
    ensures p.y == y as real * RowSpacing
    ensures y % 2 == 0 ==> p.x == x as real * ColumnSpacing
    ensures y % 2 == 1 && y > 0 ==> p.x == (x as real + 0.5) * ColumnSpacing
    ensures y % 2 == 1 && y < 0 ==> p.x == (x as real - 0.5) * ColumnSpacing
  {
    Vec2((x as real + RowShift(y)) * ColumnSpacing, y as real * RowSpacing)
  }

  /** The cull test, `length() <= 45`, compared on squared lengths: for a
      non-negative square `s`, `sqrt(s) <= 45` exactly when `s <= 45 * 45`. */
  predicate WithinRadius(p: Vec2)
  {
    p.x * p.x + p.y * p.y <= CullRadius * CullRadius
  }

  /** A point that passes the cull test lies in the square [-45, 45]². */
  lemma WithinRadiusBounds(p: Vec2)
    requires WithinRadius(p)
    ensures -CullRadius <= p.x <= CullRadius && -CullRadius <= p.y <= CullRadius
  {
    SquareBound(p.x);
    SquareBound(p.y);
  }

  /** Whether the sweep keeps tile (x, y); `KeptTilesAreNearOrigin` bounds
      the tiles it keeps. */
  predicate Kept(x: int, y: int)
  {
    WithinRadius(TileToPosition(x, y))
  }

  /** Distinct tiles never share a position: rows differ in z, and within a
      row columns differ in x. */
  lemma TileToPositionInjective(x1: int, y1: int, x2: int, y2: int)
    requires TileToPosition(x1, y1) == TileToPosition(x2, y2)
    ensures x1 == x2 && y1 == y2
  {
    assert y1 as real * RowSpacing == y2 as real * RowSpacing;
    assert y1 == y2;
    assert (x1 as real + RowShift(y1)) * ColumnSpacing == (x2 as real + RowShift(y1)) * ColumnSpacing;
  }

  /** Consecutive rows are always offset by exactly half a tile, also across
      row 0 where the sign of the remainder flips, so the layout stays a
      valid hexagon tiling on both sides of the origin. */
  lemma {:induction false} NeighbourRowsOffsetByHalf(y: int)
    ensures RowShift(y + 1) - RowShift(y) == 0.5 || RowShift(y) - RowShift(y + 1) == 0.5
  {
    var r0, r1 := JsRem2(y), JsRem2(y + 1);
    if y >= 0 {
      assert r0 == y % 2 && r1 == (y + 1) % 2;
    } else if y == -1 {
      assert r0 == -1 && r1 == 0;
    } else {
      assert r0 == -((-y) % 2) && r1 == -((-y - 1) % 2);
    }
  }

  /** Projection with the Euclidean remainder, where every odd row shifts
      right; the layout an author would expect from `y % 2` on paper. */
  function EuclidTileToPosition(x: int, y: int): (p: Vec2)
    ensures p.y == y as real * RowSpacing
  {
    Vec2((x as real + (y % 2) as real * 0.5) * ColumnSpacing, y as real * RowSpacing)
  }

  /** The truncated remainder only relabels columns: an odd negative row
      holds the same positions as the Euclidean layout, one column over.
      So the set of tile positions is the same lattice either way. */
  lemma JsLayoutRelabelsColumns(x: int, y: int)
    ensures y >= 0 || y % 2 == 0 ==> TileToPosition(x, y) == EuclidTileToPosition(x, y)
    ensures y < 0 && y % 2 == 1 ==> TileToPosition(x, y) == EuclidTileToPosition(x - 1, y)
  {
  }

  /** For a real square bounded by 45 * 45, the value lies in [-45, 45]. */
  lemma SquareBound(v: real)
    requires v * v <= CullRadius * CullRadius
    ensures -CullRadius <= v <= CullRadius
  {
  }

  /** Every tile the cull keeps has |x| <= 25 and |y| <= 29, well inside the
      sweep range [-100, 100): the range never cuts the island short, so the
      kept tiles are exactly the tiles of the whole grid within the radius. */
  lemma KeptTilesAreNearOrigin(x: int, y: int)
    requires Kept(x, y)
    ensures -25 <= x <= 25 && -29 <= y <= 29
  {
    WithinRadiusBounds(TileToPosition(x, y));
    var s := RowShift(y);
    assert -0.5 <= s <= 0.5;
    assert (x as real + s) * ColumnSpacing <= 45.0;
    assert (x as real + s) * ColumnSpacing >= -45.0;
  }

  /** Sample tiles: the origin tile is kept and the sweep's corner tile is
      culled; row 1 shifts half a tile right, while rows -1 and -3 shift
      half a tile left. */
  lemma GridSamples()
    ensures Kept(0, 0) && !Kept(-100, -100)
    ensures TileToPosition(0, 1) == Vec2(0.885, 1.535)
    ensures TileToPosition(0, -1) == Vec2(-0.885, -1.535)
    ensures TileToPosition(2, -3).x == 2.655
  {
  }
}
