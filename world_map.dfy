/** The tile map: a row-major grid of material codes (0 = empty, 1..4 = wall material),
    the point-in-wall test that bounds both the player and every ray scan, and the
    fixed table from material code to colour. */
module WorldMap {
  import opened Geometry

  /** grid[row][col]; the demo maps are MAP_NUM_ROWS rows of MAP_NUM_COLS codes. */
  type Grid = seq<seq<int>>

  predicate WellFormed(g: Grid)
  {
    |g| == MAP_NUM_ROWS && forall r :: 0 <= r < |g| ==> |g[r]| == MAP_NUM_COLS
  }

  /** Every code of the grid lies in [lo, hi]. */
  predicate CodesWithin(g: Grid, lo: int, hi: int)
  {
    forall r, c :: 0 <= r < |g| && 0 <= c < |g[r]| ==> lo <= g[r][c] <= hi
  }

  /** The outermost rows and columns are all walls. */
  predicate SolidBorder(g: Grid)
    requires WellFormed(g)
  {
    (forall c :: 0 <= c < MAP_NUM_COLS ==> g[0][c] != 0 && g[MAP_NUM_ROWS - 1][c] != 0) &&
    (forall r :: 0 <= r < MAP_NUM_ROWS ==> g[r][0] != 0 && g[r][MAP_NUM_COLS - 1] != 0)
  }

  /** Cell index of a world coordinate: floor(v / TILE_SIZE). */
  function CellIndex(v: real): int
  {
    (v / TILE_SIZE).Floor
  }

  predicate OutOfMap(x: real, y: real)
  {
    x < 0.0 || x > WINDOW_WIDTH || y < 0.0 || y > WINDOW_HEIGHT
  }

  /** hasWallAt exactly as the program evaluates it. None stands for the TypeError raised when
      y == WINDOW_HEIGHT selects row MAP_NUM_ROWS, which does not exist, and the program then
      indexes `undefined`. A column past the end of a row reads `undefined`, and
      `undefined != 0` holds, so that point counts as a wall. */
  function LookupAsWritten(g: Grid, x: real, y: real): (r: Option<bool>)
    ensures OutOfMap(x, y) ==> r == Some(true)
  {
    if OutOfMap(x, y) then Some(true)
    else
      var col, row := CellIndex(x), CellIndex(y);
      if row >= |g| then None
      else Some(col >= |g[row]| || g[row][col] != 0)
  }

  /** Is there a wall at world point (x, y)? Outside [0, W] x [0, H] is always a wall; inside,
      the cell containing the point decides. A point whose cell index falls past the grid
      (the closed right and bottom edges) is a wall too. */
  function HasWallAt(g: Grid, x: real, y: real): (wall: bool)
    ensures OutOfMap(x, y) ==> wall
    ensures WellFormed(g) && 0.0 <= x < WINDOW_WIDTH && 0.0 <= y < WINDOW_HEIGHT ==>
              0 <= CellIndex(x) < MAP_NUM_COLS && 0 <= CellIndex(y) < MAP_NUM_ROWS &&
              (wall <==> g[CellIndex(y)][CellIndex(x)] != 0)
    ensures WellFormed(g) && (x == WINDOW_WIDTH || y == WINDOW_HEIGHT) ==> wall
  {
    if OutOfMap(x, y) then true
    else
      var col, row := CellIndex(x), CellIndex(y);
      if row >= |g| || col >= |g[row]| then true
      else g[row][col] != 0
  }

  /** Wherever the program's lookup returns, it agrees with HasWallAt; on a well-formed grid it
      fails exactly on the bottom edge y == WINDOW_HEIGHT. */
  lemma AsWrittenAgrees(g: Grid, x: real, y: real)
    requires WellFormed(g)
    ensures LookupAsWritten(g, x, y).Some? ==> LookupAsWritten(g, x, y).value == HasWallAt(g, x, y)
    ensures LookupAsWritten(g, x, y).None? <==> !OutOfMap(x, y) && y == WINDOW_HEIGHT
  {
    if !OutOfMap(x, y) {
      assert CellIndex(y) >= MAP_NUM_ROWS <==> y == WINDOW_HEIGHT;
    }
  }

  /** The program's lookup throws on a point of the bottom edge of the map, which the
      out-of-map-is-wall rule evidently means to be solid. */
  lemma AsWrittenThrowsOnBottomEdge(g: Grid)
    requires WellFormed(g)
    ensures LookupAsWritten(g, 240.0, WINDOW_HEIGHT) == None
    ensures HasWallAt(g, 240.0, WINDOW_HEIGHT)
  {
    assert CellIndex(WINDOW_HEIGHT) == MAP_NUM_ROWS;
  }

  /** A free point lies in the half-open world and in an empty cell. */
  lemma FreePointIsInEmptyCell(g: Grid, x: real, y: real)
    requires WellFormed(g)
    requires !HasWallAt(g, x, y)
    ensures 0.0 <= x < WINDOW_WIDTH && 0.0 <= y < WINDOW_HEIGHT
    ensures g[CellIndex(y)][CellIndex(x)] == 0
  {
  }

  /** With a solid border every free point lies at least one tile away from the world's edge. */
  lemma FreePointIsInterior(g: Grid, x: real, y: real)
    requires WellFormed(g) && SolidBorder(g)
    requires !HasWallAt(g, x, y)
    ensures TILE_SIZE <= x < WINDOW_WIDTH - TILE_SIZE
    ensures TILE_SIZE <= y < WINDOW_HEIGHT - TILE_SIZE
  {
    FreePointIsInEmptyCell(g, x, y);
    var col, row := CellIndex(x), CellIndex(y);
    assert g[row][0] != 0 && g[row][MAP_NUM_COLS - 1] != 0;
    assert g[0][col] != 0 && g[MAP_NUM_ROWS - 1][col] != 0;
    assert 1 <= col < MAP_NUM_COLS - 1 && 1 <= row < MAP_NUM_ROWS - 1;
  }

  /** Every point strictly inside a rectangle of empty cells is free. */
  lemma EmptyRegionIsFree(g: Grid, r0: int, r1: int, c0: int, c1: int, x: real, y: real)
    requires WellFormed(g)
    requires 0 <= r0 <= r1 <= MAP_NUM_ROWS && 0 <= c0 <= c1 <= MAP_NUM_COLS
    requires forall r, c :: r0 <= r < r1 && c0 <= c < c1 ==> g[r][c] == 0
    requires c0 as real * TILE_SIZE <= x < c1 as real * TILE_SIZE
    requires r0 as real * TILE_SIZE <= y < r1 as real * TILE_SIZE
    ensures !HasWallAt(g, x, y)
  {
    assert c0 <= CellIndex(x) < c1;
    assert r0 <= CellIndex(y) < r1;
  }

  /** A colour with an alpha channel; the program builds it as an `rgba(...)` string. */
  datatype Rgba = Rgba(red: int, green: int, blue: int, alpha: real)

  /** Fixed table from material code to colour, with the caller's alpha passed through.
      Codes outside 0..4 have no colour (the program falls off its if-chain). */
  function ColourOf(code: int, alpha: real): (c: Option<Rgba>)
    ensures c.Some? <==> 0 <= code <= 4
    ensures c.Some? ==> c.value.alpha == alpha
    ensures c.Some? ==> 0 <= c.value.red <= 255 && 0 <= c.value.green <= 255 && 0 <= c.value.blue <= 255
    ensures code == 0 ==> c == Some(Rgba(0, 0, 0, alpha))
  {
    if code == 0 then Some(Rgba(0, 0, 0, alpha))
    else if code == 1 then Some(Rgba(100, 100, 100, alpha))
    else if code == 2 then Some(Rgba(255, 215, 0, alpha))
    else if code == 3 then Some(Rgba(116, 78, 163, alpha))
    else if code == 4 then Some(Rgba(247, 99, 0, alpha))
    else None
  }

  /** Distinct materials are painted in distinct colours, whatever the alpha. */
  lemma ColourOfInjective(a: int, b: int, alpha: real, beta: real)
    requires 0 <= a <= 4 && 0 <= b <= 4 && a != b
    ensures ColourOf(a, alpha).value.(alpha := 0.0) != ColourOf(b, beta).value.(alpha := 0.0)
  {
  }

  /** getColourAt: the colour of the cell (col, row). A missing row makes the program throw,
      so the row must exist; a missing column reads `undefined`, which has no colour. */
  function ColourAt(g: Grid, col: int, row: int, alpha: real): (c: Option<Rgba>)
    requires 0 <= row < |g|
    ensures 0 <= col < |g[row]| ==> c == ColourOf(g[row][col], alpha)
    ensures !(0 <= col < |g[row]|) ==> c == None
  {
    if 0 <= col < |g[row]| then ColourOf(g[row][col], alpha) else None
  }

  /** The 3D view colours a wall strip by the cell of the hit point. For a wall hit that does
      not lie on the right or bottom edge, that lookup is defined and never the empty-cell
      colour, on a grid whose codes are all materials 0..4. */
  lemma WallHitHasMaterialColour(g: Grid, p: Point, alpha: real)
    requires WellFormed(g) && CodesWithin(g, 0, 4)
    requires Inside(p) && p.x < WINDOW_WIDTH && p.y < WINDOW_HEIGHT
    requires HasWallAt(g, p.x, p.y)
    ensures 0 <= CellIndex(p.y) < |g|
    ensures ColourAt(g, CellIndex(p.x), CellIndex(p.y), alpha).Some?
    ensures ColourAt(g, CellIndex(p.x), CellIndex(p.y), alpha) != Some(Rgba(0, 0, 0, alpha))
  {
    var col, row := CellIndex(p.x), CellIndex(p.y);
    assert 1 <= g[row][col] <= 4;
  }
}
