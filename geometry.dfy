/** Constants of the demo world and the small vocabulary of points and grid lines
    shared by the map, the rays and the player. World coordinates are exact reals:
    x grows to the right, y grows downwards (screen order). */
module Geometry {

  datatype Option<+T> = None | Some(value: T)

  /** A point of the world, in world units. */
  datatype Point = Point(x: real, y: real)

  /** Side of one square tile. */
  const TILE_SIZE: real := 32.0
  const MAP_NUM_ROWS: int := 11
  const MAP_NUM_COLS: int := 15

  /** World extent: the map covers [0, WINDOW_WIDTH] x [0, WINDOW_HEIGHT]. */
  const WINDOW_WIDTH: real := 480.0   // MAP_NUM_COLS * TILE_SIZE
  const WINDOW_HEIGHT: real := 352.0  // MAP_NUM_ROWS * TILE_SIZE

  /** One ray per one-pixel wall strip. */
  const NUM_RAYS: nat := 480

  /** The exact rational value of the IEEE-754 double that the program knows as PI. */
  const PI: real := 3.141592653589793115997963468544185161590576171875
  const TAU: real := 2.0 * PI

  /** Closed bounding box of the world: the loop guard of both grid-line scans. */
  predicate Inside(p: Point)
  {
    0.0 <= p.x <= WINDOW_WIDTH && 0.0 <= p.y <= WINDOW_HEIGHT
  }

  /** v lies on a grid line, that is, v is an integer multiple of TILE_SIZE. */
  predicate OnTileLine(v: real)
  {
    (v / TILE_SIZE).Floor as real * TILE_SIZE == v
  }

  /** Square of the Euclidean distance from (px, py) to p; compared in place of the distance itself. */
  function DistSq(px: real, py: real, p: Point): (d: real)
    ensures d >= 0.0
  {
    (p.x - px) * (p.x - px) + (p.y - py) * (p.y - py)
  }

  /** Comparing squares of non-negative distances orders them as the distances themselves:
      with s1, s2 the distances and d1, d2 their squares, d1 <= d2 exactly when s1 <= s2. */
  lemma SquaresOrderAsRoots(d1: real, d2: real, s1: real, s2: real)
    requires 0.0 <= s1 && 0.0 <= s2
    requires s1 * s1 == d1 && s2 * s2 == d2
    ensures d1 <= d2 <==> s1 <= s2
    ensures d1 == d2 <==> s1 == s2
  {
    assert d2 - d1 == (s2 - s1) * (s2 + s1);
    if s1 < s2 {
      PositiveProduct(s2 - s1, s2 + s1);
    } else if s2 < s1 {
      PositiveProduct(s1 - s2, s1 + s2);
    }
  }

  lemma PositiveProduct(a: real, b: real)
    requires a > 0.0 && b > 0.0
    ensures a * b > 0.0
  {
  }

  /** Every integer multiple of TILE_SIZE lies on a grid line. */
  lemma OnTileLineOfMultiple(k: int)
    ensures OnTileLine(k as real * TILE_SIZE)
  {
    assert k as real * TILE_SIZE / TILE_SIZE == k as real;
  }

  /** Moving along an axis by a whole tile keeps a coordinate on (or off) the grid lines. */
  lemma OnTileLineShift(v: real, s: real)
    requires s == TILE_SIZE || s == -TILE_SIZE
    ensures OnTileLine(v + s) <==> OnTileLine(v)
  {
    var k := (v / TILE_SIZE).Floor;
    var k' := ((v + s) / TILE_SIZE).Floor;
    assert (v + s) / TILE_SIZE == v / TILE_SIZE + s / TILE_SIZE;
    if s == TILE_SIZE {
      assert k' == k + 1;
    } else {
      assert k' == k - 1;
    }
  }
}
