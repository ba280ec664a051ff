/** One ray of the fan: its normalised angle, the facing flags derived from it, the two
    grid-line scans (along horizontal and along vertical grid lines) and the resolution of
    the two candidate hits into the ray's target.

    The trigonometric value tan(rayAngle) is a parameter of the scans: the model does not
    compute it. The caster's position (the player's x and y) is passed in explicitly. */
module Rays {
  import opened Geometry
  import opened WorldMap
  import opened Angles

  /** Resolution of the two candidate hits: a missing candidate yields the other one; of two
      candidates the nearer wins and a tie goes to the horizontal-line hit. Squared distances
      are compared, which orders candidates exactly as their distances do
      (Geometry.SquaresOrderAsRoots). */
  function Resolve(px: real, py: real, horizontal: Option<Point>, vertical: Option<Point>): (r: Option<Point>)
    ensures r.None? <==> horizontal.None? && vertical.None?
    ensures vertical.None? ==> r == horizontal
    ensures horizontal.None? ==> r == vertical
    ensures horizontal.Some? && vertical.Some? ==>
              (r == horizontal || r == vertical) &&
              DistSq(px, py, r.value) <= DistSq(px, py, horizontal.value) &&
              DistSq(px, py, r.value) <= DistSq(px, py, vertical.value)
    ensures horizontal.Some? && vertical.Some? ==>
              (DistSq(px, py, horizontal.value) == DistSq(px, py, vertical.value) ==> r == horizontal)
    ensures horizontal.Some? && r != horizontal ==>
              DistSq(px, py, r.value) < DistSq(px, py, horizontal.value)
  {
    if vertical.None? then horizontal
    else if horizontal.None? then vertical
    else if DistSq(px, py, horizontal.value) <= DistSq(px, py, vertical.value) then horizontal
    else vertical
  }

  class Ray {
    const rayAngle: real
    const isRayFacingDown: bool
    const isRayFacingUp: bool
    const isRayFacingRight: bool
    const isRayFacingLeft: bool

    /** Set by Cast: the chosen wall point and the square of its distance from the caster. */
    var target: Point
    var distanceSq: real

    /** A ray at the normal form of the given angle, with its facing flags. */
    constructor (angle: real)
      ensures rayAngle == NormalizeAngle(angle) && 0.0 <= rayAngle < TAU
      ensures isRayFacingDown == FacingDown(rayAngle) && isRayFacingUp == !isRayFacingDown
      ensures isRayFacingRight == FacingRight(rayAngle) && isRayFacingLeft == !isRayFacingRight
    {
      var a := NormalizeAngle(angle);
      rayAngle := a;
      isRayFacingDown := FacingDown(a);
      isRayFacingUp := !FacingDown(a);
      isRayFacingRight := FacingRight(a);
      isRayFacingLeft := !FacingRight(a);
    }

    /** The facing flags are the ones the constructor derives from the ray's angle. */
    predicate FlagsOfAngle()
    {
      isRayFacingDown == FacingDown(rayAngle) && isRayFacingUp == !isRayFacingDown &&
      isRayFacingRight == FacingRight(rayAngle) && isRayFacingLeft == !isRayFacingRight
    }

    /** The flags of a constructed ray are consistent with one another. */
    predicate FlagsConsistent()
    {
      isRayFacingUp == !isRayFacingDown && isRayFacingLeft == !isRayFacingRight
    }

    // ---------------------------------------------------------------- horizontal grid lines

    /** x where the ray from (px, py) with slope tan crosses the horizontal line at height y. */
    function InterceptX(px: real, py: real, y: real, tan: real): real
      requires tan != 0.0
    {
      px + (y - py) / tan
    }

    /** First point of the horizontal scan: the grid line below the caster when facing down,
        the one at or above it when facing up, nudged one unit into the cell above. */
    function HorizontalStart(px: real, py: real, tan: real): Point
      requires tan != 0.0
    {
      var y := CellIndex(py) as real * TILE_SIZE + (if isRayFacingDown then TILE_SIZE else 0.0);
      Point(InterceptX(px, py, y, tan), if isRayFacingUp then y - 1.0 else y)
    }

    /** Step of the horizontal scan: one tile along y towards the facing side, and the matching
        run along x with its sign forced to the facing side. */
    function HorizontalStep(tan: real): (d: Point)
      requires tan != 0.0
      requires FlagsConsistent()
      ensures d.y == (if isRayFacingUp then -TILE_SIZE else TILE_SIZE)
      ensures d.y < 0.0 <==> isRayFacingUp
      ensures d.x != 0.0 && (d.x > 0.0 <==> isRayFacingRight)
      ensures d.x == TILE_SIZE / tan || d.x == -(TILE_SIZE / tan)
    {
      var dx := TILE_SIZE / tan;
      assert dx * tan == TILE_SIZE;
      var dx := if isRayFacingLeft && dx > 0.0 then -dx else dx;
      var dx := if isRayFacingRight && dx < 0.0 then -dx else dx;
      Point(dx, if isRayFacingUp then -TILE_SIZE else TILE_SIZE)
    }

    /** The n-th point visited by the horizontal scan. */
    function HorizontalPoint(px: real, py: real, tan: real, n: nat): Point
      requires tan != 0.0
      requires FlagsConsistent()
    {
      if n == 0 then HorizontalStart(px, py, tan)
      else
        var p, d := HorizontalPoint(px, py, tan, n - 1), HorizontalStep(tan);
        Point(p.x + d.x, p.y + d.y)
    }

    /** Every point of the horizontal scan lies on a horizontal grid line, or one unit above
        one when the ray faces up. */
    lemma {:induction false} HorizontalPointOnGridLine(px: real, py: real, tan: real, n: nat)
      requires tan != 0.0
      requires FlagsConsistent()
      ensures isRayFacingDown ==> OnTileLine(HorizontalPoint(px, py, tan, n).y)
      ensures isRayFacingUp ==> OnTileLine(HorizontalPoint(px, py, tan, n).y + 1.0)
    {
      var y := HorizontalPoint(px, py, tan, n).y;
      if n == 0 {
        var k := CellIndex(py);
        OnTileLineOfMultiple(k);
        if isRayFacingDown {
          OnTileLineShift(k as real * TILE_SIZE, TILE_SIZE);
        }
      } else {
        var y' := HorizontalPoint(px, py, tan, n - 1).y;
        HorizontalPointOnGridLine(px, py, tan, n - 1);
        if isRayFacingDown {
          OnTileLineShift(y', TILE_SIZE);
        } else {
          OnTileLineShift(y' + 1.0, -TILE_SIZE);
        }
      }
    }

    /** The horizontal scan from its n-th point on: the first point that leaves the world
        ends it without a hit, the first point in a wall is the hit. */
    function HorizontalScanFrom(g: Grid, px: real, py: real, tan: real, n: nat): (hit: Option<Point>)
      requires tan != 0.0
      requires FlagsConsistent()
      ensures hit.Some? ==> Inside(hit.value) && HasWallAt(g, hit.value.x, hit.value.y)
      ensures hit.Some? && isRayFacingDown ==> OnTileLine(hit.value.y)
      ensures hit.Some? && isRayFacingUp ==> OnTileLine(hit.value.y + 1.0)
      decreases if isRayFacingUp then HorizontalPoint(px, py, tan, n).y
                else WINDOW_HEIGHT - HorizontalPoint(px, py, tan, n).y
    {
      var p := HorizontalPoint(px, py, tan, n);
      HorizontalPointOnGridLine(px, py, tan, n);
      if !Inside(p) then None
      else if HasWallAt(g, p.x, p.y) then Some(p)
      else HorizontalScanFrom(g, px, py, tan, n + 1)
    }

    /** The horizontal scan at a point outside the world ends without a hit. */
    lemma HorizontalScanLeaves(g: Grid, px: real, py: real, tan: real, n: nat, x: real, y: real)
      requires tan != 0.0 && FlagsConsistent()
      requires Point(x, y) == HorizontalPoint(px, py, tan, n) && !Inside(Point(x, y))
      ensures HorizontalScanFrom(g, px, py, tan, n) == None
    {
    }

    /** The horizontal scan at a wall point inside the world returns that point. */
    lemma HorizontalScanStops(g: Grid, px: real, py: real, tan: real, n: nat, x: real, y: real)
      requires tan != 0.0 && FlagsConsistent()
      requires Point(x, y) == HorizontalPoint(px, py, tan, n) && Inside(Point(x, y)) && HasWallAt(g, x, y)
      ensures HorizontalScanFrom(g, px, py, tan, n) == Some(Point(x, y))
    {
    }

    /** The horizontal scan at a free point inside the world goes on one tile further. */
    lemma HorizontalScanMoves(g: Grid, px: real, py: real, tan: real, n: nat, x: real, y: real)
      requires tan != 0.0 && FlagsConsistent()
      requires Point(x, y) == HorizontalPoint(px, py, tan, n) && Inside(Point(x, y)) && !HasWallAt(g, x, y)
      ensures HorizontalScanFrom(g, px, py, tan, n) == HorizontalScanFrom(g, px, py, tan, n + 1)
      ensures HorizontalPoint(px, py, tan, n + 1) == Point(x + HorizontalStep(tan).x, y + HorizontalStep(tan).y)
    {
    }

    /** The scan returns the first wall point of the sequence of grid-line points, provided
        every point before it is inside the world and free. */
    lemma {:induction false} HorizontalScanFindsFirstWall(g: Grid, px: real, py: real, tan: real, n: nat, m: nat)
      requires tan != 0.0
      requires FlagsConsistent()
      requires n <= m
      requires forall j :: n <= j < m ==>
                 Inside(HorizontalPoint(px, py, tan, j)) &&
                 !HasWallAt(g, HorizontalPoint(px, py, tan, j).x, HorizontalPoint(px, py, tan, j).y)
      ensures var p := HorizontalPoint(px, py, tan, m);
              Inside(p) && HasWallAt(g, p.x, p.y) ==> HorizontalScanFrom(g, px, py, tan, n) == Some(p)
      ensures !Inside(HorizontalPoint(px, py, tan, m)) ==> HorizontalScanFrom(g, px, py, tan, n) == None
      decreases m - n
    {
      if n < m {
        HorizontalScanFindsFirstWall(g, px, py, tan, n + 1, m);
      }
    }

    /** Result of horizontalIntersect: with tan == 0 the first x-intercept is not finite and
        the scan ends at once without a hit. */
    function HorizontalHit(g: Grid, px: real, py: real, tan: real): (hit: Option<Point>)
      requires FlagsConsistent()
      ensures tan == 0.0 ==> hit == None
      ensures hit.Some? ==> Inside(hit.value) && HasWallAt(g, hit.value.x, hit.value.y)
      ensures hit.Some? && isRayFacingDown ==> OnTileLine(hit.value.y)
      ensures hit.Some? && isRayFacingUp ==> OnTileLine(hit.value.y + 1.0)
    {
      if tan == 0.0 then None else HorizontalScanFrom(g, px, py, tan, 0)
    }

    /** horizontalIntersect: walk the horizontal grid lines until a wall or the edge of the world. */
    method HorizontalIntersect(g: Grid, px: real, py: real, tan: real) returns (hit: Option<Point>)
      requires FlagsConsistent()
      ensures hit == HorizontalHit(g, px, py, tan)
    {
      var interceptY := CellIndex(py) as real * TILE_SIZE;
      interceptY := interceptY + (if isRayFacingDown then TILE_SIZE else 0.0);
      if tan == 0.0 {
        // the x-intercept is +-Infinity or NaN, which fails the loop guard
        return None;
      }
      var interceptX := InterceptX(px, py, interceptY, tan);

      var dy := TILE_SIZE;
      dy := if isRayFacingUp then -dy else dy;
      var dx := TILE_SIZE / tan;
      dx := if isRayFacingLeft && dx > 0.0 then -dx else dx;
      dx := if isRayFacingRight && dx < 0.0 then -dx else dx;

      if isRayFacingUp {
        interceptY := interceptY - 1.0;
      }

      ghost var n: nat := 0;
      while 0.0 <= interceptX <= WINDOW_WIDTH && 0.0 <= interceptY <= WINDOW_HEIGHT
        invariant Point(interceptX, interceptY) == HorizontalPoint(px, py, tan, n)
        invariant HorizontalScanFrom(g, px, py, tan, n) == HorizontalHit(g, px, py, tan)
        decreases if isRayFacingUp then interceptY else WINDOW_HEIGHT - interceptY
      {
        if HasWallAt(g, interceptX, interceptY) {
          HorizontalScanStops(g, px, py, tan, n, interceptX, interceptY);
          return Some(Point(interceptX, interceptY));
        }
        HorizontalScanMoves(g, px, py, tan, n, interceptX, interceptY);
        interceptX := interceptX + dx;
        interceptY := interceptY + dy;
        n := n + 1;
      }
      HorizontalScanLeaves(g, px, py, tan, n, interceptX, interceptY);
      return None;
    }

    // ------------------------------------------------------------------ vertical grid lines

    /** y where the ray from (px, py) with slope tan crosses the vertical line at abscissa x. */
    function InterceptY(px: real, py: real, x: real, tan: real): real
    {
      py + (x - px) * tan
    }

    /** First point of the vertical scan: the grid line right of the caster when facing right,
        the one at or left of it when facing left, nudged one unit into the cell to the left.
        The y-intercept is taken before the nudge. */
    function VerticalStart(px: real, py: real, tan: real): Point
    {
      var x := CellIndex(px) as real * TILE_SIZE + (if isRayFacingRight then TILE_SIZE else 0.0);
      Point(if isRayFacingLeft then x - 1.0 else x, InterceptY(px, py, x, tan))
    }

    /** Step of the vertical scan: one tile along x towards the facing side, and the matching
        rise along y with its sign forced to the facing side. */
    function VerticalStep(tan: real): (d: Point)
      requires FlagsConsistent()
      ensures d.x == (if isRayFacingLeft then -TILE_SIZE else TILE_SIZE)
      ensures d.x < 0.0 <==> isRayFacingLeft
      ensures d.y > 0.0 ==> isRayFacingDown
      ensures d.y < 0.0 ==> isRayFacingUp
      ensures d.y == TILE_SIZE * tan || d.y == -(TILE_SIZE * tan)
    {
      var dy := TILE_SIZE * tan;
      var dy := if isRayFacingUp && dy > 0.0 then -dy else dy;
      var dy := if isRayFacingDown && dy < 0.0 then -dy else dy;
      Point(if isRayFacingLeft then -TILE_SIZE else TILE_SIZE, dy)
    }

    /** The n-th point visited by the vertical scan. */
    function VerticalPoint(px: real, py: real, tan: real, n: nat): Point
      requires FlagsConsistent()
    {
      if n == 0 then VerticalStart(px, py, tan)
      else
        var p, d := VerticalPoint(px, py, tan, n - 1), VerticalStep(tan);
        Point(p.x + d.x, p.y + d.y)
    }

    /** Every point of the vertical scan lies on a vertical grid line, or one unit left of one
        when the ray faces left. */
    lemma {:induction false} VerticalPointOnGridLine(px: real, py: real, tan: real, n: nat)
      requires FlagsConsistent()
      ensures isRayFacingRight ==> OnTileLine(VerticalPoint(px, py, tan, n).x)
      ensures isRayFacingLeft ==> OnTileLine(VerticalPoint(px, py, tan, n).x + 1.0)
    {
      if n == 0 {
        var k := CellIndex(px);
        OnTileLineOfMultiple(k);
        if isRayFacingRight {
          OnTileLineShift(k as real * TILE_SIZE, TILE_SIZE);
        }
      } else {
        var x' := VerticalPoint(px, py, tan, n - 1).x;
        VerticalPointOnGridLine(px, py, tan, n - 1);
        if isRayFacingRight {
          OnTileLineShift(x', TILE_SIZE);
        } else {
          OnTileLineShift(x' + 1.0, -TILE_SIZE);
        }
      }
    }

    /** The vertical scan from its n-th point on. */
    function VerticalScanFrom(g: Grid, px: real, py: real, tan: real, n: nat): (hit: Option<Point>)
      requires FlagsConsistent()
      ensures hit.Some? ==> Inside(hit.value) && HasWallAt(g, hit.value.x, hit.value.y)
      ensures hit.Some? && isRayFacingRight ==> OnTileLine(hit.value.x)
      ensures hit.Some? && isRayFacingLeft ==> OnTileLine(hit.value.x + 1.0)
      decreases if isRayFacingLeft then VerticalPoint(px, py, tan, n).x
                else WINDOW_WIDTH - VerticalPoint(px, py, tan, n).x
    {
      var p := VerticalPoint(px, py, tan, n);
      VerticalPointOnGridLine(px, py, tan, n);
      if !Inside(p) then None
      else if HasWallAt(g, p.x, p.y) then Some(p)
      else VerticalScanFrom(g, px, py, tan, n + 1)
    }

    /** The vertical scan at a point outside the world ends without a hit. */
    lemma VerticalScanLeaves(g: Grid, px: real, py: real, tan: real, n: nat, x: real, y: real)
      requires FlagsConsistent()
      requires Point(x, y) == VerticalPoint(px, py, tan, n) && !Inside(Point(x, y))
      ensures VerticalScanFrom(g, px, py, tan, n) == None
    {
    }

    /** The vertical scan at a wall point inside the world returns that point. */
    lemma VerticalScanStops(g: Grid, px: real, py: real, tan: real, n: nat, x: real, y: real)
      requires FlagsConsistent()
      requires Point(x, y) == VerticalPoint(px, py, tan, n) && Inside(Point(x, y)) && HasWallAt(g, x, y)
      ensures VerticalScanFrom(g, px, py, tan, n) == Some(Point(x, y))
    {
    }

    /** The vertical scan at a free point inside the world goes on one tile further. */
    lemma VerticalScanMoves(g: Grid, px: real, py: real, tan: real, n: nat, x: real, y: real)
      requires FlagsConsistent()
      requires Point(x, y) == VerticalPoint(px, py, tan, n) && Inside(Point(x, y)) && !HasWallAt(g, x, y)
      ensures VerticalScanFrom(g, px, py, tan, n) == VerticalScanFrom(g, px, py, tan, n + 1)
      ensures VerticalPoint(px, py, tan, n + 1) == Point(x + VerticalStep(tan).x, y + VerticalStep(tan).y)
    {
    }

    /** The vertical scan returns the first wall point of its sequence of grid-line points. */
    lemma {:induction false} VerticalScanFindsFirstWall(g: Grid, px: real, py: real, tan: real, n: nat, m: nat)
      requires FlagsConsistent()
      requires n <= m
      requires forall j :: n <= j < m ==>
                 Inside(VerticalPoint(px, py, tan, j)) &&
                 !HasWallAt(g, VerticalPoint(px, py, tan, j).x, VerticalPoint(px, py, tan, j).y)
      ensures var p := VerticalPoint(px, py, tan, m);
              Inside(p) && HasWallAt(g, p.x, p.y) ==> VerticalScanFrom(g, px, py, tan, n) == Some(p)
      ensures !Inside(VerticalPoint(px, py, tan, m)) ==> VerticalScanFrom(g, px, py, tan, n) == None
      decreases m - n
    {
      if n < m {
        VerticalScanFindsFirstWall(g, px, py, tan, n + 1, m);
      }
    }

    /** The vertical scan can land exactly on the bottom edge of the world while still inside
        the loop guard: from (240, 176) with tan == 11 its first point is (256, 352), where the
        program's lookup selects a row that does not exist. */
    lemma VerticalScanReachesBottomEdge(g: Grid)
      requires FlagsConsistent() && isRayFacingRight && isRayFacingDown
      requires WellFormed(g)
      ensures VerticalPoint(240.0, 176.0, 11.0, 0) == Point(256.0, WINDOW_HEIGHT)
      ensures Inside(VerticalPoint(240.0, 176.0, 11.0, 0))
      ensures LookupAsWritten(g, 256.0, WINDOW_HEIGHT) == None
      ensures VerticalHit(g, 240.0, 176.0, 11.0) == Some(Point(256.0, WINDOW_HEIGHT))
    {
      assert CellIndex(240.0) == 7;
      AsWrittenThrowsOnBottomEdge(g);
      assert CellIndex(WINDOW_HEIGHT) == MAP_NUM_ROWS;
    }

    /** Result of verticalIntersect. */
    function VerticalHit(g: Grid, px: real, py: real, tan: real): (hit: Option<Point>)
      requires FlagsConsistent()
      ensures hit.Some? ==> Inside(hit.value) && HasWallAt(g, hit.value.x, hit.value.y)
      ensures hit.Some? && isRayFacingRight ==> OnTileLine(hit.value.x)
      ensures hit.Some? && isRayFacingLeft ==> OnTileLine(hit.value.x + 1.0)
    {
      VerticalScanFrom(g, px, py, tan, 0)
    }

    /** verticalIntersect: walk the vertical grid lines until a wall or the edge of the world
        (the canvas size, which equals the world size). */
    method VerticalIntersect(g: Grid, px: real, py: real, tan: real) returns (hit: Option<Point>)
      requires FlagsConsistent()
      ensures hit == VerticalHit(g, px, py, tan)
    {
      var interceptX := CellIndex(px) as real * TILE_SIZE;
      interceptX := interceptX + (if isRayFacingRight then TILE_SIZE else 0.0);
      var interceptY := InterceptY(px, py, interceptX, tan);

      var dx := TILE_SIZE;
      dx := if isRayFacingLeft then -dx else dx;
      var dy := TILE_SIZE * tan;
      dy := if isRayFacingUp && dy > 0.0 then -dy else dy;
      dy := if isRayFacingDown && dy < 0.0 then -dy else dy;

      if isRayFacingLeft {
        interceptX := interceptX - 1.0;
      }
      assert Point(dx, dy) == VerticalStep(tan);
      assert Point(interceptX, interceptY) == VerticalStart(px, py, tan);

      ghost var n: nat := 0;
      while 0.0 <= interceptX <= WINDOW_WIDTH && 0.0 <= interceptY <= WINDOW_HEIGHT
        invariant Point(interceptX, interceptY) == VerticalPoint(px, py, tan, n)
        invariant VerticalScanFrom(g, px, py, tan, n) == VerticalHit(g, px, py, tan)
        decreases if isRayFacingLeft then interceptX else WINDOW_WIDTH - interceptX
      {
        if HasWallAt(g, interceptX, interceptY) {
          VerticalScanStops(g, px, py, tan, n, interceptX, interceptY);
          return Some(Point(interceptX, interceptY));
        }
        VerticalScanMoves(g, px, py, tan, n, interceptX, interceptY);
        interceptX := interceptX + dx;
        interceptY := interceptY + dy;
        n := n + 1;
      }
      VerticalScanLeaves(g, px, py, tan, n, interceptX, interceptY);
      return None;
    }

    // ----------------------------------------------------------------------------- cast

    /** cast: run both scans and keep the resolved candidate as the ray's target. When neither
        scan finds a wall the program dereferences null and throws; here Cast reports failure
        and leaves the ray as it was. */
    method Cast(g: Grid, px: real, py: real, tan: real) returns (ok: bool)
      requires FlagsConsistent()
      modifies this
      ensures var r := Resolve(px, py, HorizontalHit(g, px, py, tan), VerticalHit(g, px, py, tan));
              ok == r.Some? &&
              (ok ==> target == r.value && distanceSq == DistSq(px, py, r.value)) &&
              (!ok ==> target == old(target) && distanceSq == old(distanceSq))
      ensures ok ==> Inside(target) && HasWallAt(g, target.x, target.y)
    {
      var horizontal := HorizontalIntersect(g, px, py, tan);
      var vertical := VerticalIntersect(g, px, py, tan);

      if vertical.None? {
        if horizontal.None? {
          return false;
        }
        distanceSq := DistSq(px, py, horizontal.value);
        target := horizontal.value;
      } else if horizontal.None? {
        distanceSq := DistSq(px, py, vertical.value);
        target := vertical.value;
      } else {
        var horizontalDist := DistSq(px, py, horizontal.value);
        var verticalDist := DistSq(px, py, vertical.value);
        if horizontalDist <= verticalDist {
          distanceSq := horizontalDist;
          target := horizontal.value;
        } else {
          distanceSq := verticalDist;
          target := vertical.value;
        }
      }
      ok := true;
    }
  }
}
