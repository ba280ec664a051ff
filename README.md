# Grid raycaster: a Dafny model

This project models the discrete core of a pair of p5.js grid raycaster demos:
`Raycasting.js` (a top-down view that draws one line per ray) and `Raycasting_b.js`
(the same engine with coloured materials, a fogged minimap and a projected 3D view).
Both share one engine. A player stands on an 11 x 15 tile map with 32-unit tiles. Each
frame the player turns and walks by its arrow-key intents. A move into a wall is refused.
Then a fan of 480 rays is cast across the field of view. Each ray runs two scans, one
along horizontal grid lines and one along vertical grid lines. Each scan steps one tile at
a time until it meets a wall or leaves the world. The nearer of the two hits is the ray's
target, and a tie goes to the horizontal scan.

Modules, one per component:

- `Geometry` (geometry.dfy): world constants, `Point`, the world box, grid lines, squared distance.
- `WorldMap` (world_map.dfy): `hasWallAt`, the material colour table and `getColourAt`.
- `Maps` (maps.dfy): the two demo maps and their shape.
- `Angles` (angles.dfy): `normalizeAngle` and the facing predicates.
- `Rays` (rays.dfy): class `Ray`, with the constructor, both scans and `cast`.
- `Players` (player.dfy): class `Player` with `update`, plus `keyPressed` and `keyReleased`.
- `Sweep` (sweep.dfy): `castAllRays`.

Both demos contain the same `hasWallAt`, `update`, `Ray` constructor, scans, key handlers,
`normalizeAngle` and `castAllRays`. Each member below models both copies. The lines of
`Raycasting.js` that correspond are 30-37, 65-77, 94-103, 141-187, 189-237, 246-252,
254-276 and 278-296. The demos differ in their map, their field of view (60 or 80
degrees) and their turn speed (0.5 or 2.5 degrees). These become constants: `Maps.BASIC_MAP`,
`Maps.COLOURED_MAP`, `Sweep.FOV_BASIC`, `Sweep.FOV_COLOURED`,
`Players.ROTATION_SPEED_BASIC` and `Players.ROTATION_SPEED_COLOURED`. `cast` in
`Raycasting.js` stores nothing. It draws a line to the point that `Rays.Ray.Cast` stores
as `target`.

Numbers are exact reals. `PI` is the exact rational value of the double `Math.PI`.
`Math.tan`, `Math.cos` and `Math.sin` are parameters: a value `tan` for one ray, and
functions `tan`, `cos` and `sin` for the sweep and the player. The globals `grid`,
`player` and `rays` become explicit arguments and results.

## Model

| member | source | states |
|---|---|---|
| `Geometry.DistSq` | Raycasting_b.js:15-18 | The squared distance between the caster and a point is non-negative. |
| `Geometry.SquaresOrderAsRoots` | Raycasting_b.js:15-18 | For non-negative distances, their squares compare (<= and ==) exactly as the distances do, so comparing `DistSq` values picks the same candidate as comparing `calculatedistance` values. |
| `WorldMap.HasWallAt` | Raycasting_b.js:68-75 | Every point outside [0,W] x [0,H] is a wall. On an 11 x 15 grid, a point of [0,W) x [0,H) maps to the cell (floor(y/32), floor(x/32)), which is in range. The point is a wall iff that cell's code is non-zero. The closed right and bottom edges are walls. |
| `WorldMap.LookupAsWritten` | Raycasting_b.js:68-75 | hasWallAt exactly as written. None stands for the TypeError at row 11. A column past the row end reads `undefined`, which counts as a wall. Out of the map it gives Some(true). |
| `WorldMap.AsWrittenAgrees` | Raycasting.js:30-37 | Wherever the written lookup returns, it equals `HasWallAt`. It throws exactly on the bottom edge y == H inside the map. |
| `WorldMap.AsWrittenThrowsOnBottomEdge` | Raycasting_b.js:74 | The written lookup throws at (240, 352), where `HasWallAt` reports a wall. |
| `WorldMap.FreePointIsInEmptyCell` | Raycasting_b.js:69-74 | A free point lies in [0,W) x [0,H), and its cell has code 0. |
| `WorldMap.FreePointIsInterior` | Raycasting.js:30-37 | On a map with a solid border, every free point is at least one tile from each edge of the world. |
| `WorldMap.EmptyRegionIsFree` | Raycasting.js:34-36 | Every point of a rectangle of empty cells is free. |
| `WorldMap.ColourOf` | Raycasting_b.js:58-62 | Codes 0..4 map to the fixed colours, and the alpha is passed through unchanged. Code 0 is black. Other codes have no colour. |
| `WorldMap.ColourOfInjective` | Raycasting_b.js:59-62 | Distinct material codes have distinct RGB triples. |
| `WorldMap.ColourAt` | Raycasting_b.js:47-66 | getColourAt is the table colour of grid[row][col]. A column outside the row gives no colour. A missing row is excluded because the program throws there. |
| `WorldMap.WallHitHasMaterialColour` | Raycasting_b.js:362 | A wall hit off the right and bottom edges colours its strip from a cell in range. On a grid of codes 0..4, that colour exists and is not the empty-cell black. |
| `Maps.BasicMapShape` | Raycasting.js:15-27 | The line-only map is 11 x 15, has only codes 0/1 and has a solid border. |
| `Maps.ColouredMapShape` | Raycasting_b.js:33-45 | The coloured map is 11 x 15, has only codes 0..4 and has a solid border. |
| `Maps.StartIsFree` | Raycasting_b.js:105-106 | The starting point (W/2, H/2) is free on both maps. |
| `Angles.RemainderTau` | Raycasting_b.js:21 | `angle % 2PI` keeps the sign of the angle. It lies strictly within one turn of zero and differs from the angle by whole turns. |
| `Angles.NormalizeAngle` | Raycasting_b.js:20-26 | The result lies in [0, 2PI) and differs from the input by a whole number of turns. |
| `Angles.NormalizeAngleUnique` | Raycasting_b.js:20-26 | Any value of [0, 2PI) a whole number of turns from the angle is the normalised angle. |
| `Angles.NormalizeAngleFixes` | Raycasting.js:246-252 | normalizeAngle is the identity on [0, 2PI). |
| `Angles.NormalizeAnglePeriodic` | Raycasting_b.js:21-25 | Adding whole turns to an angle does not change its normalised value. |
| `Angles.NormalizeAngleIdempotent` | Raycasting_b.js:139 | Normalising an already normalised ray angle changes nothing. |
| `Rays.Ray.constructor` | Raycasting_b.js:137-146 | rayAngle is the normalised angle. Facing down iff 0 < angle < PI, and up is its negation. Facing right iff angle < PI/2 or angle > 3PI/2, and left is its negation. |
| `Rays.Ray.HorizontalStep` | Raycasting_b.js:212-217 | dy is -32 iff facing up, else +32. dx is +-32/tan, non-zero, and positive iff facing right. |
| `Rays.Ray.HorizontalPointOnGridLine` | Raycasting_b.js:204-221 | Every point of the horizontal scan has y on a grid line when facing down, and one unit above a grid line when facing up. |
| `Rays.Ray.HorizontalScanFrom` | Raycasting_b.js:224-240 | The walk ends. Any point it returns is inside the world, is a wall and lies on the grid line (or one unit above it). |
| `Rays.Ray.HorizontalScanFindsFirstWall` | Raycasting.js:167-184 | The walk returns the first grid-line point that is a wall, and returns none when the first non-free point is outside the world. |
| `Rays.Ray.HorizontalHit` | Raycasting_b.js:197-241 | tan == 0 gives none. Any hit is inside the world, is a wall, and lies on a horizontal grid line (one unit above it when facing up). |
| `Rays.Ray.HorizontalIntersect` | Raycasting_b.js:197-243 | The loop returns exactly `HorizontalHit`, the first wall point of the grid-line walk or none. |
| `Rays.Ray.VerticalStep` | Raycasting_b.js:260-265 | dx is -32 iff facing left, else +32. dy is +-32*tan, with a positive dy only when facing down and a negative dy only when facing up. |
| `Rays.Ray.VerticalPointOnGridLine` | Raycasting_b.js:252-269 | Every point of the vertical scan has x on a grid line when facing right, and one unit left of a grid line when facing left. |
| `Rays.Ray.VerticalScanFrom` | Raycasting_b.js:272-290 | The walk ends. Any point it returns is inside the world, is a wall and is aligned to a vertical grid line. |
| `Rays.Ray.VerticalScanFindsFirstWall` | Raycasting.js:215-234 | The vertical walk returns the first grid-line point that is a wall, or none when it first leaves the world. |
| `Rays.Ray.VerticalHit` | Raycasting_b.js:245-291 | Any hit is inside the world, is a wall, and lies on a vertical grid line (one unit left of it when facing left). |
| `Rays.Ray.VerticalIntersect` | Raycasting.js:189-237 | The loop returns exactly `VerticalHit`, the first wall point of the grid-line walk or none. |
| `Rays.Ray.VerticalScanReachesBottomEdge` | Raycasting_b.js:257-273 | A right- and down-facing ray from (240, 176) with tan 11 first visits (256, 352). That point passes the loop guard, and the written lookup throws there. |
| `Rays.Resolve` | Raycasting.js:113-136 | A missing candidate yields the other. Of two candidates the result is one of them and no farther than either. A tie goes to horizontal, and a vertical result is strictly nearer. |
| `Rays.Ray.Cast` | Raycasting_b.js:149-194 | The target is the resolved candidate and distanceSq is its squared distance. When both scans miss (the program throws), nothing changes and `ok` is false. |
| `Players.Player.constructor` | Raycasting.js:54-63 | The player starts at (W/2, H/2) facing PI/2, with both intents zero, speed 2 and radius 13. |
| `Players.Player.Update` | Raycasting_b.js:115-127 | The rotation always grows by turnDirection*rotationSpeed and is not normalised. The position becomes the candidate iff it is not a wall, else it is unchanged. Walk 0 leaves the position unchanged. Standing in free space is preserved. |
| `Players.KeyPressed` | Raycasting.js:254-264 | UP sets walk 1, DOWN walk -1, RIGHT turn 1, LEFT turn -1. The other intent and the pose are unchanged, and any other key changes nothing. |
| `Players.KeyReleased` | Raycasting.js:266-276 | UP or DOWN zeroes walk, and RIGHT or LEFT zeroes turn, whichever arrow set it. Nothing else changes. |
| `Sweep.FanAngleStep` | Raycasting.js:292 | Each ray's angle is the previous one plus FOV/NUM_RAYS. |
| `Sweep.FanAngleSpan` | Raycasting.js:282-292 | Fan angles strictly increase with the column and lie in [facing - FOV/2, facing + FOV/2). |
| `Sweep.CastAllRays` | Raycasting.js:278-296 | On success there are exactly NUM_RAYS rays, and after a failure fewer. Ray i has angle normalizeAngle(facing - FOV/2 + i*FOV/NUM_RAYS) and facing flags computed from that angle, and its target is the resolved hit of its two scans. A ray whose scans both miss stops the sweep: `ok` is false, the rays before it are kept, and the returned failed ray has the next fan angle, flags computed from it, and a cast result of none. |

## Left out

- Drawing: `Map.render`, `Player.render`, `setup`, `draw`, `render3dWalls` and every p5 call (`fill`, `rect`, `line`, `stroke`, `circle`, `clear`, `createCanvas`). The only part of `render3dWalls` kept is its cell lookup (`WorldMap.WallHitHasMaterialColour`).
- The 3D projection and both alpha curves (Raycasting_b.js:87, 353-361). They are floating-point trigonometry and division.
- Floating point in general. The model uses exact reals, so it does not capture rounding in the accumulated `rayAngle` or in the intercepts. JavaScript's `%` is exact, but the sum `(2 * Math.PI) + angle` (Raycasting_b.js:23) is rounded.
- Angles.NormalizeAngle: ensures a result below TAU. In the program, a negative remainder of magnitude below about 4.4e-16 makes that sum round to exactly 2π, so `normalizeAngle` can return 2π, which the model excludes.
- The values of `Math.tan`, `Math.cos` and `Math.sin`. They are parameters, and nothing relates `tan` to the ray's angle.
- Geometry.DistSq: stores the squared distance. `calculatedistance` takes a square root, which is not modelled.
- Rays.Resolve: compares squared distances. With doubles, two different squared distances can round to equal square roots, which then tie toward the horizontal hit.
- Rays.Ray.Cast: when both scans miss, the program throws a TypeError. The model reports `ok == false` instead.
- The `columnId` counter of `castAllRays` in `Raycasting.js`. It is passed to `cast`, which ignores it.
- The repeated definitions of `normalizeAngle` (Raycasting_b.js:370-376, Raycasting.js:298-304). They are identical to the first.
- The player's radius. It is stored and drawn but never used in collision.
- Special cases for the axis-aligned angles: the scans have none, and neither does the model. With tan == 0 the horizontal scan gives no hit. A huge tan makes the vertical scan leave the world, unless its first point is already a wall: a left-facing ray that starts on a vertical grid line tests (px - 1, py) first. On the line-only demo's map, from (96, 200) facing left with tan 1e16, the vertical hit is (95, 200).

## Findings

| source | as written | input that shows it | evidently intended | confidence | as-written member | corrected member |
|---|---|---|---|---|---|---|
| Raycasting_b.js:68-75 (also Raycasting.js:30-37) | The bounds test admits y == WINDOW_HEIGHT. Row floor(352/32) = 11 does not exist, so `grid[11][col]` throws a TypeError. | `hasWallAt(256, 352)`. A ray facing right and down from (240, 176) with tan 11 reaches it on the vertical scan's first step (`Rays.Ray.VerticalScanReachesBottomEdge`). | The bottom edge is a wall, like every other point outside the map and like the right edge x == WINDOW_WIDTH. With that fix the throw moves to the 3D demo's colour lookup: a target on y == WINDOW_HEIGHT makes `getColourAt` (Raycasting_b.js:55, called at 362) read `grid[11]`, which is why `WorldMap.WallHitHasMaterialColour` requires y < WINDOW_HEIGHT. | medium: it needs y to land exactly on 352 (not executed) | `WorldMap.AsWrittenThrowsOnBottomEdge` | `WorldMap.HasWallAt` |
