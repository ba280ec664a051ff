/** The field-of-view sweep: one ray per screen column, from the left edge of the field of
    view to the right, each cast against the map from the player's position. */
module Sweep {
  import opened Geometry
  import opened WorldMap
  import opened Angles
  import opened Rays
  import opened Players

  /** Field of view of the line-only demo (60 degrees) and of the 3D demo (80 degrees). */
  const FOV_BASIC: real := 60.0 * (PI / 180.0)
  const FOV_COLOURED: real := 80.0 * (PI / 180.0)

  /** Angle handed to the constructor of ray i: the left edge of the field of view plus i
      column widths. */
  function FanAngle(rotationAngle: real, fov: real, i: int): real
  {
    rotationAngle - fov / 2.0 + i as real * (fov / NUM_RAYS as real)
  }

  /** Consecutive rays are one column width apart, from left to right. */
  lemma FanAngleStep(rotationAngle: real, fov: real, i: int)
    ensures FanAngle(rotationAngle, fov, i + 1) == FanAngle(rotationAngle, fov, i) + fov / NUM_RAYS as real
  {
    assert (i + 1) as real * (fov / NUM_RAYS as real) == i as real * (fov / NUM_RAYS as real) + fov / NUM_RAYS as real;
  }

  /** The fan covers [facing - fov/2, facing + fov/2), symmetric about the facing angle, with
      the angles strictly increasing in column order. */
  lemma {:induction false} FanAngleSpan(rotationAngle: real, fov: real, i: int, j: int)
    requires fov > 0.0
    requires 0 <= i < j < NUM_RAYS
    ensures rotationAngle - fov / 2.0 <= FanAngle(rotationAngle, fov, i)
    ensures FanAngle(rotationAngle, fov, i) < FanAngle(rotationAngle, fov, j)
    ensures FanAngle(rotationAngle, fov, j) < rotationAngle + fov / 2.0
  {
    var w := fov / NUM_RAYS as real;
    assert w > 0.0;
    assert i as real * w >= 0.0;
    assert j as real * w - i as real * w == (j - i) as real * w;
    assert (j - i) as real * w >= w;
    assert j as real * w <= (NUM_RAYS - 1) as real * w;
    assert NUM_RAYS as real * w == fov;
  }

  /** The target the program's cast gives to ray r from the caster at (px, py), if any. */
  function CastResult(g: Grid, r: Ray, px: real, py: real, tan: real -> real): Option<Point>
    requires r.FlagsConsistent()
  {
    Resolve(px, py, r.HorizontalHit(g, px, py, tan(r.rayAngle)), r.VerticalHit(g, px, py, tan(r.rayAngle)))
  }

  /** castAllRays: rebuild the list of rays, NUM_RAYS of them in column order when every cast
      succeeds. A ray for which neither scan finds a wall makes the program throw inside cast;
      the sweep then stops with ok == false, the rays pushed before it, and the ray whose cast
      failed. tan stands for Math.tan. */
  method CastAllRays(g: Grid, player: Player, fov: real, tan: real -> real)
    returns (ok: bool, rays: seq<Ray>, failed: Ray)
    ensures ok ==> |rays| == NUM_RAYS
    ensures !ok ==> |rays| < NUM_RAYS
    ensures !ok ==>
              failed.rayAngle == NormalizeAngle(FanAngle(player.rotationAngle, fov, |rays|)) &&
              failed.FlagsOfAngle() && failed.FlagsConsistent() &&
              CastResult(g, failed, player.x, player.y, tan) == None
    ensures forall i :: 0 <= i < |rays| ==>
              rays[i].rayAngle == NormalizeAngle(FanAngle(player.rotationAngle, fov, i)) &&
              rays[i].FlagsOfAngle() && rays[i].FlagsConsistent()
    ensures forall i :: 0 <= i < |rays| ==>
              CastResult(g, rays[i], player.x, player.y, tan) == Some(rays[i].target) &&
              rays[i].distanceSq == DistSq(player.x, player.y, rays[i].target)
  {
    var rayAngle := player.rotationAngle - fov / 2.0;

    rays := [];
    failed := new Ray(0.0);
    // What each cast produced, kept apart from the rays' fields so that the facts about the
    // casts do not depend on the heap.
    ghost var targets: seq<Point> := [];
    ghost var dists: seq<real> := [];

    for i := 0 to NUM_RAYS
      invariant |rays| == i && |targets| == i && |dists| == i
      invariant rayAngle == FanAngle(player.rotationAngle, fov, i)
      invariant forall k {:trigger targets[k]} :: 0 <= k < i ==>
                  rays[k].rayAngle == NormalizeAngle(FanAngle(player.rotationAngle, fov, k)) &&
                  rays[k].FlagsOfAngle() && rays[k].FlagsConsistent() &&
                  CastResult(g, rays[k], player.x, player.y, tan) == Some(targets[k]) &&
                  dists[k] == DistSq(player.x, player.y, targets[k])
      invariant forall k :: 0 <= k < i ==> rays[k].target == targets[k] && rays[k].distanceSq == dists[k]
    {
      var ray := new Ray(rayAngle);
      assert ray.FlagsOfAngle();
      var cast := ray.Cast(g, player.x, player.y, tan(ray.rayAngle));
      if !cast {
        ok, failed := false, ray;
        return;
      }
      rays := rays + [ray];
      targets := targets + [ray.target];
      dists := dists + [ray.distanceSq];

      FanAngleStep(player.rotationAngle, fov, i);
      rayAngle := rayAngle + fov / NUM_RAYS as real;
    }
    ok := true;
  }
}
