/** The player: a pose (position and facing angle) integrated once per frame from two signed
    intents, and the arrow-key handlers that set those intents. Collision is point-based: the
    radius is only drawn, never tested. */
module Players {
  import opened Geometry
  import opened WorldMap

  const MOVE_SPEED: real := 2.0
  const PLAYER_RADIUS: real := 13.0
  /** Turn per frame: half a degree in the line-only demo, two and a half in the 3D demo. */
  const ROTATION_SPEED_BASIC: real := 0.5 * (PI / 180.0)
  const ROTATION_SPEED_COLOURED: real := 2.5 * (PI / 180.0)

  /** The key of a key event: one of the four arrows or any other key. */
  datatype Key = UpArrow | DownArrow | RightArrow | LeftArrow | OtherKey(code: int)

  class Player {
    var x: real
    var y: real
    const radius: real
    /** -1 turn left, 0 no turn, +1 turn right. */
    var turnDirection: int
    /** -1 walk back, 0 stand, +1 walk forward. */
    var walkDirection: int
    /** Facing angle in radians; Update adds to it and never normalises it. */
    var rotationAngle: real
    const moveSpeed: real
    const rotationSpeed: real

    /** A player at the centre of the window, facing down the screen, standing still. */
    constructor (rotationSpeed: real)
      ensures x == WINDOW_WIDTH / 2.0 && y == WINDOW_HEIGHT / 2.0
      ensures radius == PLAYER_RADIUS
      ensures turnDirection == 0 && walkDirection == 0
      ensures rotationAngle == PI / 2.0
      ensures moveSpeed == MOVE_SPEED && this.rotationSpeed == rotationSpeed
      ensures IntentsValid()
    {
      x := WINDOW_WIDTH / 2.0;
      y := WINDOW_HEIGHT / 2.0;
      radius := PLAYER_RADIUS;
      turnDirection := 0;
      walkDirection := 0;
      rotationAngle := PI / 2.0;
      moveSpeed := MOVE_SPEED;
      this.rotationSpeed := rotationSpeed;
    }

    /** Both intents are -1, 0 or +1. */
    predicate IntentsValid()
      reads this
    {
      -1 <= turnDirection <= 1 && -1 <= walkDirection <= 1
    }

    /** The player stands at a point that is not a wall (hence inside the world). */
    predicate InFreeSpace(g: Grid)
      reads this
    {
      !HasWallAt(g, x, y)
    }

    /** update: turn by turnDirection * rotationSpeed, then walk walkDirection * moveSpeed along
        the new facing; the move is kept only when its end point is not a wall. cos and sin
        stand for Math.cos and Math.sin. */
    method Update(g: Grid, cos: real -> real, sin: real -> real)
      modifies this
      ensures rotationAngle == old(rotationAngle) + old(turnDirection) as real * rotationSpeed
      ensures turnDirection == old(turnDirection) && walkDirection == old(walkDirection)
      ensures var step := walkDirection as real * moveSpeed;
              var nx := old(x) + cos(rotationAngle) * step;
              var ny := old(y) + sin(rotationAngle) * step;
              if !HasWallAt(g, nx, ny) then x == nx && y == ny else x == old(x) && y == old(y)
      ensures walkDirection == 0 ==> x == old(x) && y == old(y)
      ensures old(InFreeSpace(g)) ==> InFreeSpace(g)
    {
      rotationAngle := rotationAngle + turnDirection as real * rotationSpeed;

      var moveStep := walkDirection as real * moveSpeed;

      var newPlayerX := x + cos(rotationAngle) * moveStep;
      var newPlayerY := y + sin(rotationAngle) * moveStep;

      if !HasWallAt(g, newPlayerX, newPlayerY) {
        x := newPlayerX;
        y := newPlayerY;
      }
      assert newPlayerX == old(x) + cos(rotationAngle) * (walkDirection as real * moveSpeed);
      assert newPlayerY == old(y) + sin(rotationAngle) * (walkDirection as real * moveSpeed);
    }
  }

  /** keyPressed: an arrow sets one intent; any other key changes nothing. */
  method KeyPressed(player: Player, key: Key)
    modifies player
    ensures key == UpArrow ==> player.walkDirection == 1 && player.turnDirection == old(player.turnDirection)
    ensures key == DownArrow ==> player.walkDirection == -1 && player.turnDirection == old(player.turnDirection)
    ensures key == RightArrow ==> player.turnDirection == 1 && player.walkDirection == old(player.walkDirection)
    ensures key == LeftArrow ==> player.turnDirection == -1 && player.walkDirection == old(player.walkDirection)
    ensures key.OtherKey? ==> player.turnDirection == old(player.turnDirection) && player.walkDirection == old(player.walkDirection)
    ensures player.x == old(player.x) && player.y == old(player.y) && player.rotationAngle == old(player.rotationAngle)
    ensures old(player.IntentsValid()) ==> player.IntentsValid()
  {
    if key == UpArrow {
      player.walkDirection := 1;
    } else if key == DownArrow {
      player.walkDirection := -1;
    } else if key == RightArrow {
      player.turnDirection := 1;
    } else if key == LeftArrow {
      player.turnDirection := -1;
    }
  }

  /** keyReleased: releasing an arrow zeroes its whole axis, whichever arrow of that axis set it;
      any other key changes nothing. */
  method KeyReleased(player: Player, key: Key)
    modifies player
    ensures key == UpArrow || key == DownArrow ==>
              player.walkDirection == 0 && player.turnDirection == old(player.turnDirection)
    ensures key == RightArrow || key == LeftArrow ==>
              player.turnDirection == 0 && player.walkDirection == old(player.walkDirection)
    ensures key.OtherKey? ==> player.turnDirection == old(player.turnDirection) && player.walkDirection == old(player.walkDirection)
    ensures player.x == old(player.x) && player.y == old(player.y) && player.rotationAngle == old(player.rotationAngle)
    ensures old(player.IntentsValid()) ==> player.IntentsValid()
  {
    if key == UpArrow {
      player.walkDirection := 0;
    } else if key == DownArrow {
      player.walkDirection := 0;
    } else if key == RightArrow {
      player.turnDirection := 0;
    } else if key == LeftArrow {
      player.turnDirection := 0;
    }
  }
}
