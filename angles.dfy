/** Angle normalisation and the facing flags a ray derives from its angle. Angles are in
    radians; y grows downwards, so angles in (0, PI) point down the screen. */
module Angles {
  import opened Geometry

  /** d is an integer number of full turns. */
  predicate IsWholeTurns(d: real)
  {
    (d / TAU).Floor as real * TAU == d
  }

  /** Rounding toward zero, as the remainder operator of the program rounds its quotient. */
  function Trunc(z: real): (n: int)
    ensures z >= 0.0 ==> 0.0 <= z - n as real < 1.0
    ensures z < 0.0 ==> -1.0 < z - n as real <= 0.0
  {
    if z >= 0.0 then z.Floor else -((-z).Floor)
  }

  /** angle % TAU: the remainder keeps the sign of the angle and is a whole number of turns
      away from it. */
  function RemainderTau(angle: real): (r: real)
    ensures angle >= 0.0 ==> 0.0 <= r < TAU
    ensures angle < 0.0 ==> -TAU < r <= 0.0
    ensures IsWholeTurns(angle - r)
  {
    var q := Trunc(angle / TAU);
    assert angle - (angle - q as real * TAU) == q as real * TAU;
    assert (q as real * TAU / TAU).Floor == q;
    angle - q as real * TAU
  }

  /** normalizeAngle: reduce into [0, TAU), wrapping a negative remainder once. */
  function NormalizeAngle(angle: real): (r: real)
    ensures 0.0 <= r < TAU
    ensures IsWholeTurns(angle - r)
  {
    var a := RemainderTau(angle);
    if a < 0.0 then
      var k := ((angle - a) / TAU).Floor;
      assert angle - a == k as real * TAU;
      assert angle - (TAU + a) == (k - 1) as real * TAU;
      assert ((k - 1) as real * TAU / TAU).Floor == k - 1;
      TAU + a
    else a
  }

  /** Two values of [0, TAU) a whole number of turns apart are equal. */
  lemma WholeTurnsApartInRange(r: real, s: real)
    requires 0.0 <= r < TAU && 0.0 <= s < TAU
    requires IsWholeTurns(r - s)
    ensures r == s
  {
    var k := ((r - s) / TAU).Floor;
    assert r - s == k as real * TAU;
    assert k == 0;
  }

  lemma WholeTurnsDifference(a: real, b: real)
    requires IsWholeTurns(a) && IsWholeTurns(b)
    ensures IsWholeTurns(a - b)
  {
    var i, j := (a / TAU).Floor, (b / TAU).Floor;
    assert a - b == (i - j) as real * TAU;
    assert ((i - j) as real * TAU / TAU).Floor == i - j;
  }

  /** NormalizeAngle is the only value of [0, TAU) a whole number of turns away from the angle. */
  lemma NormalizeAngleUnique(angle: real, r: real)
    requires 0.0 <= r < TAU && IsWholeTurns(angle - r)
    ensures NormalizeAngle(angle) == r
  {
    var n := NormalizeAngle(angle);
    WholeTurnsDifference(angle - r, angle - n);
    assert (angle - r) - (angle - n) == n - r;
    WholeTurnsApartInRange(n, r);
  }

  /** An angle already in [0, TAU) is left alone. */
  lemma NormalizeAngleFixes(angle: real)
    requires 0.0 <= angle < TAU
    ensures NormalizeAngle(angle) == angle
  {
    assert IsWholeTurns(angle - angle) by {
      assert (0.0 / TAU).Floor == 0;
    }
    NormalizeAngleUnique(angle, angle);
  }

  /** Adding whole turns to an angle does not change its normal form. */
  lemma NormalizeAnglePeriodic(angle: real, d: real)
    requires IsWholeTurns(d)
    ensures NormalizeAngle(angle + d) == NormalizeAngle(angle)
  {
    var n := NormalizeAngle(angle);
    assert IsWholeTurns(-d) by {
      var k := (d / TAU).Floor;
      assert -d == (-k) as real * TAU;
      assert ((-k) as real * TAU / TAU).Floor == -k;
    }
    WholeTurnsDifference(angle - n, -d);
    assert (angle - n) - (-d) == angle + d - n;
    NormalizeAngleUnique(angle + d, n);
  }

  /** Normalising twice is normalising once. */
  lemma NormalizeAngleIdempotent(angle: real)
    ensures NormalizeAngle(NormalizeAngle(angle)) == NormalizeAngle(angle)
  {
    NormalizeAngleFixes(NormalizeAngle(angle));
  }

  /** A ray faces down (towards larger y) when its angle is strictly between 0 and PI. */
  predicate FacingDown(angle: real)
  {
    angle > 0.0 && angle < PI
  }

  /** A ray faces right when its angle is below PI/2 or above 3PI/2. */
  predicate FacingRight(angle: real)
  {
    angle < 0.5 * PI || angle > 1.5 * PI
  }
}
