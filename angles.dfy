/** Rotation angles of the widget, in whole degrees. */
module Angles {

  /** The angle `qNormalizeAngle` leaves behind, in closed form. The result
      is in [0, 360] and congruent to the input modulo 360; it is 360 (not 0)
      exactly for the positive multiples of 360, and an input already in
      [0, 360] is returned as it is. */
  function NormalizedAngle(a: int): (r: int)
    ensures 0 <= r <= 360
    ensures (r - a) % 360 == 0
    ensures r == 360 <==> a > 0 && a % 360 == 0
    ensures 0 <= a <= 360 ==> r == a
  {
    if a < 0 then a % 360 else if a <= 360 then a else (a - 1) % 360 + 1
  }

  /** The three facts in `NormalizedAngle`'s contract leave no choice. */
  lemma NormalizedAngleUnique(a: int, r: int)
    requires 0 <= r <= 360
    requires (r - a) % 360 == 0
    requires r == 360 <==> a > 0 && a % 360 == 0
    ensures r == NormalizedAngle(a)
  {
    var n := NormalizedAngle(a);
    assert (r - n) % 360 == 0;
    assert -360 < r - n < 360;
  }

  /** `qNormalizeAngle`: add 360 while negative, then subtract 360 while
      above 360. */
  method NormalizeAngle(angle0: int) returns (angle: int)
    ensures angle == NormalizedAngle(angle0)
  {
    angle := angle0;
    while angle < 0
      invariant (angle - angle0) % 360 == 0
      invariant angle0 < 0 ==> angle < 360
      invariant angle0 >= 0 ==> angle == angle0
      decreases -angle
    {
      angle := angle + 360;
    }
    while angle > 360
      invariant (angle - angle0) % 360 == 0
      invariant angle >= 0
      invariant angle0 < 0 ==> angle < 360
      invariant angle0 > 0 ==> angle > 0
      decreases angle
    {
      angle := angle - 360;
    }
    NormalizedAngleUnique(angle0, angle);
  }

  /** Sample values: a negative angle wraps up, 360 is kept, larger angles
      wrap down. */
  lemma NormalizedAngleSamples()
    ensures NormalizedAngle(-30) == 330
    ensures NormalizedAngle(360) == 360
    ensures NormalizedAngle(720) == 360
    ensures NormalizedAngle(-360) == 0
    ensures NormalizedAngle(725) == 5
  {
  }
}
