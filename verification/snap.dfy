/**
 * Snapping a 2D sketch bearing to one of the six axes of the isometric
 * projection: the bearing is reduced modulo 360 and the nearest standard
 * bearing, by circular distance, gives the 3D direction.
 */
module Snap {
  import opened Vectors

  /** Python's `a % 360` on floats: the result takes the sign of the divisor. */
  function Mod360(a: real): (r: real)
    ensures 0.0 <= r < 360.0
    ensures (a - r) / 360.0 == ((a - r) / 360.0).Floor as real
  {
    a - 360.0 * ((a / 360.0).Floor as real)
  }

  function Abs(x: real): real {
    if x < 0.0 then -x else x
  }

  /** `angle_distance`: the circular distance between two bearings, in degrees. */
  function AngleDistance(a1: real, a2: real): (d: real)
    ensures 0.0 <= d <= 180.0
  {
    var phi := Mod360(Abs(a2 - a1));
    if phi <= 360.0 - phi then phi else 360.0 - phi
  }

  /** The six standard bearings of the isometric sketch, in the order they are listed. */
  const StandardAngles: seq<real> := [30.0, 90.0, 150.0, 210.0, 270.0, 330.0]

  /** The axis each standard bearing stands for: +X, -Z, -Y, -X, +Z, +Y. */
  const StandardDirections: seq<Vec3> := [
    Vec3(1.0, 0.0, 0.0), Vec3(0.0, 0.0, -1.0), Vec3(0.0, -1.0, 0.0),
    Vec3(-1.0, 0.0, 0.0), Vec3(0.0, 0.0, 1.0), Vec3(0.0, 1.0, 0.0)]

  /** Index of the first standard bearing, from `i` on, at the least distance from `a`. */
  function ClosestFrom(a: real, i: nat): (k: nat)
    requires i < 6
    ensures i <= k < 6
    ensures forall j :: i <= j < 6 ==> AngleDistance(StandardAngles[k], a) <= AngleDistance(StandardAngles[j], a)
    ensures forall j :: i <= j < k ==> AngleDistance(StandardAngles[j], a) > AngleDistance(StandardAngles[k], a)
    decreases 6 - i
  {
    if i == 5 then 5
    else
      var rest := ClosestFrom(a, i + 1);
      if AngleDistance(StandardAngles[i], a) <= AngleDistance(StandardAngles[rest], a) then i else rest
  }

  /** `_get_3d_direction_from_angle`: the axis of the nearest standard bearing, the first one listed on a tie. */
  function SnapDirection(angleDeg: real): (v: Vec3)
    ensures v in StandardDirections
  {
    StandardDirections[ClosestFrom(Mod360(angleDeg), 0)]
  }

  /** A unit vector along one of the three axes. */
  predicate IsAxisUnit(v: Vec3) {
    Dot(v, v) == 1.0 && ((v.x == 0.0 && v.y == 0.0) || (v.x == 0.0 && v.z == 0.0) || (v.y == 0.0 && v.z == 0.0))
  }

  lemma StandardAxes(i: nat)
    requires i < 6
    ensures IsAxisUnit(StandardDirections[i])
  {
    var v := StandardDirections[i];
    if i == 0 { assert v == Vec3(1.0, 0.0, 0.0); }
    else if i == 1 { assert v == Vec3(0.0, 0.0, -1.0); }
    else if i == 2 { assert v == Vec3(0.0, -1.0, 0.0); }
    else if i == 3 { assert v == Vec3(-1.0, 0.0, 0.0); }
    else if i == 4 { assert v == Vec3(0.0, 0.0, 1.0); }
    else { assert v == Vec3(0.0, 1.0, 0.0); }
  }

  /** Every snapped direction is a unit vector along one axis. */
  lemma SnapIsAxis(angleDeg: real)
    ensures IsAxisUnit(SnapDirection(angleDeg))
  {
    StandardAxes(ClosestFrom(Mod360(angleDeg), 0));
  }

  lemma FloorShift(x: real)
    ensures (x + 1.0).Floor == x.Floor + 1
  {
  }

  /** Bearings a full turn apart snap alike. */
  lemma SnapPeriodic(angleDeg: real)
    ensures SnapDirection(angleDeg + 360.0) == SnapDirection(angleDeg)
  {
    FloorShift(angleDeg / 360.0);
    assert (angleDeg + 360.0) / 360.0 == angleDeg / 360.0 + 1.0;
    assert Mod360(angleDeg + 360.0) == Mod360(angleDeg);
  }

  /** A standard bearing snaps to its own axis. */
  lemma SnapExact(i: nat)
    requires i < 6
    ensures SnapDirection(StandardAngles[i]) == StandardDirections[i]
  {
    var a := StandardAngles[i];
    assert Mod360(a) == a;
    assert AngleDistance(a, a) == 0.0;
    forall j | 0 <= j < 6 && j != i
      ensures AngleDistance(StandardAngles[j], a) > 0.0
    {
    }
  }
}
