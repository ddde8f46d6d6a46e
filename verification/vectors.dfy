/**
 * The small 3D vector type the pipeline computes with, and the floating-point
 * mathematics it borrows from Python's `math` module.  The latter is not
 * modelled numerically: square root, atan2, acos, tan, sin, pi and
 * `round(x, 6)` are fields of a `MathOracle` that every caller passes in.
 */
module Vectors {

  datatype Vec3 = Vec3(x: real, y: real, z: real)

  const Origin: Vec3 := Vec3(0.0, 0.0, 0.0)

  function Add(a: Vec3, b: Vec3): Vec3 {
    Vec3(a.x + b.x, a.y + b.y, a.z + b.z)
  }

  function Sub(a: Vec3, b: Vec3): Vec3 {
    Vec3(a.x - b.x, a.y - b.y, a.z - b.z)
  }

  function Scale(a: Vec3, s: real): Vec3 {
    Vec3(a.x * s, a.y * s, a.z * s)
  }

  function Neg(a: Vec3): Vec3 {
    Vec3(-a.x, -a.y, -a.z)
  }

  function Dot(a: Vec3, b: Vec3): real {
    a.x * b.x + a.y * b.y + a.z * b.z
  }

  /**
   * The operations of Python's `math` module that the pipeline calls, plus
   * `round(x, 6)`.  Angles are in radians, as in Python.
   */
  datatype MathOracle = MathOracle(
    sqrt: real -> real,
    atan2: (real, real) -> real,
    acos: real -> real,
    tan: real -> real,
    sin: real -> real,
    pi: real,
    round6: real -> real)

  /** `math.degrees`; a non-positive pi is the oracle's own defect and yields 0. */
  function Degrees(m: MathOracle, rad: real): real {
    if m.pi <= 0.0 then 0.0 else rad * 180.0 / m.pi
  }

  /** `math.radians`. */
  function Radians(m: MathOracle, deg: real): real {
    deg * m.pi / 180.0
  }

  /** `Vec3.get_length`. */
  function Length(m: MathOracle, v: Vec3): real {
    m.sqrt(v.x * v.x + v.y * v.y + v.z * v.z)
  }

  /** `Vec3.normalize`: a zero-length vector normalizes to the zero vector. */
  function Normalize(m: MathOracle, v: Vec3): Vec3 {
    var len := Length(m, v);
    if len == 0.0 then Origin else Vec3(v.x / len, v.y / len, v.z / len)
  }

  /**
   * Normalizing divides by the length: scaling back by the length gives the
   * vector again, and a vector of length zero normalizes to the zero vector.
   */
  lemma NormalizeScales(m: MathOracle, v: Vec3)
    ensures Length(m, v) == 0.0 ==> Normalize(m, v) == Origin
    ensures Length(m, v) != 0.0 ==> Scale(Normalize(m, v), Length(m, v)) == v
  {
  }

  /** The coordinates of a point rounded to six decimals, as the builder stores them. */
  function Round6(m: MathOracle, v: Vec3): Vec3 {
    Vec3(m.round6(v.x), m.round6(v.y), m.round6(v.z))
  }
}
