/** Three-component vectors over the reals, standing for Unity's `Vector3`.
    Only the operations the floater uses are defined. */
module Vectors {

  datatype Vec3 = Vec3(x: real, y: real, z: real)

  const Zero := Vec3(0.0, 0.0, 0.0)

  /** Unity's axis constants (left-handed, y up, z forward). */
  const Up := Vec3(0.0, 1.0, 0.0)
  const Left := Vec3(-1.0, 0.0, 0.0)
  const Forward := Vec3(0.0, 0.0, 1.0)

  function Add(a: Vec3, b: Vec3): Vec3 {
    Vec3(a.x + b.x, a.y + b.y, a.z + b.z)
  }

  function Sub(a: Vec3, b: Vec3): Vec3 {
    Vec3(a.x - b.x, a.y - b.y, a.z - b.z)
  }

  function Neg(a: Vec3): Vec3 {
    Vec3(-a.x, -a.y, -a.z)
  }

  /** `a * k` for a vector and a scalar. */
  function Times(a: Vec3, k: real): Vec3 {
    Vec3(a.x * k, a.y * k, a.z * k)
  }

  /** `a / k`; the division by a zero count in `GetCentreOfBuoyancy` is handled by the caller. */
  function Div(a: Vec3, k: real): Vec3
    requires k != 0.0
  {
    Vec3(a.x / k, a.y / k, a.z / k)
  }

  /** Component-wise product, Unity's `Vector3.Scale`. */
  function Mul(a: Vec3, b: Vec3): Vec3 {
    Vec3(a.x * b.x, a.y * b.y, a.z * b.z)
  }

  function Dot(a: Vec3, b: Vec3): real {
    a.x * b.x + a.y * b.y + a.z * b.z
  }

  /** The sum of a sequence of vectors. */
  function Sum(ps: seq<Vec3>): Vec3 {
    if |ps| == 0 then Zero else Add(ps[0], Sum(ps[1..]))
  }
}
