/** Three-component vectors (glm::vec3) over exact reals, and the handful of
    library maths the simulator calls: sine, cosine, the inverse square root
    behind glm::normalize, and the constant pi behind glm::radians.

    The library functions are not defined here. They travel as a `MathLib`
    value that every operation needing them takes as a parameter, so nothing
    is assumed about them except what a lemma states in its `requires`. */
module Vectors {

  datatype Vec3 = Vec3(x: real, y: real, z: real)

  const Zero := Vec3(0.0, 0.0, 0.0)

  function Add(a: Vec3, b: Vec3): Vec3 {
    Vec3(a.x + b.x, a.y + b.y, a.z + b.z)
  }

  function Sub(a: Vec3, b: Vec3): Vec3 {
    Vec3(a.x - b.x, a.y - b.y, a.z - b.z)
  }

  function Scale(a: Vec3, k: real): Vec3 {
    Vec3(a.x * k, a.y * k, a.z * k)
  }

  function Dot(a: Vec3, b: Vec3): real {
    a.x * b.x + a.y * b.y + a.z * b.z
  }

  /** The external maths the source calls (std::sin, std::cos, glm's
      inversesqrt and the pi inside glm::radians), angles in radians. */
  datatype MathLib = MathLib(sin: real -> real, cos: real -> real, inverseSqrt: real -> real, pi: real)

  /** sin(a)^2 + cos(a)^2 == 1 for every angle: the one fact about the
      trigonometric functions that some lemmas rely on. */
  ghost predicate TrigIdentity(m: MathLib) {
    forall a: real :: m.sin(a) * m.sin(a) + m.cos(a) * m.cos(a) == 1.0
  }

  /** glm::radians. */
  function Radians(m: MathLib, degrees: real): real {
    degrees * m.pi / 180.0
  }

  /** glm::normalize: v scaled by the inverse square root of its squared length. */
  function Normalize(m: MathLib, v: Vec3): Vec3 {
    Scale(v, m.inverseSqrt(Dot(v, v)))
  }

  /** Normalising a vector of length 1 leaves it as it is, given inversesqrt(1) = 1. */
  lemma NormalizeUnit(m: MathLib, v: Vec3)
    requires m.inverseSqrt(1.0) == 1.0 && Dot(v, v) == 1.0
    ensures Normalize(m, v) == v
  {
  }

  /** The rotation matrix glm::rotate builds for the axis (0, 1, 0), applied to
      the point v: a rotation by `angle` radians about the vertical axis. */
  function RotateY(m: MathLib, angle: real, v: Vec3): Vec3 {
    Vec3(m.cos(angle) * v.x + m.sin(angle) * v.z, v.y, -m.sin(angle) * v.x + m.cos(angle) * v.z)
  }
}
