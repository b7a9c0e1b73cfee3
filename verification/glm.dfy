/** The small part of GLM the core uses: fixed-size vectors, quaternions and
    square matrices over the reals (GLM's `float` is read as `real`). */
module Glm {

  datatype Vec2 = Vec2(x: real, y: real)

  datatype Vec3 = Vec3(x: real, y: real, z: real)

  datatype Vec4 = Vec4(x: real, y: real, z: real, w: real)

  /** `glm::quat`; its constructor takes w first, which does not matter for the
      all-zero and identity values used here. */
  datatype Quat = Quat(x: real, y: real, z: real, w: real)

  /** A row-major square matrix. */
  type Matrix = seq<seq<real>>

  const Zero2: Vec2 := Vec2(0.0, 0.0)
  const Zero3: Vec3 := Vec3(0.0, 0.0, 0.0)
  const One3: Vec3 := Vec3(1.0, 1.0, 1.0)

  function Add3(a: Vec3, b: Vec3): Vec3 {
    Vec3(a.x + b.x, a.y + b.y, a.z + b.z)
  }

  function Sub3(a: Vec3, b: Vec3): Vec3 {
    Vec3(a.x - b.x, a.y - b.y, a.z - b.z)
  }

  function Cross(a: Vec3, b: Vec3): Vec3 {
    Vec3(a.y * b.z - a.z * b.y, a.z * b.x - a.x * b.z, a.x * b.y - a.y * b.x)
  }

  /** The squared norm of a quaternion; a rotation has squared norm 1. */
  function QuatNorm2(q: Quat): real {
    q.x * q.x + q.y * q.y + q.z * q.z + q.w * q.w
  }

  /** The all-zero quaternion, which is not a rotation. */
  const ZeroQuat: Quat := Quat(0.0, 0.0, 0.0, 0.0)

  /** The identity rotation. */
  const IdentityQuat: Quat := Quat(0.0, 0.0, 0.0, 1.0)

  /** `m` is the n-by-n identity matrix. */
  ghost predicate IsIdentity(m: Matrix, n: nat) {
    && |m| == n
    && forall i | 0 <= i < n :: |m[i]| == n && forall j | 0 <= j < n :: m[i][j] == if i == j then 1.0 else 0.0
  }

  /** GLM's `glm::mat3{ 1 }`: ones on the diagonal, zeros elsewhere. */
  const Identity3: Matrix := [[1.0, 0.0, 0.0], [0.0, 1.0, 0.0], [0.0, 0.0, 1.0]]

  /** GLM's `glm::mat4{ 1.0f }`. */
  const Identity4: Matrix := [[1.0, 0.0, 0.0, 0.0], [0.0, 1.0, 0.0, 0.0],
                              [0.0, 0.0, 1.0, 0.0], [0.0, 0.0, 0.0, 1.0]]
}
