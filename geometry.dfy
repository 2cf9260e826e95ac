/** Three-vectors, 3x3 matrices and rigid transforms over exact reals, and the
    Euler-angle convention ('xyz') that the pose code obtains from scipy. */
module Geometry {

  datatype Vec3 = Vec3(x: real, y: real, z: real)

  /** A 3x3 matrix given by its rows. */
  datatype Mat3 = Mat3(r0: Vec3, r1: Vec3, r2: Vec3)

  /** scipy's `Rotation.from_euler('xyz', e).as_matrix()` and
      `Rotation.from_matrix(m).as_euler('xyz')`. Their floating-point
      internals are not modelled; every operation that uses them takes the
      pair as a parameter. */
  datatype EulerConvention = EulerConvention(fromEuler: Vec3 -> Mat3, toEuler: Mat3 -> Vec3)

  /** A 4x4 homogeneous transform [rotation translation; 0 0 0 1], kept as
      its rotation block and its translation column. */
  datatype RigidTransform = RigidTransform(rotation: Mat3, translation: Vec3)

  /** numpy's `np.pi`, as the exact decimal its double prints as. */
  const Pi: real := 3.141592653589793

  const Zero := Vec3(0.0, 0.0, 0.0)
  const Identity := Mat3(Vec3(1.0, 0.0, 0.0), Vec3(0.0, 1.0, 0.0), Vec3(0.0, 0.0, 1.0))

  function Add(a: Vec3, b: Vec3): Vec3 { Vec3(a.x + b.x, a.y + b.y, a.z + b.z) }

  function Sub(a: Vec3, b: Vec3): Vec3 { Vec3(a.x - b.x, a.y - b.y, a.z - b.z) }

  function Dot(a: Vec3, b: Vec3): real { a.x * b.x + a.y * b.y + a.z * b.z }

  /** Squared Euclidean norm. */
  function SqNorm(a: Vec3): real { Dot(a, a) }

  function Transpose(m: Mat3): Mat3 {
    Mat3(Vec3(m.r0.x, m.r1.x, m.r2.x),
         Vec3(m.r0.y, m.r1.y, m.r2.y),
         Vec3(m.r0.z, m.r1.z, m.r2.z))
  }

  /** The matrix-vector product `m @ v`. */
  function Apply(m: Mat3, v: Vec3): Vec3 { Vec3(Dot(m.r0, v), Dot(m.r1, v), Dot(m.r2, v)) }

  /** The matrix product `a @ b`: row i of the result is row i of `a` times `b`. */
  function Mul(a: Mat3, b: Mat3): Mat3 {
    var bt := Transpose(b);
    Mat3(Apply(bt, a.r0), Apply(bt, a.r1), Apply(bt, a.r2))
  }

  /** A rotation matrix: its transpose is its inverse on both sides. */
  ghost predicate Orthonormal(m: Mat3) {
    Mul(Transpose(m), m) == Identity && Mul(m, Transpose(m)) == Identity
  }

  /** The 4x4 product `a @ b` of two homogeneous transforms. */
  function Compose(a: RigidTransform, b: RigidTransform): (r: RigidTransform)
    ensures r.rotation == Mul(a.rotation, b.rotation)
  {
    RigidTransform(Mul(a.rotation, b.rotation), Add(Apply(a.rotation, b.translation), a.translation))
  }

  /** Conversions between 3-element slices of a pose vector and `Vec3`. */
  function ToVec3(s: seq<real>): (v: Vec3)
    requires |s| == 3
    ensures ToSeq(v) == s
  {
    Vec3(s[0], s[1], s[2])
  }

  function ToSeq(v: Vec3): (s: seq<real>)
    ensures |s| == 3
  {
    [v.x, v.y, v.z]
  }

  /** The position `pose[:3]` and the Euler angles `pose[3:6]` of a 7-channel
      pose `[x, y, z, roll, pitch, yaw, gripper]`. */
  function Position(pose: seq<real>): Vec3
    requires |pose| >= 3
  {
    ToVec3(pose[..3])
  }

  function Orientation(pose: seq<real>): Vec3
    requires |pose| >= 6
  {
    ToVec3(pose[3..6])
  }

  lemma ApplyMul(a: Mat3, b: Mat3)
    ensures forall v :: Apply(Mul(a, b), v) == Apply(a, Apply(b, v))
  {
    forall v ensures Apply(Mul(a, b), v) == Apply(a, Apply(b, v)) {
      var ab := Mul(a, b);
      assert ab.r0.x == a.r0.x * b.r0.x + a.r0.y * b.r1.x + a.r0.z * b.r2.x;
      assert ab.r0.y == a.r0.x * b.r0.y + a.r0.y * b.r1.y + a.r0.z * b.r2.y;
      assert ab.r0.z == a.r0.x * b.r0.z + a.r0.y * b.r1.z + a.r0.z * b.r2.z;
      assert ab.r1.x == a.r1.x * b.r0.x + a.r1.y * b.r1.x + a.r1.z * b.r2.x;
      assert ab.r1.y == a.r1.x * b.r0.y + a.r1.y * b.r1.y + a.r1.z * b.r2.y;
      assert ab.r1.z == a.r1.x * b.r0.z + a.r1.y * b.r1.z + a.r1.z * b.r2.z;
      assert ab.r2.x == a.r2.x * b.r0.x + a.r2.y * b.r1.x + a.r2.z * b.r2.x;
      assert ab.r2.y == a.r2.x * b.r0.y + a.r2.y * b.r1.y + a.r2.z * b.r2.y;
      assert ab.r2.z == a.r2.x * b.r0.z + a.r2.y * b.r1.z + a.r2.z * b.r2.z;
    }
  }

  lemma ApplyIdentity(v: Vec3)
    ensures Apply(Identity, v) == v
  {
  }

  lemma MulIdentity(m: Mat3)
    ensures Mul(m, Identity) == m && Mul(Identity, m) == m
  {
  }

  /** Matrices are equal when they agree on the three basis vectors. */
  lemma ExtensionalEquality(a: Mat3, b: Mat3)
    requires Apply(a, Vec3(1.0, 0.0, 0.0)) == Apply(b, Vec3(1.0, 0.0, 0.0))
    requires Apply(a, Vec3(0.0, 1.0, 0.0)) == Apply(b, Vec3(0.0, 1.0, 0.0))
    requires Apply(a, Vec3(0.0, 0.0, 1.0)) == Apply(b, Vec3(0.0, 0.0, 1.0))
    ensures a == b
  {
  }

  lemma MulAssoc(a: Mat3, b: Mat3, c: Mat3)
    ensures Mul(Mul(a, b), c) == Mul(a, Mul(b, c))
  {
    ApplyMul(Mul(a, b), c);
    ApplyMul(a, b);
    ApplyMul(a, Mul(b, c));
    ApplyMul(b, c);
    ExtensionalEquality(Mul(Mul(a, b), c), Mul(a, Mul(b, c)));
  }

  /** `(a @ b).T == b.T @ a.T` */
  lemma TransposeMul(a: Mat3, b: Mat3)
    ensures Transpose(Mul(a, b)) == Mul(Transpose(b), Transpose(a))
  {
  }

  lemma TransposeTranspose(m: Mat3)
    ensures Transpose(Transpose(m)) == m
  {
  }

  /** Undoing a rotation by its transpose: `R @ (R.T @ v) == v`. */
  lemma ApplyThenTranspose(m: Mat3, v: Vec3)
    requires Orthonormal(m)
    ensures Apply(m, Apply(Transpose(m), v)) == v
    ensures Apply(Transpose(m), Apply(m, v)) == v
  {
    ApplyMul(m, Transpose(m));
    ApplyMul(Transpose(m), m);
    ApplyIdentity(v);
  }
}
