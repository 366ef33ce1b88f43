/**
 * The parts of Unity's math library that the skinning code uses.
 *
 * Vectors and quaternions are records of `real` components (Unity's `float`
 * rounding is not modelled). `Matrix4x4` is left abstract: the four matrix
 * operations the code calls (matrix product, `.inverse`, `Matrix4x4.TRS` with
 * unit scale, and matrix-times-vector) are uninterpreted function values
 * gathered in a `MatrixLibrary`. The algebraic laws a proof needs are stated
 * as predicates over that record and taken as hypotheses by the lemmas that
 * use them.
 */
module UnityMath {

  datatype Vector3 = Vector3(x: real, y: real, z: real)

  datatype Vector4 = Vector4(x: real, y: real, z: real, w: real)

  datatype Quaternion = Quaternion(x: real, y: real, z: real, w: real)

  /** Unity's 4x4 homogeneous matrix; its entries are never inspected. */
  type Matrix4x4(!new)

  /** `Vector3.zero` */
  const Zero3: Vector3 := Vector3(0.0, 0.0, 0.0)

  /** `Vector4.zero` */
  const Zero4: Vector4 := Vector4(0.0, 0.0, 0.0, 0.0)

  /**
   * The matrix operations of the library:
   *   mul(a, b)       is `a * b`,
   *   inverse(m)      is `m.inverse`,
   *   trs(p, q)       is `Matrix4x4.TRS(p, q, Vector3.one)`,
   *   transform(m, v) is `m * v` for a `Vector4` v,
   *   identity        is `Matrix4x4.identity`.
   */
  datatype MatrixLibrary = MatrixLibrary(
    mul: (Matrix4x4, Matrix4x4) -> Matrix4x4,
    inverse: Matrix4x4 -> Matrix4x4,
    trs: (Vector3, Quaternion) -> Matrix4x4,
    transform: (Matrix4x4, Vector4) -> Vector4,
    identity: Matrix4x4)

  /** Matrix multiplication is associative. */
  ghost predicate Associative(lib: MatrixLibrary)
  {
    forall a, b, c :: lib.mul(lib.mul(a, b), c) == lib.mul(a, lib.mul(b, c))
  }

  /**
   * A quaternion of norm 1, the only kind `Matrix4x4.TRS` turns into a
   * rotation; for any other the rotation block it builds may be singular.
   */
  predicate UnitQuaternion(q: Quaternion)
  {
    q.x * q.x + q.y * q.y + q.z * q.z + q.w * q.w == 1.0
  }

  /**
   * The laws of rigid transforms: an associative product with a two-sided
   * identity, and every TRS matrix with unit scale and a unit-quaternion
   * rotation has its `.inverse` as a right inverse.
   */
  ghost predicate RigidLaws(lib: MatrixLibrary)
  {
    && Associative(lib)
    && (forall m :: lib.mul(lib.identity, m) == m)
    && (forall m :: lib.mul(m, lib.identity) == m)
    && (forall p, q :: UnitQuaternion(q) ==> lib.mul(lib.trs(p, q), lib.inverse(lib.trs(p, q))) == lib.identity)
  }

  /** The inverse of a product is the product of the inverses, reversed. */
  ghost predicate InverseReversesProducts(lib: MatrixLibrary)
  {
    forall a, b :: lib.inverse(lib.mul(a, b)) == lib.mul(lib.inverse(b), lib.inverse(a))
  }

  /** Multiplying a vector by the identity matrix leaves it unchanged. */
  ghost predicate IdentityLeavesVectors(lib: MatrixLibrary)
  {
    forall v :: lib.transform(lib.identity, v) == v
  }

  /** `a + b` on `Vector4` */
  function Add(a: Vector4, b: Vector4): Vector4
  {
    Vector4(a.x + b.x, a.y + b.y, a.z + b.z, a.w + b.w)
  }

  /** `a * s` on `Vector4` */
  function Scale(a: Vector4, s: real): Vector4
  {
    Vector4(a.x * s, a.y * s, a.z * s, a.w * s)
  }

  /** `a / d` on `Vector4` */
  function Divide(a: Vector4, d: real): Vector4
    requires d != 0.0
  {
    Vector4(a.x / d, a.y / d, a.z / d, a.w / d)
  }

  /** `new Vector4(v.x, v.y, v.z, 1)`: a point in homogeneous coordinates. */
  function Point(v: Vector3): Vector4
  {
    Vector4(v.x, v.y, v.z, 1.0)
  }

  /** The implicit conversion from `Vector4` to `Vector3`, which drops `w`. */
  function ToVector3(v: Vector4): Vector3
  {
    Vector3(v.x, v.y, v.z)
  }

  // Vector-space facts used by the blending proofs.

  lemma AddZeroLeft(a: Vector4)
    ensures Add(Zero4, a) == a
  {
  }

  lemma AddAssociative(a: Vector4, b: Vector4, c: Vector4)
    ensures Add(Add(a, b), c) == Add(a, Add(b, c))
  {
  }

  lemma ScaleDistributes(a: Vector4, b: Vector4, s: real)
    ensures Scale(Add(a, b), s) == Add(Scale(a, s), Scale(b, s))
  {
  }

  lemma ScaleScale(a: Vector4, s: real, t: real)
    ensures Scale(Scale(a, s), t) == Scale(a, s * t)
  {
    assert a.x * s * t == a.x * (s * t);
    assert a.y * s * t == a.y * (s * t);
    assert a.z * s * t == a.z * (s * t);
    assert a.w * s * t == a.w * (s * t);
  }

  lemma ScaleAddsFactors(a: Vector4, s: real, t: real)
    ensures Add(Scale(a, s), Scale(a, t)) == Scale(a, s + t)
  {
  }

  lemma DivideUndoesScale(a: Vector4, s: real)
    requires s != 0.0
    ensures Divide(Scale(a, s), s) == a
  {
  }
}
