/**
 The geometry value types the physics core computes with: 3-vectors, 3x3
 matrices (stored as three rows, like the library's Matrix3x3) and
 quaternions. The library's `decimal` is modelled by `real`, so every
 identity below is exact; rounding is not modelled.

 Matrix inversion, the rotation of a vector by a quaternion and quaternion
 normalisation are not written out in this model: they are collected in
 `MathKernel`, a record of functions that every operation using them takes
 as a parameter, so that nothing is assumed about them beyond what a lemma
 states in its own `requires`.
 */
module Mathematics {

  datatype Vector3 = Vector3(x: real, y: real, z: real) {

    function Add(v: Vector3): Vector3 {
      Vector3(x + v.x, y + v.y, z + v.z)
    }

    function Sub(v: Vector3): Vector3 {
      Vector3(x - v.x, y - v.y, z - v.z)
    }

    function Neg(): Vector3 {
      Vector3(-x, -y, -z)
    }

    /** The product `s * v` of the scalar `s` and this vector. */
    function Scale(s: real): Vector3 {
      Vector3(s * x, s * y, s * z)
    }

    function Dot(v: Vector3): real {
      x * v.x + y * v.y + z * v.z
    }

    function Cross(v: Vector3): Vector3 {
      Vector3(y * v.z - z * v.y, z * v.x - x * v.z, x * v.y - y * v.x)
    }
  }

  const Zero: Vector3 := Vector3(0.0, 0.0, 0.0)

  datatype Matrix3x3 = Matrix3x3(row0: Vector3, row1: Vector3, row2: Vector3) {

    function Add(m: Matrix3x3): Matrix3x3 {
      Matrix3x3(row0.Add(m.row0), row1.Add(m.row1), row2.Add(m.row2))
    }

    function Transpose(): Matrix3x3 {
      Matrix3x3(Vector3(row0.x, row1.x, row2.x),
                Vector3(row0.y, row1.y, row2.y),
                Vector3(row0.z, row1.z, row2.z))
    }

    /** The matrix-vector product `this * v`. */
    function Apply(v: Vector3): Vector3 {
      Vector3(row0.Dot(v), row1.Dot(v), row2.Dot(v))
    }

    /** The matrix product `this * m`: row i of the result is row i of this times m. */
    function Mul(m: Matrix3x3): Matrix3x3 {
      var t := m.Transpose();
      Matrix3x3(t.Apply(row0), t.Apply(row1), t.Apply(row2))
    }
  }

  /** The matrix `s` times the identity. */
  function Diagonal(s: real): Matrix3x3 {
    Matrix3x3(Vector3(s, 0.0, 0.0), Vector3(0.0, s, 0.0), Vector3(0.0, 0.0, s))
  }

  const ZeroMatrix: Matrix3x3 := Diagonal(0.0)
  const Identity: Matrix3x3 := Diagonal(1.0)

  /** The skew-symmetric matrix `[r]x` whose product with any vector is the cross product with `r`. */
  function SkewSymmetricMatrixForCrossProduct(r: Vector3): Matrix3x3 {
    Matrix3x3(Vector3(0.0, -r.z, r.y),
              Vector3(r.z, 0.0, -r.x),
              Vector3(-r.y, r.x, 0.0))
  }

  /** `[r]x * v == r x v` and `[r]x^T * v == v x r`. */
  lemma SkewSymmetricMatrixIsCrossProduct(r: Vector3, v: Vector3)
    ensures SkewSymmetricMatrixForCrossProduct(r).Apply(v) == r.Cross(v)
    ensures SkewSymmetricMatrixForCrossProduct(r).Transpose().Apply(v) == v.Cross(r)
  {
  }

  lemma CrossAnticommutes(a: Vector3, b: Vector3)
    ensures a.Cross(b).Neg() == b.Cross(a)
  {
  }

  lemma ApplyAdd(a: Matrix3x3, b: Matrix3x3, v: Vector3)
    ensures a.Add(b).Apply(v) == a.Apply(v).Add(b.Apply(v))
  {
  }

  lemma AddZeroMatrix(a: Matrix3x3)
    ensures a.Add(ZeroMatrix) == a
  {
  }

  lemma ApplyNeg(a: Matrix3x3, v: Vector3)
    ensures a.Apply(v.Neg()) == a.Apply(v).Neg()
  {
  }

  lemma ApplyMul(a: Matrix3x3, b: Matrix3x3, v: Vector3)
    ensures a.Mul(b).Apply(v) == a.Apply(b.Apply(v))
  {
    DotThroughTranspose(b, a.row0, v);
    DotThroughTranspose(b, a.row1, v);
    DotThroughTranspose(b, a.row2, v);
  }

  /** `(b^T u) . v == u . (b v)`. */
  lemma DotThroughTranspose(b: Matrix3x3, u: Vector3, v: Vector3)
    ensures b.Transpose().Apply(u).Dot(v) == u.Dot(b.Apply(v))
  {
  }

  /** A symmetric matrix defines a symmetric bilinear form: `u . (m v) == v . (m u)`. */
  lemma SymmetricBilinearForm(m: Matrix3x3, u: Vector3, v: Vector3)
    requires m.Transpose() == m
    ensures u.Dot(m.Apply(v)) == v.Dot(m.Apply(u))
  {
    assert m.row0.y == m.row1.x && m.row0.z == m.row2.x && m.row1.z == m.row2.y;
  }

  /** The congruence `a * m * a^T` of a symmetric matrix `m` is symmetric. */
  lemma CongruenceIsSymmetric(a: Matrix3x3, m: Matrix3x3)
    requires m.Transpose() == m
    ensures a.Mul(m).Mul(a.Transpose()).Transpose() == a.Mul(m).Mul(a.Transpose())
  {
    var p := a.Mul(m);
    assert p == Matrix3x3(m.Apply(a.row0), m.Apply(a.row1), m.Apply(a.row2));
    assert a.Transpose().Transpose() == a;
    var k := p.Mul(a.Transpose());
    assert k == Matrix3x3(a.Apply(p.row0), a.Apply(p.row1), a.Apply(p.row2));
    SymmetricBilinearForm(m, a.row0, a.row1);
    SymmetricBilinearForm(m, a.row0, a.row2);
    SymmetricBilinearForm(m, a.row1, a.row2);
  }

  /** Quaternion `x i + y j + z k + w`, stored in the library's field order. */
  datatype Quaternion = Quaternion(x: real, y: real, z: real, w: real) {

    function VectorPart(): Vector3 {
      Vector3(x, y, z)
    }

    function Add(q: Quaternion): Quaternion {
      Quaternion(x + q.x, y + q.y, z + q.z, w + q.w)
    }

    function Scale(s: real): Quaternion {
      Quaternion(s * x, s * y, s * z, s * w)
    }

    /** The Hamilton product `this * q`. */
    function Mul(q: Quaternion): Quaternion {
      var v := VectorPart();
      var u := q.VectorPart();
      FromScalarVector(w * q.w - v.Dot(u), u.Scale(w).Add(v.Scale(q.w)).Add(v.Cross(u)))
    }
  }

  /** `Mul` is Hamilton's product: the unit quaternion 1 is neutral on both
      sides, and two pure quaternions multiply to (-u . v, u x v), which gives
      i^2 = j^2 = k^2 = -1 and ij = k, jk = i, ki = j. */
  lemma HamiltonProductRules(q: Quaternion, u: Vector3, v: Vector3)
    ensures FromScalarVector(1.0, Zero).Mul(q) == q
    ensures q.Mul(FromScalarVector(1.0, Zero)) == q
    ensures FromScalarVector(0.0, u).Mul(FromScalarVector(0.0, v)) == FromScalarVector(-u.Dot(v), u.Cross(v))
  {
  }

  /** The quaternion with real part `w` and vector part `v`. */
  function FromScalarVector(w: real, v: Vector3): (q: Quaternion)
    ensures q.w == w && q.VectorPart() == v
  {
    Quaternion(v.x, v.y, v.z, w)
  }

  /**
   The operations whose code lies outside this model: `inverse` stands for
   Matrix3x3::getInverse, `rotate(q, v)` for the quaternion-vector product
   `q * v`, and `normalize` for Quaternion::normalize.
   */
  datatype MathKernel = MathKernel(
    inverse: Matrix3x3 -> Matrix3x3,
    rotate: (Quaternion, Vector3) -> Vector3,
    normalize: Quaternion -> Quaternion)
}
