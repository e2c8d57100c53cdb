/**
  Real-valued stand-ins for the engine's Vector3, Vector4 and Matrix4 types:
  only the operations the gravity tetrahedron uses, over exact `real`
  arithmetic instead of `float`.
 */
module LinearAlgebra {

  /** A component of a Vector4, a row or column of a Matrix4, or a vertex of a tetrahedron. */
  type Index = i: nat | i < 4

  datatype Vec3 = Vec3(x: real, y: real, z: real)

  datatype Vec4 = Vec4(x: real, y: real, z: real, w: real)

  /** A 4x4 matrix stored row by row, in the order the engine's 16-scalar constructor takes it. */
  datatype Mat4 = Mat4(row0: Vec4, row1: Vec4, row2: Vec4, row3: Vec4)

  function Add3(a: Vec3, b: Vec3): Vec3 {
    Vec3(a.x + b.x, a.y + b.y, a.z + b.z)
  }

  /** `s * v` and `v * s` of the engine (both are the same product). */
  function Scale3(s: real, v: Vec3): Vec3 {
    Vec3(s * v.x, s * v.y, s * v.z)
  }

  /**
    The weighted sum w.x * v0 + w.y * v1 + w.z * v2 + w.w * v3, accumulated
    left to right.
   */
  function Combine(w: Vec4, v0: Vec3, v1: Vec3, v2: Vec3, v3: Vec3): Vec3 {
    Add3(Add3(Add3(Scale3(w.x, v0), Scale3(w.y, v1)), Scale3(w.z, v2)), Scale3(w.w, v3))
  }

  function LengthSquared(v: Vec3): real {
    v.x * v.x + v.y * v.y + v.z * v.z
  }

  function Add4(a: Vec4, b: Vec4): Vec4 {
    Vec4(a.x + b.x, a.y + b.y, a.z + b.z, a.w + b.w)
  }

  function Scale4(s: real, v: Vec4): Vec4 {
    Vec4(s * v.x, s * v.y, s * v.z, s * v.w)
  }

  /** The i-th component: x, y, z, w for i = 0, 1, 2, 3. */
  function At(v: Vec4, i: Index): real {
    if i == 0 then v.x else if i == 1 then v.y else if i == 2 then v.z else v.w
  }

  function Sum(v: Vec4): real {
    v.x + v.y + v.z + v.w
  }

  function Dot(a: Vec4, b: Vec4): real {
    a.x * b.x + a.y * b.y + a.z * b.z + a.w * b.w
  }

  /** The unit vector e_i: 1 in slot i and 0 elsewhere. */
  function Basis(i: Index): (e: Vec4)
    ensures forall j: Index :: At(e, j) == if i == j then 1.0 else 0.0
    ensures Sum(e) == 1.0
  {
    if i == 0 then Vec4(1.0, 0.0, 0.0, 0.0)
    else if i == 1 then Vec4(0.0, 1.0, 0.0, 0.0)
    else if i == 2 then Vec4(0.0, 0.0, 1.0, 0.0)
    else Vec4(0.0, 0.0, 0.0, 1.0)
  }

  /** The engine's `Vector4(v, 1.0f)`: a point in homogeneous coordinates. */
  function Homogeneous(p: Vec3): Vec4 {
    Vec4(p.x, p.y, p.z, 1.0)
  }

  function Row(m: Mat4, i: Index): Vec4 {
    if i == 0 then m.row0 else if i == 1 then m.row1 else if i == 2 then m.row2 else m.row3
  }

  function Col(m: Mat4, j: Index): Vec4 {
    Vec4(At(m.row0, j), At(m.row1, j), At(m.row2, j), At(m.row3, j))
  }

  /** The engine's `Matrix4 * Vector4`: the column vector v multiplied on the left by m. */
  function MulVec(m: Mat4, v: Vec4): Vec4 {
    Vec4(Dot(m.row0, v), Dot(m.row1, v), Dot(m.row2, v), Dot(m.row3, v))
  }

  /** The row vector r multiplied on the right by m. */
  function VecMul(r: Vec4, m: Mat4): Vec4 {
    Vec4(Dot(r, Col(m, 0)), Dot(r, Col(m, 1)), Dot(r, Col(m, 2)), Dot(r, Col(m, 3)))
  }

  /** The matrix product a * b, built row by row. */
  function MatMul(a: Mat4, b: Mat4): (c: Mat4)
    ensures forall i: Index, j: Index :: At(Row(c, i), j) == Dot(Row(a, i), Col(b, j))
  {
    Mat4(VecMul(a.row0, b), VecMul(a.row1, b), VecMul(a.row2, b), VecMul(a.row3, b))
  }

  const Identity: Mat4 :=
    Mat4(Vec4(1.0, 0.0, 0.0, 0.0),
         Vec4(0.0, 1.0, 0.0, 0.0),
         Vec4(0.0, 0.0, 1.0, 0.0),
         Vec4(0.0, 0.0, 0.0, 1.0))

  /** m is a two-sided inverse of a. */
  predicate IsInverse(m: Mat4, a: Mat4) {
    MatMul(m, a) == Identity && MatMul(a, m) == Identity
  }

  /** Multiplying a row vector into a product m * v equals multiplying (r * m) into v. */
  lemma DotMulVec(r: Vec4, m: Mat4, v: Vec4)
    ensures Dot(r, MulVec(m, v)) == Dot(VecMul(r, m), v)
  {
    var a, b, c, d := m.row0, m.row1, m.row2, m.row3;
    calc {
      Dot(r, MulVec(m, v));
      r.x * Dot(a, v) + r.y * Dot(b, v) + r.z * Dot(c, v) + r.w * Dot(d, v);
      (r.x * a.x + r.y * b.x + r.z * c.x + r.w * d.x) * v.x
        + (r.x * a.y + r.y * b.y + r.z * c.y + r.w * d.y) * v.y
        + (r.x * a.z + r.y * b.z + r.z * c.z + r.w * d.z) * v.z
        + (r.x * a.w + r.y * b.w + r.z * c.w + r.w * d.w) * v.w;
      Dot(VecMul(r, m), v);
    }
  }

  /** Applying b and then a is applying the product a * b. */
  lemma MulVecAssociative(a: Mat4, b: Mat4, v: Vec4)
    ensures MulVec(a, MulVec(b, v)) == MulVec(MatMul(a, b), v)
  {
    DotMulVec(a.row0, b, v);
    DotMulVec(a.row1, b, v);
    DotMulVec(a.row2, b, v);
    DotMulVec(a.row3, b, v);
  }

  /** The dot product is linear in its second argument. */
  lemma DotLinear(r: Vec4, s: real, b: Vec4, u: real, c: Vec4)
    ensures Dot(r, Add4(Scale4(s, b), Scale4(u, c))) == s * Dot(r, b) + u * Dot(r, c)
  {
    calc {
      Dot(r, Add4(Scale4(s, b), Scale4(u, c)));
      r.x * (s * b.x + u * c.x) + r.y * (s * b.y + u * c.y) + r.z * (s * b.z + u * c.z) + r.w * (s * b.w + u * c.w);
      s * (r.x * b.x + r.y * b.y + r.z * b.z + r.w * b.w) + u * (r.x * c.x + r.y * c.y + r.z * c.z + r.w * c.w);
    }
  }

  /** A vector whose every component is s * y_i + u * z_i is the combination s * y + u * z. */
  lemma LinearCombination(x: Vec4, s: real, y: Vec4, u: real, z: Vec4)
    requires x.x == s * y.x + u * z.x && x.y == s * y.y + u * z.y
    requires x.z == s * y.z + u * z.z && x.w == s * y.w + u * z.w
    ensures x == Add4(Scale4(s, y), Scale4(u, z))
  {
  }

  /** Applying a matrix is linear. */
  lemma MulVecLinear(m: Mat4, s: real, b: Vec4, u: real, c: Vec4)
    ensures MulVec(m, Add4(Scale4(s, b), Scale4(u, c))) == Add4(Scale4(s, MulVec(m, b)), Scale4(u, MulVec(m, c)))
  {
    DotLinear(m.row0, s, b, u, c);
    DotLinear(m.row1, s, b, u, c);
    DotLinear(m.row2, s, b, u, c);
    DotLinear(m.row3, s, b, u, c);
    LinearCombination(MulVec(m, Add4(Scale4(s, b), Scale4(u, c))), s, MulVec(m, b), u, MulVec(m, c));
  }

  lemma MulVecIdentity(v: Vec4)
    ensures MulVec(Identity, v) == v
  {
  }

  /** The j-th column of m * a is m applied to the j-th column of a. */
  lemma MulVecCol(m: Mat4, a: Mat4, j: Index)
    ensures MulVec(m, Col(a, j)) == Col(MatMul(m, a), j)
  {
  }

  /** Combining with the basis weights e_i picks out the i-th vector. */
  lemma CombineBasis(i: Index, v0: Vec3, v1: Vec3, v2: Vec3, v3: Vec3)
    ensures Combine(Basis(i), v0, v1, v2, v3) == [v0, v1, v2, v3][i]
  {
    var zero := Vec3(0.0, 0.0, 0.0);
    assert Scale3(0.0, v0) == zero && Scale3(0.0, v1) == zero;
    assert Scale3(0.0, v2) == zero && Scale3(0.0, v3) == zero;
    assert Scale3(1.0, v0) == v0 && Scale3(1.0, v1) == v1;
    assert Scale3(1.0, v2) == v2 && Scale3(1.0, v3) == v3;
  }

  /** Combining four copies of one vector scales it by the sum of the weights. */
  lemma CombineUniform(w: Vec4, v: Vec3)
    ensures Combine(w, v, v, v, v) == Scale3(Sum(w), v)
  {
    var r := Combine(w, v, v, v, v);
    assert r.x == (w.x + w.y + w.z + w.w) * v.x;
    assert r.y == (w.x + w.y + w.z + w.w) * v.y;
    assert r.z == (w.x + w.y + w.z + w.w) * v.z;
  }

  /** Dotting with the basis weights e_i picks out the i-th component. */
  lemma DotBasis(r: Vec4, i: Index)
    ensures Dot(r, Basis(i)) == At(r, i)
  {
    if i == 0 {
      assert Dot(r, Vec4(1.0, 0.0, 0.0, 0.0)) == r.x;
    } else if i == 1 {
      assert Dot(r, Vec4(0.0, 1.0, 0.0, 0.0)) == r.y;
    } else if i == 2 {
      assert Dot(r, Vec4(0.0, 0.0, 1.0, 0.0)) == r.z;
    } else {
      assert Dot(r, Vec4(0.0, 0.0, 0.0, 1.0)) == r.w;
    }
  }

  /** Two matrices with the same columns are equal. */
  lemma Mat4ColumnsExt(a: Mat4, b: Mat4)
    requires forall j: Index :: Col(a, j) == Col(b, j)
    ensures a == b
  {
    assert Col(a, 0) == Col(b, 0) && Col(a, 1) == Col(b, 1) && Col(a, 2) == Col(b, 2) && Col(a, 3) == Col(b, 3);
  }

  /** m * a is the identity when m takes every column of a to the matching unit vector. */
  lemma IdentityFromColumns(m: Mat4, a: Mat4)
    requires forall j: Index :: MulVec(m, Col(a, j)) == Col(Identity, j)
    ensures MatMul(m, a) == Identity
  {
    forall j: Index
      ensures Col(MatMul(m, a), j) == Col(Identity, j)
    {
      MulVecCol(m, a, j);
    }
    Mat4ColumnsExt(MatMul(m, a), Identity);
  }

  lemma ColIdentity(j: Index)
    ensures Col(Identity, j) == Basis(j)
  {
    if j == 0 {
    } else if j == 1 {
    } else if j == 2 {
    } else {
    }
  }
}
