/**
  A concrete cell: the corner tetrahedron with vertices (0,0,0), (1,0,0),
  (0,1,0) and (0,0,1), whose barycentric weights are (1 - x - y - z, x, y, z).
  It shows the containment test classifying the centroid, a far point and a
  point on a face.
 */
module UnitCornerExample {
  import opened LinearAlgebra
  import opened Gravity
  import opened BarycentricLaws

  /** A sample pulling straight down with unit force. */
  function Sample(position: Vec3): GravityPoint {
    GravityPoint(position, Vec3(0.0, -1.0, 0.0), 1.0)
  }

  /** The inverse of the corner tetrahedron's Cartesian matrix, worked out by hand. */
  const CornerInverse: Mat4 :=
    Mat4(Vec4(-1.0, -1.0, -1.0, 1.0),
         Vec4(1.0, 0.0, 0.0, 0.0),
         Vec4(0.0, 1.0, 0.0, 0.0),
         Vec4(0.0, 0.0, 1.0, 0.0))

  /** The Cartesian matrix of the corner tetrahedron: its columns are the homogeneous vertices. */
  const CornerMatrix: Mat4 :=
    Mat4(Vec4(0.0, 1.0, 0.0, 0.0),
         Vec4(0.0, 0.0, 1.0, 0.0),
         Vec4(0.0, 0.0, 0.0, 1.0),
         Vec4(1.0, 1.0, 1.0, 1.0))

  function UnitCorner(): (t: GravityTetrahedron)
    ensures CartesianMatrix(t.vertex) == CornerMatrix
    ensures t.transform == CornerInverse
  {
    Construct(Sample(Vec3(0.0, 0.0, 0.0)), Sample(Vec3(1.0, 0.0, 0.0)),
              Sample(Vec3(0.0, 1.0, 0.0)), Sample(Vec3(0.0, 0.0, 1.0)),
              (a: Mat4) => CornerInverse)
  }

  lemma UnitCornerIsNonDegenerate()
    ensures NonDegenerate(UnitCorner())
  {
    CornerInverseIsInverse();
    assert IsInverse(UnitCorner().transform, CartesianMatrix(UnitCorner().vertex));
  }

  /** The hand-computed inverse is a two-sided inverse. */
  lemma CornerInverseIsInverse()
    ensures IsInverse(CornerInverse, CornerMatrix)
  {
    CornerInverseIsLeftInverse();
    CornerInverseIsRightInverse();
  }

  lemma CornerInverseIsLeftInverse()
    ensures MatMul(CornerInverse, CornerMatrix) == Identity
  {
    forall j: Index
      ensures MulVec(CornerInverse, Col(CornerMatrix, j)) == Col(Identity, j)
    {
      InverseTimesColumn(j);
    }
    IdentityFromColumns(CornerInverse, CornerMatrix);
  }

  lemma CornerInverseIsRightInverse()
    ensures MatMul(CornerMatrix, CornerInverse) == Identity
  {
    forall j: Index
      ensures MulVec(CornerMatrix, Col(CornerInverse, j)) == Col(Identity, j)
    {
      MatrixTimesColumn(j);
    }
    IdentityFromColumns(CornerMatrix, CornerInverse);
  }

  /** The inverse takes column j of the Cartesian matrix, vertex j, to e_j. */
  lemma InverseTimesColumn(j: Index)
    ensures MulVec(CornerInverse, Col(CornerMatrix, j)) == Col(Identity, j)
  {
    ColIdentity(j);
    if j == 0 {
      assert Col(CornerMatrix, 0) == Vec4(0.0, 0.0, 0.0, 1.0);
      assert MulVec(CornerInverse, Vec4(0.0, 0.0, 0.0, 1.0)) == Vec4(1.0, 0.0, 0.0, 0.0);
    } else if j == 1 {
      assert Col(CornerMatrix, 1) == Vec4(1.0, 0.0, 0.0, 1.0);
      assert MulVec(CornerInverse, Vec4(1.0, 0.0, 0.0, 1.0)) == Vec4(0.0, 1.0, 0.0, 0.0);
    } else if j == 2 {
      assert Col(CornerMatrix, 2) == Vec4(0.0, 1.0, 0.0, 1.0);
      assert MulVec(CornerInverse, Vec4(0.0, 1.0, 0.0, 1.0)) == Vec4(0.0, 0.0, 1.0, 0.0);
    } else {
      assert Col(CornerMatrix, 3) == Vec4(0.0, 0.0, 1.0, 1.0);
      assert MulVec(CornerInverse, Vec4(0.0, 0.0, 1.0, 1.0)) == Vec4(0.0, 0.0, 0.0, 1.0);
    }
  }

  /** The Cartesian matrix takes column j of the inverse to e_j. */
  lemma MatrixTimesColumn(j: Index)
    ensures MulVec(CornerMatrix, Col(CornerInverse, j)) == Col(Identity, j)
  {
    ColIdentity(j);
    if j == 0 {
      assert Col(CornerInverse, 0) == Vec4(-1.0, 1.0, 0.0, 0.0);
      assert MulVec(CornerMatrix, Vec4(-1.0, 1.0, 0.0, 0.0)) == Vec4(1.0, 0.0, 0.0, 0.0);
    } else if j == 1 {
      assert Col(CornerInverse, 1) == Vec4(-1.0, 0.0, 1.0, 0.0);
      assert MulVec(CornerMatrix, Vec4(-1.0, 0.0, 1.0, 0.0)) == Vec4(0.0, 1.0, 0.0, 0.0);
    } else if j == 2 {
      assert Col(CornerInverse, 2) == Vec4(-1.0, 0.0, 0.0, 1.0);
      assert MulVec(CornerMatrix, Vec4(-1.0, 0.0, 0.0, 1.0)) == Vec4(0.0, 0.0, 1.0, 0.0);
    } else {
      assert Col(CornerInverse, 3) == Vec4(1.0, 0.0, 0.0, 0.0);
      assert MulVec(CornerMatrix, Vec4(1.0, 0.0, 0.0, 0.0)) == Vec4(0.0, 0.0, 0.0, 1.0);
    }
  }

  /** The weights of the corner tetrahedron in closed form: (1 - x - y - z, x, y, z). */
  lemma CornerWeights(p: Vec3)
    ensures TransformToBarycentric(UnitCorner(), p) == Vec4(1.0 - p.x - p.y - p.z, p.x, p.y, p.z)
  {
    CornerInverseApplied(UnitCorner().transform, Homogeneous(p));
  }

  lemma CornerInverseApplied(m: Mat4, h: Vec4)
    requires m == CornerInverse
    ensures MulVec(m, h) == Vec4(h.w - h.x - h.y - h.z, h.x, h.y, h.z)
  {
  }

  /** The centroid has equal weights and lies inside. */
  lemma CentroidLiesInside()
    ensures TransformToBarycentric(UnitCorner(), Vec3(0.25, 0.25, 0.25)) == Vec4(0.25, 0.25, 0.25, 0.25)
    ensures PointLiesInside(TransformToBarycentric(UnitCorner(), Vec3(0.25, 0.25, 0.25)))
  {
    CornerWeights(Vec3(0.25, 0.25, 0.25));
  }

  /** (2, 2, 2) has a negative weight and lies outside. */
  lemma FarPointLiesOutside()
    ensures TransformToBarycentric(UnitCorner(), Vec3(2.0, 2.0, 2.0)) == Vec4(-5.0, 2.0, 2.0, 2.0)
    ensures !PointLiesInside(TransformToBarycentric(UnitCorner(), Vec3(2.0, 2.0, 2.0)))
  {
    CornerWeights(Vec3(2.0, 2.0, 2.0));
  }

  /** A point on the face opposite vertex 0 has a zero weight and still lies inside. */
  lemma FacePointLiesInside()
    ensures TransformToBarycentric(UnitCorner(), Vec3(0.5, 0.5, 0.0)) == Vec4(0.0, 0.5, 0.5, 0.0)
    ensures PointLiesInside(TransformToBarycentric(UnitCorner(), Vec3(0.5, 0.5, 0.0)))
  {
    CornerWeights(Vec3(0.5, 0.5, 0.0));
  }

  /** The containment test looks at signs only: weights summing to four still pass. */
  lemma InsideWithoutSumToOne()
    ensures PointLiesInside(Vec4(1.0, 1.0, 1.0, 1.0)) && Sum(Vec4(1.0, 1.0, 1.0, 1.0)) != 1.0
  {
  }
}
