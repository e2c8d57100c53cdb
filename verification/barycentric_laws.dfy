/**
  The algebraic laws of the gravity tetrahedron: round trips between
  Cartesian and barycentric coordinates, sum-to-one, vertex recovery,
  containment semantics, linearity, and gravity interpolation at the
  vertices and under a uniform direction.
 */
module BarycentricLaws {
  import opened LinearAlgebra
  import opened Gravity

  /** Weights that are non-negative and sum to one: a point of the closed tetrahedron. */
  predicate IsConvex(b: Vec4) {
    PointLiesInside(b) && Sum(b) == 1.0
  }

  /** p is a convex combination of the four vertex positions. */
  ghost predicate InHull(t: GravityTetrahedron, p: Vec3) {
    exists b: Vec4 :: IsConvex(b) && TransformToCartesian(t, b) == p
  }

  /**
    The Cartesian matrix applied to weights b gives the Cartesian point of b
    together with the sum of the weights.
   */
  lemma CartesianMatrixMulVec(t: GravityTetrahedron, b: Vec4)
    ensures MulVec(CartesianMatrix(t.vertex), b)
            == Vec4(TransformToCartesian(t, b).x, TransformToCartesian(t, b).y,
                    TransformToCartesian(t, b).z, Sum(b))
  {
  }

  /** The stored samples are the arguments, in order, and nothing else. */
  lemma ConstructStoresInOrder(p0: GravityPoint, p1: GravityPoint, p2: GravityPoint, p3: GravityPoint,
                               inverse: Mat4 -> Mat4, i: UChar)
    requires i < 4
    ensures GetVertexPosition(Construct(p0, p1, p2, p3, inverse), i) == [p0, p1, p2, p3][i].position
    ensures Construct(p0, p1, p2, p3, inverse).vertex[i] == [p0, p1, p2, p3][i]
  {
  }

  /**
    A cell built with a correct inversion is non-degenerate, and only then:
    the laws below hold for it exactly when the library returned a true inverse.
   */
  lemma ConstructNonDegenerateIff(p0: GravityPoint, p1: GravityPoint, p2: GravityPoint, p3: GravityPoint,
                                  inverse: Mat4 -> Mat4)
    ensures NonDegenerate(Construct(p0, p1, p2, p3, inverse))
            <==> IsInverse(inverse(CartesianMatrix([p0, p1, p2, p3])), CartesianMatrix([p0, p1, p2, p3]))
  {
  }

  /** The transform depends on the four positions only, not on directions or force factors. */
  lemma TransformDependsOnPositionsOnly(p0: GravityPoint, p1: GravityPoint, p2: GravityPoint, p3: GravityPoint,
                                        q0: GravityPoint, q1: GravityPoint, q2: GravityPoint, q3: GravityPoint,
                                        inverse: Mat4 -> Mat4)
    requires p0.position == q0.position && p1.position == q1.position
    requires p2.position == q2.position && p3.position == q3.position
    ensures Construct(p0, p1, p2, p3, inverse).transform == Construct(q0, q1, q2, q3, inverse).transform
  {
    assert CartesianMatrix([p0, p1, p2, p3]) == CartesianMatrix([q0, q1, q2, q3]);
  }

  /** Sum-to-one: the barycentric weights of every point sum to one. */
  lemma BarycentricSumsToOne(t: GravityTetrahedron, p: Vec3)
    requires NonDegenerate(t)
    ensures Sum(TransformToBarycentric(t, p)) == 1.0
  {
    CartesianRoundTripAndSum(t, p);
  }

  /** Round trip: converting to barycentric and back gives the point itself. */
  lemma CartesianRoundTrip(t: GravityTetrahedron, p: Vec3)
    requires NonDegenerate(t)
    ensures TransformToCartesian(t, TransformToBarycentric(t, p)) == p
  {
    CartesianRoundTripAndSum(t, p);
  }

  lemma CartesianRoundTripAndSum(t: GravityTetrahedron, p: Vec3)
    requires NonDegenerate(t)
    ensures TransformToCartesian(t, TransformToBarycentric(t, p)) == p
    ensures Sum(TransformToBarycentric(t, p)) == 1.0
  {
    var a := CartesianMatrix(t.vertex);
    var b := TransformToBarycentric(t, p);
    calc {
      MulVec(a, b);
      { MulVecAssociative(a, t.transform, Homogeneous(p)); }
      MulVec(MatMul(a, t.transform), Homogeneous(p));
      { MulVecIdentity(Homogeneous(p)); }
      Homogeneous(p);
    }
    CartesianMatrixMulVec(t, b);
  }

  /**
    The other round trip: weights that sum to one are recovered from their
    Cartesian point.
   */
  lemma BarycentricRoundTrip(t: GravityTetrahedron, b: Vec4)
    requires NonDegenerate(t)
    requires Sum(b) == 1.0
    ensures TransformToBarycentric(t, TransformToCartesian(t, b)) == b
  {
    var a := CartesianMatrix(t.vertex);
    CartesianMatrixMulVec(t, b);
    assert Homogeneous(TransformToCartesian(t, b)) == MulVec(a, b);
    calc {
      TransformToBarycentric(t, TransformToCartesian(t, b));
      MulVec(t.transform, MulVec(a, b));
      { MulVecAssociative(t.transform, a, b); }
      MulVec(MatMul(t.transform, a), b);
      { MulVecIdentity(b); }
      b;
    }
  }

  /** Vertex recovery: each vertex position has the basis weights e_i. */
  lemma VertexRecovery(t: GravityTetrahedron, i: UChar)
    requires NonDegenerate(t)
    requires i < 4
    ensures TransformToBarycentric(t, GetVertexPosition(t, i)) == Basis(i as int)
  {
    var a := CartesianMatrix(t.vertex);
    assert Homogeneous(GetVertexPosition(t, i)) == Col(a, i as int);
    MulVecCol(t.transform, a, i as int);
    ColIdentity(i as int);
  }

  /** Every vertex of a non-degenerate tetrahedron lies inside it. */
  lemma VertexLiesInside(t: GravityTetrahedron, i: UChar)
    requires NonDegenerate(t)
    requires i < 4
    ensures PointLiesInside(TransformToBarycentric(t, GetVertexPosition(t, i)))
  {
    VertexRecovery(t, i);
  }

  /**
    Containment semantics: the weights of p pass the containment test exactly
    when p is a convex combination of the vertex positions.
   */
  lemma InsideIffInHull(t: GravityTetrahedron, p: Vec3)
    requires NonDegenerate(t)
    ensures PointLiesInside(TransformToBarycentric(t, p)) <==> InHull(t, p)
  {
    var b := TransformToBarycentric(t, p);
    if PointLiesInside(b) {
      CartesianRoundTripAndSum(t, p);
      assert IsConvex(b) && TransformToCartesian(t, b) == p;
    }
    if InHull(t, p) {
      var c :| IsConvex(c) && TransformToCartesian(t, c) == p;
      BarycentricRoundTrip(t, c);
    }
  }

  /** TransformToCartesian is linear in its weights. */
  lemma CartesianIsLinear(t: GravityTetrahedron, s: real, b: Vec4, u: real, c: Vec4)
    ensures TransformToCartesian(t, Add4(Scale4(s, b), Scale4(u, c)))
            == Add3(Scale3(s, TransformToCartesian(t, b)), Scale3(u, TransformToCartesian(t, c)))
  {
    var d := Add4(Scale4(s, b), Scale4(u, c));
    CartesianMatrixMulVec(t, b);
    CartesianMatrixMulVec(t, c);
    CartesianMatrixMulVec(t, d);
    MulVecLinear(CartesianMatrix(t.vertex), s, b, u, c);
    DropW(s, MulVec(CartesianMatrix(t.vertex), d), MulVec(CartesianMatrix(t.vertex), b),
          MulVec(CartesianMatrix(t.vertex), c),
          TransformToCartesian(t, d), TransformToCartesian(t, b), TransformToCartesian(t, c), u);
  }

  /** A linear relation among homogeneous vectors holds among their first three components. */
  lemma DropW(s: real, hd: Vec4, hb: Vec4, hc: Vec4, pd: Vec3, pb: Vec3, pc: Vec3, u: real)
    requires hd == Add4(Scale4(s, hb), Scale4(u, hc))
    requires hd.x == pd.x && hd.y == pd.y && hd.z == pd.z
    requires hb.x == pb.x && hb.y == pb.y && hb.z == pb.z
    requires hc.x == pc.x && hc.y == pc.y && hc.z == pc.z
    ensures pd == Add3(Scale3(s, pb), Scale3(u, pc))
  {
  }

  /** TransformToBarycentric is affine: it maps a weighted mean of points to the weighted mean of their weights. */
  lemma BarycentricIsAffine(t: GravityTetrahedron, s: real, p: Vec3, q: Vec3)
    ensures TransformToBarycentric(t, Add3(Scale3(s, p), Scale3(1.0 - s, q)))
            == Add4(Scale4(s, TransformToBarycentric(t, p)), Scale4(1.0 - s, TransformToBarycentric(t, q)))
  {
    var h := Add4(Scale4(s, Homogeneous(p)), Scale4(1.0 - s, Homogeneous(q)));
    assert h.w == s * 1.0 + (1.0 - s) * 1.0 == 1.0;
    assert Homogeneous(Add3(Scale3(s, p), Scale3(1.0 - s, q))) == h;
    MulVecLinear(t.transform, s, Homogeneous(p), 1.0 - s, Homogeneous(q));
  }

  /** At the basis weights e_i the interpolated gravity is vertex i's own gravity. */
  lemma GravityAtBasis(t: GravityTetrahedron, i: Index, normalized: Vec3 -> Vec3)
    ensures InterpolateGravity(t, Basis(i), normalized)
            == Scale3(t.vertex[i].forceFactor, normalized(t.vertex[i].direction))
  {
    var v := t.vertex;
    CombineBasis(i, v[0].direction, v[1].direction, v[2].direction, v[3].direction);
    DotBasis(ForceFactors(t), i);
    assert At(ForceFactors(t), i) == v[i].forceFactor;
  }

  /** At a vertex position the interpolated gravity is that vertex's own gravity. */
  lemma GravityAtVertex(t: GravityTetrahedron, i: UChar, normalized: Vec3 -> Vec3)
    requires NonDegenerate(t)
    requires i < 4
    ensures InterpolateGravity(t, TransformToBarycentric(t, GetVertexPosition(t, i)), normalized)
            == Scale3(t.vertex[i].forceFactor, normalized(t.vertex[i].direction))
  {
    VertexRecovery(t, i);
    GravityAtBasis(t, i as int, normalized);
  }

  /**
    When all four samples pull the same way d and the weights sum to one,
    the gravity is normalised d scaled by the weighted mean of the force factors.
   */
  lemma GravityUnderUniformDirection(t: GravityTetrahedron, d: Vec3, b: Vec4, normalized: Vec3 -> Vec3)
    requires forall i: Index :: t.vertex[i].direction == d
    requires Sum(b) == 1.0
    ensures InterpolateGravity(t, b, normalized)
            == Scale3(t.vertex[0].forceFactor * b.x + t.vertex[1].forceFactor * b.y
                        + t.vertex[2].forceFactor * b.z + t.vertex[3].forceFactor * b.w,
                      normalized(d))
  {
    assert t.vertex[0].direction == d && t.vertex[1].direction == d;
    assert t.vertex[2].direction == d && t.vertex[3].direction == d;
    CombineUniform(b, d);
    assert BlendedDirection(t, b) == Scale3(1.0, d) == d;
  }

  /**
    When the normalised blended direction has unit length, the squared length
    of the gravity is the square of the blended force factor.
   */
  lemma GravityMagnitude(t: GravityTetrahedron, b: Vec4, normalized: Vec3 -> Vec3)
    requires LengthSquared(normalized(BlendedDirection(t, b))) == 1.0
    ensures LengthSquared(InterpolateGravity(t, b, normalized)) == BlendedForce(t, b) * BlendedForce(t, b)
  {
    var f, u := BlendedForce(t, b), normalized(BlendedDirection(t, b));
    calc {
      LengthSquared(Scale3(f, u));
      (f * f) * LengthSquared(u);
      f * f;
    }
  }
}
