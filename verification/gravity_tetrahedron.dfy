/**
  The gravity tetrahedron: a cell of a tetrahedralised gravity field. It holds
  four gravity samples and the barycentric transform derived from their
  positions, and answers coordinate conversion, containment and gravity
  interpolation queries. All of it is immutable after construction.
 */
module Gravity {
  import opened LinearAlgebra

  /** A gravity sample: where it is, which way gravity pulls there, and how hard. */
  datatype GravityPoint = GravityPoint(position: Vec3, direction: Vec3, forceFactor: real)

  const Origin: Vec3 := Vec3(0.0, 0.0, 0.0)

  /** The fixed-size vertex array: exactly four samples, in construction order. */
  type Vertices = s: seq<GravityPoint> | |s| == 4
    witness [GravityPoint(Origin, Origin, 0.0), GravityPoint(Origin, Origin, 0.0),
             GravityPoint(Origin, Origin, 0.0), GravityPoint(Origin, Origin, 0.0)]

  /** The `unsigned char` vertex index of the lookup operation. */
  newtype UChar = n: int | 0 <= n < 256

  /**
    The cell: the four samples and the cached transform that maps homogeneous
    Cartesian coordinates to barycentric weights.
   */
  datatype GravityTetrahedron = GravityTetrahedron(vertex: Vertices, transform: Mat4)

  /**
    The matrix the transform is the inverse of. Written row by row it holds the
    x, y and z coordinates of the four positions and a row of ones; read column
    by column, column i is vertex i's position in homogeneous coordinates, so
    it maps barycentric weights to homogeneous Cartesian coordinates.
   */
  function CartesianMatrix(vertex: Vertices): (a: Mat4)
    ensures forall i: Index :: Col(a, i) == Homogeneous(vertex[i].position)
  {
    var p0, p1, p2, p3 := vertex[0].position, vertex[1].position, vertex[2].position, vertex[3].position;
    Mat4(Vec4(p0.x, p1.x, p2.x, p3.x),
         Vec4(p0.y, p1.y, p2.y, p3.y),
         Vec4(p0.z, p1.z, p2.z, p3.z),
         Vec4(1.0, 1.0, 1.0, 1.0))
  }

  /**
    The four positions are affinely independent, which is what makes the cached
    transform a two-sided inverse of the Cartesian matrix. Construction does not
    check it; the barycentric laws below assume it.
   */
  ghost predicate NonDegenerate(t: GravityTetrahedron) {
    IsInverse(t.transform, CartesianMatrix(t.vertex))
  }

  /**
    Construction: keep the four samples in the order given and cache the
    inverse of their Cartesian matrix. The matrix library's inversion is the
    parameter `inverse`.
   */
  function Construct(p0: GravityPoint, p1: GravityPoint, p2: GravityPoint, p3: GravityPoint,
                     inverse: Mat4 -> Mat4): (t: GravityTetrahedron)
    ensures t.vertex == [p0, p1, p2, p3]
    ensures t.transform == inverse(CartesianMatrix([p0, p1, p2, p3]))
  {
    var vertex: Vertices := [p0, p1, p2, p3];
    GravityTetrahedron(vertex, inverse(CartesianMatrix(vertex)))
  }

  /**
    Containment test on barycentric weights: every weight is non-negative.
    A weight of exactly zero (a point on a face, edge or vertex) is inside,
    and the weights are not required to sum to one.
   */
  function PointLiesInside(bary: Vec4): (inside: bool)
    ensures inside <==> forall i: Index :: At(bary, i) >= 0.0
  {
    assert At(bary, 0) == bary.x && At(bary, 1) == bary.y && At(bary, 2) == bary.z && At(bary, 3) == bary.w;
    bary.x >= 0.0 && bary.y >= 0.0 && bary.z >= 0.0 && bary.w >= 0.0
  }

  /** Cartesian to barycentric: the cached transform applied to (x, y, z, 1). */
  function TransformToBarycentric(t: GravityTetrahedron, cartesian: Vec3): Vec4 {
    MulVec(t.transform, Homogeneous(cartesian))
  }

  /** Barycentric to Cartesian: the positions weighted by the barycentric weights. */
  function TransformToCartesian(t: GravityTetrahedron, barycentric: Vec4): Vec3 {
    Combine(barycentric, t.vertex[0].position, t.vertex[1].position, t.vertex[2].position, t.vertex[3].position)
  }

  /** The position of a vertex, which is where its basis weight e_id lands. */
  function GetVertexPosition(t: GravityTetrahedron, vertexID: UChar): (position: Vec3)
    requires vertexID < 4
    ensures position == TransformToCartesian(t, Basis(vertexID as int))
  {
    CartesianOfBasis(t, vertexID as int);
    t.vertex[vertexID].position
  }

  /** The Cartesian point of the basis weights e_i is the position of vertex i. */
  lemma CartesianOfBasis(t: GravityTetrahedron, i: Index)
    ensures TransformToCartesian(t, Basis(i)) == t.vertex[i].position
  {
    var v := t.vertex;
    CombineBasis(i, v[0].position, v[1].position, v[2].position, v[3].position);
  }

  /** The gravity directions blended by the barycentric weights (not normalised). */
  function BlendedDirection(t: GravityTetrahedron, barycentric: Vec4): Vec3 {
    Combine(barycentric, t.vertex[0].direction, t.vertex[1].direction, t.vertex[2].direction, t.vertex[3].direction)
  }

  /** The four force factors, in vertex order. */
  function ForceFactors(t: GravityTetrahedron): Vec4 {
    Vec4(t.vertex[0].forceFactor, t.vertex[1].forceFactor, t.vertex[2].forceFactor, t.vertex[3].forceFactor)
  }

  /** The force factors blended by the barycentric weights. */
  function BlendedForce(t: GravityTetrahedron, barycentric: Vec4): real {
    Dot(ForceFactors(t), barycentric)
  }

  /**
    Gravity at a barycentric location: the blended direction, normalised, scaled
    by the blended force factor. The vector library's normalisation is the
    parameter `normalized`.
   */
  function InterpolateGravity(t: GravityTetrahedron, barycentric: Vec4, normalized: Vec3 -> Vec3): Vec3 {
    Scale3(BlendedForce(t, barycentric), normalized(BlendedDirection(t, barycentric)))
  }
}
