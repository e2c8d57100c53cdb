# Gravity tetrahedron: barycentric coordinates and gravity interpolation

This project models the gravity tetrahedron of the iceweasel game, from
`GravityTetrahedron.cpp`. The gravity tetrahedron is one cell of a
tetrahedralised gravity field. It holds four gravity points. Each point has a
position, a gravity direction and a force factor. The cell also caches a 4×4
barycentric transform, which is the inverse of the matrix whose column i is
vertex i's position in homogeneous coordinates `(x_i, y_i, z_i, 1)`. The cell
answers these queries:

- `TransformToBarycentric`: converts a point to barycentric weights.
- `TransformToCartesian`: converts weights back to a point.
- `PointLiesInside`: tests a weight vector for containment.
- `GetVertexPosition`: looks up a vertex position.
- `InterpolateGravity`: interpolates gravity. It normalises the blended
  directions and scales them by the blended force factors.

Files:

- `linear_algebra.dfy` (module `LinearAlgebra`): real-valued stand-ins for the
  engine's `Vector3`, `Vector4` and `Matrix4`. It also proves the matrix facts
  the laws need: associativity of matrix-vector products, linearity, and
  columns of a product.
- `gravity_tetrahedron.dfy` (module `Gravity`): `GravityPoint`, the cell
  datatype and every operation of the source file.
- `barycentric_laws.dfy` (module `BarycentricLaws`): the laws. These are the
  two round trips, sum-to-one, vertex recovery, containment as convex-hull
  membership, linearity, and gravity at the vertices and under a uniform
  direction.
- `unit_corner_example.dfy` (module `UnitCornerExample`): the corner
  tetrahedron (0,0,0), (1,0,0), (0,1,0), (0,0,1), with a hand-computed inverse
  proved to be a two-sided inverse. It shows the containment test on the
  centroid, on a far point and on a point on a face.

Modelling choices:

- All arithmetic is exact `real` in place of `float`.
- The engine's matrix inversion (`Matrix4::Inverse`) is the parameter
  `inverse: Mat4 -> Mat4` of `Construct`.
- The engine's `Vector3::Normalized` is the parameter
  `normalized: Vec3 -> Vec3` of `InterpolateGravity`.
- The source never checks that the four positions are non-coplanar. The model
  states this as the predicate `NonDegenerate`: the cached transform is a
  two-sided inverse of the Cartesian matrix. Every law that needs it takes it
  as a `requires`.
- The `assert(vertexID < 4)` of `GetVertexPosition` becomes a `requires`. The
  `unsigned char` index becomes the newtype `UChar`.

## Model

| member | source | states |
|---|---|---|
| Gravity.Construct | software/game/iceweasel/src/GravityTetrahedron.cpp:11-22 | the four points are stored in the order given, and the transform is the inversion applied to the Cartesian matrix of exactly those four points |
| BarycentricLaws.ConstructStoresInOrder | software/game/iceweasel/src/GravityTetrahedron.cpp:11-19 | vertex i of a constructed cell is argument p_i, and `GetVertexPosition(i)` returns p_i's position |
| BarycentricLaws.TransformDependsOnPositionsOnly | software/game/iceweasel/src/GravityTetrahedron.cpp:74-84 | two cells whose points share positions get the same transform, whatever their directions and force factors |
| BarycentricLaws.ConstructNonDegenerateIff | software/game/iceweasel/src/GravityTetrahedron.cpp:21-21 | a constructed cell is non-degenerate exactly when the inversion returned a two-sided inverse of the Cartesian matrix |
| Gravity.CartesianMatrix | software/game/iceweasel/src/GravityTetrahedron.cpp:78-82 | the row-major matrix the transform inverts has vertex i's homogeneous position (x_i, y_i, z_i, 1) as column i |
| Gravity.PointLiesInside | software/game/iceweasel/src/GravityTetrahedron.cpp:25-33 | inside holds iff every one of the four weights is ≥ 0; a zero weight counts as inside |
| UnitCornerExample.InsideWithoutSumToOne | software/game/iceweasel/src/GravityTetrahedron.cpp:25-33 | the containment test does not require the weights to sum to one: (1, 1, 1, 1) passes |
| Gravity.GetVertexPosition | software/game/iceweasel/src/GravityTetrahedron.cpp:51-55 | for an index below 4, the returned position is the point that the basis weights e_id map to |
| Gravity.CartesianOfBasis | software/game/iceweasel/src/GravityTetrahedron.cpp:42-48 | `TransformToCartesian(e_i)` is vertex i's position |
| BarycentricLaws.CartesianIsLinear | software/game/iceweasel/src/GravityTetrahedron.cpp:42-48 | `TransformToCartesian(s·b + u·c) = s·TransformToCartesian(b) + u·TransformToCartesian(c)` |
| BarycentricLaws.CartesianMatrixMulVec | software/game/iceweasel/src/GravityTetrahedron.cpp:42-48 | the Cartesian matrix applied to weights b gives b's Cartesian point together with the sum of the weights |
| BarycentricLaws.BarycentricIsAffine | software/game/iceweasel/src/GravityTetrahedron.cpp:36-39 | the weights of the affine mix s·p + (1−s)·q are the same mix of the weights of p and q |
| BarycentricLaws.BarycentricSumsToOne | software/game/iceweasel/src/GravityTetrahedron.cpp:36-39 | for a non-degenerate cell, the four weights of every point sum to 1 |
| BarycentricLaws.CartesianRoundTrip | software/game/iceweasel/src/GravityTetrahedron.cpp:36-48 | for a non-degenerate cell, `TransformToCartesian(TransformToBarycentric(p)) == p` for every p |
| BarycentricLaws.CartesianRoundTripAndSum | software/game/iceweasel/src/GravityTetrahedron.cpp:36-48 | both facts together, derived from A·M = I and the row of ones in A |
| BarycentricLaws.BarycentricRoundTrip | software/game/iceweasel/src/GravityTetrahedron.cpp:36-48 | for a non-degenerate cell, weights that sum to 1 are recovered from their Cartesian point |
| BarycentricLaws.VertexRecovery | software/game/iceweasel/src/GravityTetrahedron.cpp:36-39 | for a non-degenerate cell, the weights of vertex i's position are e_i |
| BarycentricLaws.VertexLiesInside | software/game/iceweasel/src/GravityTetrahedron.cpp:25-39 | for a non-degenerate cell, every vertex passes the containment test |
| BarycentricLaws.InsideIffInHull | software/game/iceweasel/src/GravityTetrahedron.cpp:25-48 | for a non-degenerate cell, the weights of p pass the containment test iff p is a convex combination of the four positions |
| BarycentricLaws.GravityAtBasis | software/game/iceweasel/src/GravityTetrahedron.cpp:58-71 | at weights e_i the gravity is `Normalized(direction_i) * forceFactor_i` |
| BarycentricLaws.GravityAtVertex | software/game/iceweasel/src/GravityTetrahedron.cpp:58-71 | for a non-degenerate cell, the gravity at the weights of vertex i's position is vertex i's own normalised direction times its force factor |
| BarycentricLaws.GravityUnderUniformDirection | software/game/iceweasel/src/GravityTetrahedron.cpp:58-71 | when all four directions equal d and the weights sum to 1, the gravity is `Normalized(d)` times the weighted average of the force factors |
| BarycentricLaws.GravityMagnitude | software/game/iceweasel/src/GravityTetrahedron.cpp:58-71 | when the normalised blended direction has unit length, the squared length of the gravity is the square of the blended force factor |
| UnitCornerExample.UnitCornerIsNonDegenerate | software/game/iceweasel/src/GravityTetrahedron.cpp:78-83 | the corner tetrahedron built with its hand-computed inverse satisfies the non-degeneracy invariant |
| UnitCornerExample.CornerWeights | software/game/iceweasel/src/GravityTetrahedron.cpp:36-39 | the corner tetrahedron's weights of (x, y, z) are (1 − x − y − z, x, y, z) |
| UnitCornerExample.CentroidLiesInside | software/game/iceweasel/src/GravityTetrahedron.cpp:25-39 | the centroid (¼, ¼, ¼) has weights (¼, ¼, ¼, ¼) and lies inside |
| UnitCornerExample.FarPointLiesOutside | software/game/iceweasel/src/GravityTetrahedron.cpp:25-39 | (2, 2, 2) has weights (−5, 2, 2, 2) and lies outside |
| UnitCornerExample.FacePointLiesInside | software/game/iceweasel/src/GravityTetrahedron.cpp:25-39 | (½, ½, 0) lies on a face, has weights (0, ½, ½, 0), and is classified as inside |

## Left out

- Floating point: the model uses exact reals. The laws hold exactly here. In
  `float` they hold only up to rounding.
- `Matrix4::Inverse`: the construction takes the inversion as a parameter. The
  laws assume it returned a two-sided inverse (`NonDegenerate`). Computing or
  verifying a cofactor inverse is out of scope. For coplanar positions the
  library returns some matrix, and the model only keeps the transform it is
  given.
- `Vector3::Normalized`: it is the parameter `normalized`. Its square-root body
  is not modelled. Neither is what it returns for the zero vector, which
  happens when the blended directions cancel out.
- GravityMagnitude: it assumes the normalised blended direction has unit
  length. It says nothing when the blended direction is zero.
- `DrawDebugGeometry` and its commented-out sphere: these are rendering calls
  into the engine's debug renderer.
- The behaviour of an out-of-range vertex index when assertions are compiled
  out: the lookup requires the index to be below 4.
- The `GravityTetrahedron.h`, `GravityPoint.h` and `Math.h` headers are not
  part of this model. `GravityPoint`, `Vec3`, `Vec4` and `Mat4` are minimal
  real-valued records holding only the members the operations use.
