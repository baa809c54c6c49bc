# Cube renderer: math layer and pixel buffer

A Dafny model of the core of a small Windows cube renderer. It has two parts.

- **The header-only math library.** This covers:
  - the C `int` absolute value and 2D/3D vectors;
  - 3x3 matrices: column construction, matrix-vector and matrix-matrix products, the identity, and the three axis rotations with the dispatch over a signed basis axis;
  - the right-turn orientation test and the two quadrilateral tests built on it;
  - quaternions as the second rotation form.
- **The pixel buffer of the executable.** This is the `Bitmap` record, its reallocation on resize, and the per-frame background fill.

Modelling choices:

- `float` is modelled as `real`, without rounding.
- `sinf` and `cosf` are a parameter `Trig` holding two arbitrary functions. Every rotation fact below holds whatever they return. Where a fact needs `sin^2 + cos^2 == 1`, that identity is a precondition.
- The C `int` is the newtype `Scalars.int32`.
- The pixel memory is an `array<bv32>` field of the class `Bitmaps.Bitmap`.
- Code that works step by step is imperative Dafny, proved against a specification function:
  - the triple loop of the matrix product (`Matrices.Mul` against `Matrices.Product`);
  - the `&=` flags of the quad tests (`Quads.IsValidQuad2` against `Quads.AllTurnRight`, `Quads.IsPointInQuad2` against `Quads.RightOfEveryEdge`);
  - the pointer walk of `DrawScene` (against `Bitmaps.Painted` and `Bitmaps.Scan`).
- The rest are functions.

Modules, one per file:
- `Scalars` (scalars.dfy)
- `Vectors` (vectors.dfy)
- `Matrices` (matrices.dfy)
- `Quads` (quads.dfy)
- `Quaternions` (quaternions.dfy)
- `Bitmaps` (bitmap.dfy)

## Model

| member | source | states |
|---|---|---|
| Scalars.IntAbs | Math.hpp:6-11 | the result is non-negative, is `x` or `-x`, and is at least `x`; `INT_MIN` is excluded because its negation overflows |
| Scalars.AbsIsMagnitude | Math.hpp:232-237 | the float `Abs` is non-negative, is `x` or `-x`, and is at least both `x` and `-x` |
| Vectors.SubUndoesAdd2 | Math.hpp:40-56 | in the plane, `(p1 + p2) - p2 == p1` and `(p1 - p2) + p2 == p1` |
| Vectors.SubUndoesAdd3 | Math.hpp:103-121 | in space, `(p1 + p2) - p2 == p1` and `(p1 - p2) + p2 == p1` |
| Vectors.NegationLaws3 | Math.hpp:63-71 | unary minus turns subtraction into adding the negation, equals scaling by -1, and is an involution |
| Vectors.ScaleDistributes | Math.hpp:31-47 | scaling distributes over addition, in 2D and in 3D |
| Matrices.ColumnMatrix | Math.hpp:128-141 | the matrix sends the three basis vectors to `col1`, `col2` and `col3` |
| Matrices.ProductComposes | Math.hpp:143-170 | applying the product `m1 * m2` to `v` equals applying `m2` and then `m1` |
| Matrices.PartialEntryComplete | Math.hpp:159-166 | the inner loop's running sum after three steps is the row-times-column entry of the product |
| Matrices.Mul | Math.hpp:153-170 | the triple loop produces exactly the product, and applying the result to any vector equals applying `m2` and then `m1` |
| Matrices.GetIdentityMatrix | Math.hpp:172-185 | the identity matrix fixes every vector |
| Matrices.IdentityIsUnit | Math.hpp:153-185 | the identity is a left and a right unit of the matrix product |
| Matrices.GetZAxisRotation | Math.hpp:187-200 | for any sine and cosine, the rotation keeps every vector's z coordinate and fixes the z axis |
| Matrices.GetYAxisRotation | Math.hpp:202-215 | for any sine and cosine, the rotation keeps every vector's y coordinate and fixes the y axis |
| Matrices.GetXAxisRotation | Math.hpp:217-230 | for any sine and cosine, the rotation keeps every vector's x coordinate and fixes the x axis |
| Matrices.ZeroAngleIsIdentity | Math.hpp:187-230 | when `sin 0 == 0` and `cos 0 == 1`, each of the three generators at angle 0 is the identity |
| Matrices.OppositeNegates | Math.hpp:239-257 | the opposite signed axis has the negated unit vector, and taking the opposite twice gives the axis back |
| Matrices.DispatchOnBasisAxes | Math.hpp:239-257 | each of the six signed basis axes passes the Assert and a component test, and gets that axis's generator, with the angle negated for a negative axis |
| Matrices.RotationKeepsAxialComponent | Math.hpp:239-257 | a rotation about a signed basis axis keeps every vector's component along that axis |
| Matrices.OppositeAxis | Math.hpp:239-257 | turning about the opposite basis axis equals turning about the axis by the opposite angle |
| Matrices.NegatedAxis | Math.hpp:239-257 | turning about the negated basis vector `-axis` equals turning about `axis` by the opposite angle |
| Matrices.NonBasisAxisDispatchesByFirstTest | Math.hpp:241-251 | the non-unit axis (1, 1, -1) passes the Assert and is turned about as if it were +x, because the dispatch tests single components in order |
| Quads.DetCyclic | Math.hpp:259-268 | the turn determinant of three points is unchanged by a cyclic shift of the points |
| Quads.DetReversed | Math.hpp:259-268 | walking the three points backwards negates the turn determinant |
| Quads.TurnsRightCyclic | Math.hpp:259-268 | `TurnsRight` depends only on the cyclic order of its points |
| Quads.TurnsRightReversed | Math.hpp:259-268 | a right turn walked backwards is not a right turn |
| Quads.RepeatedPointNeverTurns | Math.hpp:259-268 | a path with a repeated consecutive point never turns right, because the test is strict |
| Quads.IsValidQuad2 | Math.hpp:280-289 | the flag is true exactly when every three cyclically consecutive vertices turn right |
| Quads.IsPointInQuad2 | Math.hpp:291-300 | the flag is true exactly when `p` is strictly right of each of the four directed edges |
| Quads.ValidityIsCyclic | Math.hpp:280-289 | validity is unchanged when the vertex list starts one vertex later |
| Quads.ReversalInvalidates | Math.hpp:280-289 | a valid quad with its vertex order reversed is not valid |
| Quads.ContainmentIsCyclic | Math.hpp:291-300 | containment is unchanged when the vertex list starts one vertex later |
| Quads.VertexNotInside | Math.hpp:291-300 | no vertex of a quad is reported inside it |
| Quaternions.PositionToQuat | Math.hpp:315-334 | a stored position has real part zero, and reading it back with `QuatToPosition` gives the position |
| Quaternions.PositionRoundTrip | Math.hpp:315-334 | reading a stored position back gives the position, and storing the read-back vector part of a pure quaternion gives the quaternion |
| Quaternions.ConjugateInvolution | Math.hpp:336-345 | conjugating twice gives the quaternion back |
| Quaternions.IdentityIsUnit | Math.hpp:347-373 | the identity rotation quaternion is a left and a right unit of the Hamilton product |
| Quaternions.ConjugateIdentityIsRightUnit | Math.hpp:336-373 | the conjugate of the identity quaternion is also a right unit |
| Quaternions.SandwichByIdentity | Math.hpp:336-373 | sandwiching a quaternion between the identity and its conjugate gives the quaternion back |
| Quaternions.IdentityRotationFixes | Math.hpp:364-384 | rotating by the identity quaternion leaves every position where it is |
| Quaternions.MulAssociative | Math.hpp:347-362 | the Hamilton product is associative, so the two readings of `rotations * pq * rotations_inv` agree |
| Quaternions.SandwichIsPure | Math.hpp:375-384 | the sandwich of a stored position has real part zero, so reading the position back drops nothing |
| Quaternions.RotationQuatIsUnit | Math.hpp:386-398 | the rotation quaternion of a unit axis has squared length 1, given `sin^2 + cos^2 == 1` at half the angle |
| Quaternions.UnitNormOfParts | Math.hpp:386-398 | `(c, s * axis)` has squared length 1 for a unit axis and `s^2 + c^2 == 1` |
| Quaternions.RotationQuatFixesAxis | Math.hpp:375-398 | rotating a unit axis by its own rotation quaternion leaves it fixed, given `sin^2 + cos^2 == 1` at half the angle |
| Quaternions.RotatedAxis | Math.hpp:375-398 | rotating any axis about itself scales it by `s^2 * Dot3(axis, axis) + c^2` |
| Quaternions.RotatedUnitAxis | Math.hpp:375-398 | for a unit axis and `s^2 + c^2 == 1` that scale factor is 1 |
| Bitmaps.ScanIsRowMajor | Cube.cpp:64-73 | the nested loops visit exactly `width * height` offsets, and the i-th one visited is offset `i`, so each pixel is written once and in order |
| Bitmaps.PaintedAt | Cube.cpp:64-73 | after `n` writes, the pixels before `n` hold the background colour and the rest are unchanged |
| Bitmaps.PaintedIdempotent | Cube.cpp:61-74 | a second background fill over the same pixels changes nothing |
| Bitmaps.PaintedAllIsBackground | Cube.cpp:61-74 | filling the whole buffer leaves only the background colour, whatever it held before |
| Bitmaps.Bitmap.constructor | Cube.cpp:6-13 | the zero-initialised global bitmap has no pixels and zero dimensions |
| Bitmaps.Bitmap.Resize | Cube.cpp:16-25 | records the new width and height, and replaces the buffer by a fresh one of `width * height` pixels, so the size invariant holds |
| Bitmaps.Bitmap.DrawScene | Cube.cpp:61-74 | every pixel is set to 0xAAAAAA; the buffer is the background fill of the old one; the pixels are written in row-major order; the dimensions, the buffer identity and the size invariant are unchanged |

## Left out

- `WinCallback` and `WinMain` (Cube.cpp:27-143) are left out. They are Windows message handling, window creation, the blit to the screen and the main loop, all operating-system I/O.
- `sinf` and `cosf` are left arbitrary. No trigonometric identity is built in. The two facts that need `sin^2 + cos^2 == 1` (`Quaternions.RotationQuatFixesAxis` and `Quaternions.RotationQuatIsUnit`) take it as a precondition.
- Floating-point rounding is left out: `float` is `real`. Equality tests such as `axis.x == 1.0f` are exact real comparisons.
- `Point2`, `Vector2`, `Point3` and `Vector3` are not separate members. They are the datatype constructors `V2` and `V3`.
- `Quad3` (Math.hpp:275-278) is modelled as a type only, because the core defines no operation on it.
- The unused locals `I`, `J` and `K` of the quaternion product carry no behaviour and are left out.
- The rasterizer that would draw the cube is not part of this model. `DrawScene` only fills the background.
- `delete` on the old buffer and the use of `delete` instead of `delete[]` are not modelled. Dafny has no deallocation, so the old array is simply no longer referenced. The new buffer's contents are left unspecified, as `new unsigned int[n]` leaves them.
- Scalars.IntAbs: requires `x != INT_MIN`. `-INT_MIN` overflows, which is undefined behaviour in C++.
- Bitmaps.Bitmap.Resize: requires non-negative sizes whose product fits in `int`. A negative `new[]` size throws, and a product that overflows is undefined behaviour.
- Bitmaps.Bitmap.DrawScene: requires the size invariant `memory.Length == width * height`. The source relies on it but does not check it.
- Matrices.GetRotationAroundAxis: requires the `Assert` on `|x + y + z| == 1` and that one of the six component tests succeeds. Otherwise the source reaches `DebugBreak` and stops, and that path is not modelled.
- The dispatch follows the code, not the intent. Any axis that passes those tests is accepted, including non-unit ones such as (1, 1, -1) (`Matrices.NonBasisAxisDispatchesByFirstTest`).
- Bitmaps.Bitmap.DrawScene: the write order is a ghost result. The model does not mimic the pointer as an address: `pixel` is an index into the array.
