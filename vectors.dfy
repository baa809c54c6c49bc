/** Two- and three-dimensional vectors; `float` components are modelled as `real`. */
module Vectors {

  /** `V2`: a point or a free vector in the plane (also built by `Point2` and `Vector2`). */
  datatype V2 = V2(x: real, y: real)

  /** `V3`: a point or a free vector in space (also built by `Point3` and `Vector3`). */
  datatype V3 = V3(x: real, y: real, z: real)

  /** `operator*(float, V2)`: scaling. */
  function Scale2(a: real, p: V2): V2
  {
    V2(a * p.x, a * p.y)
  }

  /** `operator+(V2, V2)` */
  function Add2(p1: V2, p2: V2): V2
  {
    V2(p1.x + p2.x, p1.y + p2.y)
  }

  /** `operator-(V2, V2)` */
  function Sub2(p1: V2, p2: V2): V2
  {
    V2(p1.x - p2.x, p1.y - p2.y)
  }

  /** Unary `operator-(V3)` */
  function Neg3(v: V3): V3
  {
    V3(-v.x, -v.y, -v.z)
  }

  /** `operator*(float, V3)`: scaling. */
  function Scale3(a: real, p: V3): V3
  {
    V3(a * p.x, a * p.y, a * p.z)
  }

  /** `operator+(V3, V3)` */
  function Add3(p1: V3, p2: V3): V3
  {
    V3(p1.x + p2.x, p1.y + p2.y, p1.z + p2.z)
  }

  /** `operator-(V3, V3)` */
  function Sub3(p1: V3, p2: V3): V3
  {
    V3(p1.x - p2.x, p1.y - p2.y, p1.z - p2.z)
  }

  /** Dot product, used to state what the rotations keep; the renderer's own math uses it inline. */
  function Dot3(a: V3, b: V3): real
  {
    a.x * b.x + a.y * b.y + a.z * b.z
  }

  /** Subtraction undoes addition, and addition undoes subtraction, in the plane. */
  lemma SubUndoesAdd2(p1: V2, p2: V2)
    ensures Sub2(Add2(p1, p2), p2) == p1
    ensures Add2(Sub2(p1, p2), p2) == p1
  {
  }

  /** Subtraction undoes addition, and addition undoes subtraction, in space. */
  lemma SubUndoesAdd3(p1: V3, p2: V3)
    ensures Sub3(Add3(p1, p2), p2) == p1
    ensures Add3(Sub3(p1, p2), p2) == p1
  {
  }

  /** Subtracting is adding the negation, and negation is scaling by -1 and an involution. */
  lemma NegationLaws3(p1: V3, p2: V3)
    ensures Sub3(p1, p2) == Add3(p1, Neg3(p2))
    ensures Neg3(p2) == Scale3(-1.0, p2)
    ensures Neg3(Neg3(p2)) == p2
  {
  }

  /** Scaling distributes over addition, in the plane and in space. */
  lemma ScaleDistributes(a: real, p1: V2, p2: V2, q1: V3, q2: V3)
    ensures Scale2(a, Add2(p1, p2)) == Add2(Scale2(a, p1), Scale2(a, p2))
    ensures Scale3(a, Add3(q1, q2)) == Add3(Scale3(a, q1), Scale3(a, q2))
  {
  }
}
