/** 3x3 matrices of the math layer: construction, products, identity and the axis rotations. */
module Matrices {
  import opened Scalars
  import opened Vectors

  /** `M3x3`: `float v[3][3]`, indexed `m[row][col]`. */
  type M3x3 = m: seq<seq<real>> | |m| == 3 && |m[0]| == 3 && |m[1]| == 3 && |m[2]| == 3
    witness [[0.0, 0.0, 0.0], [0.0, 0.0, 0.0], [0.0, 0.0, 0.0]]

  /**
   * The two trigonometric functions `sinf` and `cosf`. They are left arbitrary: every
   * fact proved about a rotation below holds whatever these functions return.
   */
  datatype Trig = Trig(sin: real -> real, cos: real -> real)

  const E1: V3 := V3(1.0, 0.0, 0.0)
  const E2: V3 := V3(0.0, 1.0, 0.0)
  const E3: V3 := V3(0.0, 0.0, 1.0)

  /** `ColumnMatrix`: the matrix whose columns are the three given vectors. */
  function ColumnMatrix(col1: V3, col2: V3, col3: V3): (m: M3x3)
    ensures Apply(m, E1) == col1 && Apply(m, E2) == col2 && Apply(m, E3) == col3
  {
    [[col1.x, col2.x, col3.x],
     [col1.y, col2.y, col3.y],
     [col1.z, col2.z, col3.z]]
  }

  /** `operator*(M3x3, V3)`: the matrix applied to a vector. */
  function Apply(m: M3x3, v: V3): V3
  {
    V3(m[0][0] * v.x + m[0][1] * v.y + m[0][2] * v.z,
       m[1][0] * v.x + m[1][1] * v.y + m[1][2] * v.z,
       m[2][0] * v.x + m[2][1] * v.y + m[2][2] * v.z)
  }

  /** The running sum `r.v[row][col]` after the first `i` steps of the innermost loop of `operator*(M3x3, M3x3)`. */
  function PartialEntry(m1: M3x3, m2: M3x3, row: nat, col: nat, i: nat): real
    requires row < 3 && col < 3 && i <= 3
  {
    if i == 0 then 0.0 else PartialEntry(m1, m2, row, col, i - 1) + m1[row][i - 1] * m2[i - 1][col]
  }

  /** The standard matrix product, entry by entry: row of `m1` times column of `m2`. */
  function Product(m1: M3x3, m2: M3x3): M3x3
  {
    seq(3, row requires 0 <= row < 3 =>
      seq(3, col requires 0 <= col < 3 =>
        m1[row][0] * m2[0][col] + m1[row][1] * m2[1][col] + m1[row][2] * m2[2][col]))
  }

  /** The product applies its right operand first: `(m1 * m2) * v == m1 * (m2 * v)`. */
  lemma ProductComposes(m1: M3x3, m2: M3x3, v: V3)
    ensures Apply(Product(m1, m2), v) == Apply(m1, Apply(m2, v))
  {
    ProductRowComposes(m1, m2, v, 0);
    ProductRowComposes(m1, m2, v, 1);
    ProductRowComposes(m1, m2, v, 2);
  }

  /** One row of `ProductComposes`. */
  lemma ProductRowComposes(m1: M3x3, m2: M3x3, v: V3, row: nat)
    requires row < 3
    ensures Product(m1, m2)[row][0] * v.x + Product(m1, m2)[row][1] * v.y + Product(m1, m2)[row][2] * v.z
         == m1[row][0] * Apply(m2, v).x + m1[row][1] * Apply(m2, v).y + m1[row][2] * Apply(m2, v).z
  {
    var p := Product(m1, m2)[row];
    var a, b, c := m1[row][0], m1[row][1], m1[row][2];
    var u := Apply(m2, v);
    var p0, p1, p2 := p[0], p[1], p[2];
    assert p0 == a * m2[0][0] + b * m2[1][0] + c * m2[2][0];
    assert p1 == a * m2[0][1] + b * m2[1][1] + c * m2[2][1];
    assert p2 == a * m2[0][2] + b * m2[1][2] + c * m2[2][2];
    calc {
      p0 * v.x + p1 * v.y + p2 * v.z;
      (a * m2[0][0] + b * m2[1][0] + c * m2[2][0]) * v.x
        + (a * m2[0][1] + b * m2[1][1] + c * m2[2][1]) * v.y
        + (a * m2[0][2] + b * m2[1][2] + c * m2[2][2]) * v.z;
      { RowTimesColumns(a, b, c, m2[0][0], m2[0][1], m2[0][2], m2[1][0], m2[1][1], m2[1][2],
          m2[2][0], m2[2][1], m2[2][2], v.x, v.y, v.z); }
      a * (m2[0][0] * v.x + m2[0][1] * v.y + m2[0][2] * v.z)
        + b * (m2[1][0] * v.x + m2[1][1] * v.y + m2[1][2] * v.z)
        + c * (m2[2][0] * v.x + m2[2][1] * v.y + m2[2][2] * v.z);
      a * u.x + b * u.y + c * u.z;
    }
  }

  /** A row of a product applied to a vector, regrouped: the distributive step behind `ProductComposes`. */
  lemma RowTimesColumns(a: real, b: real, c: real,
                        p00: real, p01: real, p02: real,
                        p10: real, p11: real, p12: real,
                        p20: real, p21: real, p22: real,
                        x: real, y: real, z: real)
    ensures (a * p00 + b * p10 + c * p20) * x + (a * p01 + b * p11 + c * p21) * y + (a * p02 + b * p12 + c * p22) * z
         == a * (p00 * x + p01 * y + p02 * z) + b * (p10 * x + p11 * y + p12 * z) + c * (p20 * x + p21 * y + p22 * z)
  {
    calc {
      (a * p00 + b * p10 + c * p20) * x + (a * p01 + b * p11 + c * p21) * y + (a * p02 + b * p12 + c * p22) * z;
      (a * p00 * x + b * p10 * x + c * p20 * x) + (a * p01 * y + b * p11 * y + c * p21 * y) + (a * p02 * z + b * p12 * z + c * p22 * z);
      a * (p00 * x) + a * (p01 * y) + a * (p02 * z) + b * (p10 * x) + b * (p11 * y) + b * (p12 * z) + c * (p20 * x) + c * (p21 * y) + c * (p22 * z);
    }
  }

  /** After all three steps the running sum is the entry of the product. */
  lemma PartialEntryComplete(m1: M3x3, m2: M3x3, row: nat, col: nat)
    requires row < 3 && col < 3
    ensures PartialEntry(m1, m2, row, col, 3) == Product(m1, m2)[row][col]
  {
    assert PartialEntry(m1, m2, row, col, 1) == m1[row][0] * m2[0][col];
    assert PartialEntry(m1, m2, row, col, 2) == m1[row][0] * m2[0][col] + m1[row][1] * m2[1][col];
  }

  /** `operator*(M3x3, M3x3)`: the triple loop that accumulates each entry in place. */
  method Mul(m1: M3x3, m2: M3x3) returns (r: M3x3)
    ensures r == Product(m1, m2)
    ensures forall v :: Apply(r, v) == Apply(m1, Apply(m2, v))
  {
    r := [[0.0, 0.0, 0.0], [0.0, 0.0, 0.0], [0.0, 0.0, 0.0]];
    for row := 0 to 3
      invariant forall rr, cc :: 0 <= rr < row && 0 <= cc < 3 ==> r[rr][cc] == Product(m1, m2)[rr][cc]
    {
      for col := 0 to 3
        invariant forall rr, cc :: 0 <= rr < row && 0 <= cc < 3 ==> r[rr][cc] == Product(m1, m2)[rr][cc]
        invariant forall cc :: 0 <= cc < col ==> r[row][cc] == Product(m1, m2)[row][cc]
      {
        r := r[row := r[row][col := 0.0]];
        for i := 0 to 3
          invariant forall rr, cc :: 0 <= rr < row && 0 <= cc < 3 ==> r[rr][cc] == Product(m1, m2)[rr][cc]
          invariant forall cc :: 0 <= cc < col ==> r[row][cc] == Product(m1, m2)[row][cc]
          invariant r[row][col] == PartialEntry(m1, m2, row, col, i)
        {
          r := r[row := r[row][col := r[row][col] + m1[row][i] * m2[i][col]]];
        }
        PartialEntryComplete(m1, m2, row, col);
      }
    }
    assert forall rr :: 0 <= rr < 3 ==> r[rr] == Product(m1, m2)[rr];
    forall v {
      ProductComposes(m1, m2, v);
    }
  }

  /** `GetIdentityMatrix` */
  function GetIdentityMatrix(): (m: M3x3)
    ensures forall v :: Apply(m, v) == v
  {
    [[1.0, 0.0, 0.0], [0.0, 1.0, 0.0], [0.0, 0.0, 1.0]]
  }

  /** The identity matrix is a unit on both sides of the product. */
  lemma IdentityIsUnit(m: M3x3)
    ensures Product(GetIdentityMatrix(), m) == m
    ensures Product(m, GetIdentityMatrix()) == m
  {
    var i := GetIdentityMatrix();
    assert forall rr :: 0 <= rr < 3 ==> Product(i, m)[rr] == m[rr];
    assert forall rr :: 0 <= rr < 3 ==> Product(m, i)[rr] == m[rr];
  }

  /** `GetZAxisRotation`: a rotation in the xy-plane; the z coordinate is kept. */
  function GetZAxisRotation(trig: Trig, theta: real): (m: M3x3)
    ensures forall v :: Apply(m, v).z == v.z
    ensures Apply(m, E3) == E3
  {
    [[trig.cos(theta), -trig.sin(theta), 0.0],
     [trig.sin(theta), trig.cos(theta), 0.0],
     [0.0, 0.0, 1.0]]
  }

  /** `GetYAxisRotation`: a rotation in the zx-plane; the y coordinate is kept. */
  function GetYAxisRotation(trig: Trig, theta: real): (m: M3x3)
    ensures forall v :: Apply(m, v).y == v.y
    ensures Apply(m, E2) == E2
  {
    [[trig.cos(theta), 0.0, trig.sin(theta)],
     [0.0, 1.0, 0.0],
     [-trig.sin(theta), 0.0, trig.cos(theta)]]
  }

  /** `GetXAxisRotation`: a rotation in the yz-plane; the x coordinate is kept. */
  function GetXAxisRotation(trig: Trig, theta: real): (m: M3x3)
    ensures forall v :: Apply(m, v).x == v.x
    ensures Apply(m, E1) == E1
  {
    [[1.0, 0.0, 0.0],
     [0.0, trig.cos(theta), -trig.sin(theta)],
     [0.0, trig.sin(theta), trig.cos(theta)]]
  }

  /** Wherever `sinf(0) == 0` and `cosf(0) == 1`, every generator at angle 0 is the identity. */
  lemma ZeroAngleIsIdentity(trig: Trig)
    requires trig.sin(0.0) == 0.0 && trig.cos(0.0) == 1.0
    ensures GetXAxisRotation(trig, 0.0) == GetIdentityMatrix()
    ensures GetYAxisRotation(trig, 0.0) == GetIdentityMatrix()
    ensures GetZAxisRotation(trig, 0.0) == GetIdentityMatrix()
  {
  }

  /** The six signed unit basis axes, the axes a layer turn can be about. */
  datatype SignedAxis = PlusX | MinusX | PlusY | MinusY | PlusZ | MinusZ

  /** The unit vector of a signed axis. */
  function AxisVector(a: SignedAxis): V3
  {
    match a
    case PlusX => V3(1.0, 0.0, 0.0)
    case MinusX => V3(-1.0, 0.0, 0.0)
    case PlusY => V3(0.0, 1.0, 0.0)
    case MinusY => V3(0.0, -1.0, 0.0)
    case PlusZ => V3(0.0, 0.0, 1.0)
    case MinusZ => V3(0.0, 0.0, -1.0)
  }

  /** The same axis pointing the other way. */
  function Opposite(a: SignedAxis): SignedAxis
  {
    match a
    case PlusX => MinusX
    case MinusX => PlusX
    case PlusY => MinusY
    case MinusY => PlusY
    case PlusZ => MinusZ
    case MinusZ => PlusZ
  }

  /** `Opposite` negates the axis vector. */
  lemma OppositeNegates(a: SignedAxis)
    ensures AxisVector(Opposite(a)) == Neg3(AxisVector(a))
    ensures Opposite(Opposite(a)) == a
  {
    match a
    case PlusX => assert Neg3(V3(1.0, 0.0, 0.0)) == V3(-1.0, 0.0, 0.0);
    case MinusX => assert Neg3(V3(-1.0, 0.0, 0.0)) == V3(1.0, 0.0, 0.0);
    case PlusY => assert Neg3(V3(0.0, 1.0, 0.0)) == V3(0.0, -1.0, 0.0);
    case MinusY => assert Neg3(V3(0.0, -1.0, 0.0)) == V3(0.0, 1.0, 0.0);
    case PlusZ => assert Neg3(V3(0.0, 0.0, 1.0)) == V3(0.0, 0.0, -1.0);
    case MinusZ => assert Neg3(V3(0.0, 0.0, -1.0)) == V3(0.0, 0.0, 1.0);
  }

  /** The generator a turn about a signed axis is meant to use: that axis's generator, the angle negated for a negative axis. */
  function AxisGenerator(trig: Trig, a: SignedAxis, theta: real): M3x3
  {
    match a
    case PlusX => GetXAxisRotation(trig, theta)
    case MinusX => GetXAxisRotation(trig, -theta)
    case PlusY => GetYAxisRotation(trig, theta)
    case MinusY => GetYAxisRotation(trig, -theta)
    case PlusZ => GetZAxisRotation(trig, theta)
    case MinusZ => GetZAxisRotation(trig, -theta)
  }

  /**
   * What `GetRotationAroundAxis` demands: its Assert that the components sum to +1 or -1,
   * and one of its six component tests succeeding (otherwise it reaches DebugBreak).
   */
  predicate IsDispatchableAxis(axis: V3)
  {
    Abs(axis.x + axis.y + axis.z) == 1.0 &&
    (axis.x == 1.0 || axis.x == -1.0 || axis.y == 1.0 || axis.y == -1.0 || axis.z == 1.0 || axis.z == -1.0)
  }

  /** `GetRotationAroundAxis`: the generator for the first of +x, -x, +y, -y, +z, -z that matches. */
  function GetRotationAroundAxis(trig: Trig, axis: V3, theta: real): M3x3
    requires IsDispatchableAxis(axis)
  {
    if axis.x == 1.0 then GetXAxisRotation(trig, theta)
    else if axis.x == -1.0 then GetXAxisRotation(trig, -theta)
    else if axis.y == 1.0 then GetYAxisRotation(trig, theta)
    else if axis.y == -1.0 then GetYAxisRotation(trig, -theta)
    else if axis.z == 1.0 then GetZAxisRotation(trig, theta)
    else GetZAxisRotation(trig, -theta)
  }

  /** On the six signed basis axes the requirement holds and the dispatch picks the intended generator. */
  lemma DispatchOnBasisAxes(trig: Trig, a: SignedAxis, theta: real)
    ensures IsDispatchableAxis(AxisVector(a))
    ensures GetRotationAroundAxis(trig, AxisVector(a), theta) == AxisGenerator(trig, a, theta)
  {
    match a
    case PlusX => assert Abs(1.0) == 1.0;
    case MinusX => assert Abs(-1.0) == 1.0;
    case PlusY => assert Abs(1.0) == 1.0;
    case MinusY => assert Abs(-1.0) == 1.0;
    case PlusZ => assert Abs(1.0) == 1.0;
    case MinusZ => assert Abs(-1.0) == 1.0;
  }

  /** A rotation about a signed basis axis keeps every vector's component along that axis. */
  lemma RotationKeepsAxialComponent(trig: Trig, a: SignedAxis, theta: real, v: V3)
    ensures IsDispatchableAxis(AxisVector(a))
    ensures Dot3(AxisVector(a), Apply(GetRotationAroundAxis(trig, AxisVector(a), theta), v)) == Dot3(AxisVector(a), v)
  {
    DispatchOnBasisAxes(trig, a, theta);
    var m := GetRotationAroundAxis(trig, AxisVector(a), theta);
    match a
    case PlusX => assert Apply(m, v).x == v.x;
    case MinusX => assert Apply(m, v).x == v.x;
    case PlusY => assert Apply(m, v).y == v.y;
    case MinusY => assert Apply(m, v).y == v.y;
    case PlusZ => assert Apply(m, v).z == v.z;
    case MinusZ => assert Apply(m, v).z == v.z;
  }

  /** Turning about the opposite basis axis is turning by the opposite angle. */
  lemma OppositeAxis(trig: Trig, a: SignedAxis, theta: real)
    ensures IsDispatchableAxis(AxisVector(a)) && IsDispatchableAxis(AxisVector(Opposite(a)))
    ensures GetRotationAroundAxis(trig, AxisVector(Opposite(a)), theta)
         == GetRotationAroundAxis(trig, AxisVector(a), -theta)
  {
    DispatchOnBasisAxes(trig, a, -theta);
    DispatchOnBasisAxes(trig, Opposite(a), theta);
    var back := -(-theta);
    assert back == theta;
    match a
    case PlusX =>
    case MinusX => assert AxisGenerator(trig, a, -theta) == GetXAxisRotation(trig, back);
    case PlusY =>
    case MinusY => assert AxisGenerator(trig, a, -theta) == GetYAxisRotation(trig, back);
    case PlusZ =>
    case MinusZ => assert AxisGenerator(trig, a, -theta) == GetZAxisRotation(trig, back);
  }

  /** `OppositeAxis` in terms of vectors: turning about `-axis` is turning about `axis` by `-theta`. */
  lemma NegatedAxis(trig: Trig, a: SignedAxis, theta: real)
    ensures IsDispatchableAxis(AxisVector(a)) && IsDispatchableAxis(Neg3(AxisVector(a)))
    ensures GetRotationAroundAxis(trig, Neg3(AxisVector(a)), theta)
         == GetRotationAroundAxis(trig, AxisVector(a), -theta)
  {
    OppositeNegates(a);
    OppositeAxis(trig, a, theta);
  }

  /**
   * The dispatch tests components, not whole vectors: a non-unit axis such as (1, 1, -1) passes
   * the Assert and is turned about as if it were +x, because the x test comes first.
   */
  lemma NonBasisAxisDispatchesByFirstTest(trig: Trig, theta: real)
    ensures IsDispatchableAxis(V3(1.0, 1.0, -1.0))
    ensures GetRotationAroundAxis(trig, V3(1.0, 1.0, -1.0), theta) == GetXAxisRotation(trig, theta)
  {
    assert Abs(1.0) == 1.0;
  }
}
