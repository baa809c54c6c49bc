/** Orientation and quadrilateral tests of the math layer, in screen space. */
module Quads {
  import opened Vectors

  /** `Quad2`: exactly four vertices in the plane (`V2 p[4]`). */
  type Quad2 = q: seq<V2> | |q| == 4
    witness [V2(0.0, 0.0), V2(0.0, 0.0), V2(0.0, 0.0), V2(0.0, 0.0)]

  /** `Quad3`: exactly four vertices in space (`V3 p[4]`); the core defines no operation on it. */
  type Quad3 = q: seq<V3> | |q| == 4
    witness [V3(0.0, 0.0, 0.0), V3(0.0, 0.0, 0.0), V3(0.0, 0.0, 0.0), V3(0.0, 0.0, 0.0)]

  /** The 2D cross product of two edge vectors. */
  function Det(d0: V2, d1: V2): real
  {
    d0.x * d1.y - d0.y * d1.x
  }

  /** `TurnsRight`: the path `p0 -> p1 -> p2` bends clockwise, i.e. the determinant is strictly negative. */
  predicate TurnsRight(p0: V2, p1: V2, p2: V2)
  {
    Det(Sub2(p1, p0), Sub2(p2, p1)) < 0.0
  }

  /** The determinant is twice the signed area of the triangle, so a cyclic shift keeps it. */
  lemma DetCyclic(p0: V2, p1: V2, p2: V2)
    ensures Det(Sub2(p1, p0), Sub2(p2, p1)) == Det(Sub2(p2, p1), Sub2(p0, p2))
  {
    var a, b, c, d, e, f := p0.x, p0.y, p1.x, p1.y, p2.x, p2.y;
    calc {
      Det(Sub2(p1, p0), Sub2(p2, p1));
      (c - a) * (f - d) - (d - b) * (e - c);
      c * f - c * d - a * f + a * d - d * e + d * c + b * e - b * c;
      e * b - e * f - c * b + c * f - f * a + f * e + d * a - d * e;
      (e - c) * (b - f) - (f - d) * (a - e);
      Det(Sub2(p2, p1), Sub2(p0, p2));
    }
  }

  /** Walking the same three points backwards negates the determinant. */
  lemma DetReversed(p0: V2, p1: V2, p2: V2)
    ensures Det(Sub2(p1, p2), Sub2(p0, p1)) == -Det(Sub2(p1, p0), Sub2(p2, p1))
  {
    var a, b, c, d, e, f := p0.x, p0.y, p1.x, p1.y, p2.x, p2.y;
    calc {
      Det(Sub2(p1, p2), Sub2(p0, p1));
      (c - e) * (b - d) - (d - f) * (a - c);
      -((c - a) * (f - d) - (d - b) * (e - c));
    }
  }

  /** `TurnsRight` depends only on the cyclic order of its three points. */
  lemma TurnsRightCyclic(p0: V2, p1: V2, p2: V2)
    ensures TurnsRight(p0, p1, p2) == TurnsRight(p1, p2, p0)
  {
    DetCyclic(p0, p1, p2);
  }

  /** A right turn walked backwards is not a right turn. */
  lemma TurnsRightReversed(p0: V2, p1: V2, p2: V2)
    ensures TurnsRight(p0, p1, p2) ==> !TurnsRight(p2, p1, p0)
  {
    DetReversed(p0, p1, p2);
  }

  /** No path through a repeated point turns: its determinant is zero and the test is strict. */
  lemma RepeatedPointNeverTurns(p0: V2, p1: V2)
    ensures !TurnsRight(p0, p1, p1) && !TurnsRight(p0, p0, p1)
  {
  }

  /** The vertex after `q[k]`, going round the quad. */
  function Next(k: nat): nat
  {
    (k + 1) % 4
  }

  /** The quad invariant: every three consecutive vertices, cyclically, turn right. */
  predicate AllTurnRight(q: Quad2)
  {
    forall k :: 0 <= k < 4 ==> TurnsRight(q[k], q[Next(k)], q[Next(Next(k))])
  }

  /** `p` lies strictly to the right of each directed edge of `q`. */
  predicate RightOfEveryEdge(q: Quad2, p: V2)
  {
    forall k :: 0 <= k < 4 ==> TurnsRight(q[k], q[Next(k)], p)
  }

  /** `IsValidQuad2`: the flag starts true and is and-ed with each of the four turn tests. */
  method IsValidQuad2(q: Quad2) returns (isValid: bool)
    ensures isValid == AllTurnRight(q)
  {
    isValid := true;
    isValid := isValid && TurnsRight(q[0], q[1], q[2]);
    isValid := isValid && TurnsRight(q[1], q[2], q[3]);
    isValid := isValid && TurnsRight(q[2], q[3], q[0]);
    isValid := isValid && TurnsRight(q[3], q[0], q[1]);
    assert Next(0) == 1 && Next(1) == 2 && Next(2) == 3 && Next(3) == 0;
  }

  /** `IsPointInQuad2`: the flag starts true and is and-ed with the turn test of each edge towards `p`. */
  method IsPointInQuad2(p: V2, q: Quad2) returns (isInside: bool)
    ensures isInside == RightOfEveryEdge(q, p)
  {
    isInside := true;
    isInside := isInside && TurnsRight(q[0], q[1], p);
    isInside := isInside && TurnsRight(q[1], q[2], p);
    isInside := isInside && TurnsRight(q[2], q[3], p);
    isInside := isInside && TurnsRight(q[3], q[0], p);
    assert Next(0) == 1 && Next(1) == 2 && Next(2) == 3 && Next(3) == 0;
  }

  /** The same four vertices, starting one later. */
  function RotateVertices(q: Quad2): (r: Quad2)
  {
    q[1..] + [q[0]]
  }

  /** The same four vertices in the opposite order. */
  function ReverseVertices(q: Quad2): (r: Quad2)
  {
    [q[3], q[2], q[1], q[0]]
  }

  /** Validity does not depend on which vertex the quad starts at. */
  lemma ValidityIsCyclic(q: Quad2)
    ensures AllTurnRight(RotateVertices(q)) == AllTurnRight(q)
  {
    var r := RotateVertices(q);
    assert r[0] == q[1] && r[1] == q[2] && r[2] == q[3] && r[3] == q[0];
    assert Next(0) == 1 && Next(1) == 2 && Next(2) == 3 && Next(3) == 0;
    assert AllTurnRight(q) <==>
      TurnsRight(q[0], q[1], q[2]) && TurnsRight(q[1], q[2], q[3]) &&
      TurnsRight(q[2], q[3], q[0]) && TurnsRight(q[3], q[0], q[1]);
    assert AllTurnRight(r) <==>
      TurnsRight(q[1], q[2], q[3]) && TurnsRight(q[2], q[3], q[0]) &&
      TurnsRight(q[3], q[0], q[1]) && TurnsRight(q[0], q[1], q[2]);
  }

  /** Reversing the vertex order of a valid quad makes it invalid: it now winds the other way. */
  lemma ReversalInvalidates(q: Quad2)
    requires AllTurnRight(q)
    ensures !AllTurnRight(ReverseVertices(q))
  {
    var r := ReverseVertices(q);
    assert Next(1) == 2 && Next(2) == 3;
    assert TurnsRight(q[1], q[Next(1)], q[Next(Next(1))]);
    TurnsRightReversed(q[1], q[2], q[3]);
    assert Next(0) == 1 && r[0] == q[3] && r[1] == q[2] && r[2] == q[1];
    assert !TurnsRight(r[0], r[Next(0)], r[Next(Next(0))]);
  }

  /** The containment test does not depend on which vertex the quad starts at. */
  lemma ContainmentIsCyclic(q: Quad2, p: V2)
    ensures RightOfEveryEdge(RotateVertices(q), p) == RightOfEveryEdge(q, p)
  {
    var r := RotateVertices(q);
    assert r[0] == q[1] && r[1] == q[2] && r[2] == q[3] && r[3] == q[0];
    assert Next(0) == 1 && Next(1) == 2 && Next(2) == 3 && Next(3) == 0;
    assert RightOfEveryEdge(q, p) <==>
      TurnsRight(q[0], q[1], p) && TurnsRight(q[1], q[2], p) &&
      TurnsRight(q[2], q[3], p) && TurnsRight(q[3], q[0], p);
    assert RightOfEveryEdge(r, p) <==>
      TurnsRight(q[1], q[2], p) && TurnsRight(q[2], q[3], p) &&
      TurnsRight(q[3], q[0], p) && TurnsRight(q[0], q[1], p);
  }

  /** A vertex of `q` is never reported inside `q`: the edge ending at it has determinant zero. */
  lemma VertexNotInside(q: Quad2, k: nat)
    requires k < 4
    ensures !RightOfEveryEdge(q, q[k])
  {
    var j := (k + 3) % 4;
    assert Next(j) == k;
    RepeatedPointNeverTurns(q[j], q[k]);
    assert !TurnsRight(q[j], q[Next(j)], q[k]);
  }
}
