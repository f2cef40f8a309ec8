/** 2D vectors (src/Utilities/vectors.ts). The class Vec2 is the mutable
    object the game shares between entities; Vec is its value, on which the
    numeric queries and the specifications are written. */
module Vectors {
  import opened Maths

  datatype Vec = Vec(x: real, y: real) {
    /** lengthSQ: the squared length, zero only for the zero vector. */
    function LengthSQ(): (r: real)
      ensures 0.0 <= r
      ensures r == 0.0 <==> this == Zero
    {
      Sq(x) + Sq(y)
    }
  }

  const Zero: Vec := Vec(0.0, 0.0)

  function Plus(a: Vec, b: Vec): Vec
  {
    Vec(a.x + b.x, a.y + b.y)
  }

  function Minus(a: Vec, b: Vec): Vec
  {
    Vec(a.x - b.x, a.y - b.y)
  }

  function Times(a: Vec, k: real): Vec
  {
    Vec(a.x * k, a.y * k)
  }

  function Over(a: Vec, k: real): Vec
    requires k != 0.0
  {
    Vec(a.x / k, a.y / k)
  }

  /** dotVec */
  function Dot(a: Vec, b: Vec): real
  {
    a.x * b.x + a.y * b.y
  }

  /** distanceSQ: the squared distance, zero exactly when the points coincide. */
  function DistanceSQ(a: Vec, b: Vec): (r: real)
    ensures 0.0 <= r
    ensures r == 0.0 <==> a == b
  {
    Sq(a.x - b.x) + Sq(a.y - b.y)
  }

  /** The squared distance does not depend on the order of the points. */
  lemma DistanceSQSymmetric(a: Vec, b: Vec)
    ensures DistanceSQ(a, b) == DistanceSQ(b, a)
  {
    assert Sq(b.x - a.x) == Sq(a.x - b.x) by { assert b.x - a.x == -(a.x - b.x); }
    assert Sq(b.y - a.y) == Sq(a.y - b.y) by { assert b.y - a.y == -(a.y - b.y); }
  }

  /** Vec2.lerp */
  function LerpVec(a: Vec, b: Vec, t: real): Vec
  {
    Vec(a.x * (1.0 - t) + b.x * t, a.y * (1.0 - t) + b.y * t)
  }

  /** length: Math.sqrt of lengthSQ. */
  function Length(v: Vec, m: MathFns): real
  {
    m.sqrt(v.LengthSQ())
  }

  /** Vec2.distance */
  function Distance(a: Vec, b: Vec, m: MathFns): real
  {
    m.sqrt(DistanceSQ(a, b))
  }

  /** Vec2.angleOfVec: the heading measured from the direction atan2(1, 0). */
  function AngleOf(v: Vec, m: MathFns): real
  {
    m.atan2(v.y, v.x) - m.atan2(1.0, 0.0)
  }

  /** Vec2.vecOfAngle */
  function OfAngle(angle: real, m: MathFns): Vec
  {
    Vec(m.cos(angle), m.sin(angle))
  }

  /** Vec2.rotateVec */
  function Rotated(v: Vec, angle: real, m: MathFns): Vec
  {
    OfAngle(AngleOf(v, m) + angle, m)
  }

  /** Vec2.normaliseVec: a vector whose length is reported as zero is
      returned unchanged (as a copy), any other is divided by its length. */
  function Normalised(v: Vec, m: MathFns): Vec
  {
    var length := m.sqrt(Sq(v.x) + Sq(v.y));
    if length == 0.0 then v else Over(v, length)
  }

  /** Adding b and then subtracting it gives back a. This is a fact about
      values: on objects, v.Add(w); v.Sub(w) restores v only when w is a
      different object, since v.Add(v); v.Sub(v) leaves v at zero (see the
      aliased cases of Vec2.Add and Vec2.Sub). */
  lemma AddSubRoundTrip(a: Vec, b: Vec)
    ensures Minus(Plus(a, b), b) == a
  {
  }

  /** Scaling by 1 changes nothing. */
  lemma TimesOne(a: Vec)
    ensures Times(a, 1.0) == a
  {
  }

  /** lerp starts at its first argument and ends at its second. */
  lemma LerpEnds(a: Vec, b: Vec)
    ensures LerpVec(a, b, 0.0) == a
    ensures LerpVec(a, b, 1.0) == b
  {
  }

  /** lengthSQ is the dot product of a vector with itself. */
  lemma LengthSQIsDot(v: Vec)
    ensures v.LengthSQ() == Dot(v, v)
  {
  }

  /** Normalising the zero vector yields the zero vector, whatever sqrt does. */
  lemma NormalisedZero(m: MathFns)
    ensures Normalised(Zero, m) == Zero
  {
  }

  /** With an exact square root, a nonzero vector normalises to unit length. */
  lemma NormalisedUnit(v: Vec, m: MathFns)
    requires ExactSqrt(m)
    requires v != Zero
    ensures Normalised(v, m).LengthSQ() == 1.0
  {
    var l2 := Sq(v.x) + Sq(v.y);
    var s := m.sqrt(l2);
    assert 0.0 < l2;
    assert 0.0 <= s && s * s == l2;
    assert s != 0.0;
    ProductPositive(s, s, s * s);
    UnitAfterDivision(v.x, v.y, s, l2);
  }

  /** (x/s)^2 + (y/s)^2 == 1 when s^2 == x^2 + y^2 > 0. */
  lemma UnitAfterDivision(x: real, y: real, s: real, l2: real)
    requires 0.0 < s && l2 == s * s && l2 == x * x + y * y
    ensures Sq(x / s) + Sq(y / s) == 1.0
  {
    var u, w := x / s, y / s;
    assert u * s == x && w * s == y;
    SquareOfQuotient(u, s, x, u * u, x * x);
    SquareOfQuotient(w, s, y, w * w, y * y);
    assert (u * u) * l2 == x * x && (w * w) * l2 == y * y;
    var k := u * u + w * w;
    assert k * l2 == (u * u) * l2 + (w * w) * l2;
    ProductPositive(s, s, l2);
    Cancel(k, l2, k * l2);
  }

  /** (u * s)^2 == u^2 * s^2, written with every product named. */
  lemma SquareOfQuotient(u: real, s: real, x: real, uu: real, xx: real)
    requires x == u * s && uu == u * u && xx == x * x
    ensures uu * (s * s) == xx
  {
  }

  /** k * l == l with l nonzero forces k == 1. */
  lemma Cancel(k: real, l: real, kl: real)
    requires l != 0.0 && kl == k * l && kl == l
    ensures k == 1.0
  {
    assert (k - 1.0) * l == kl - l;
  }

  /** With an exact square root, comparing a distance with a positive bound c
      is comparing the squared distance with c * c. */
  lemma DistanceVersusBound(a: Vec, b: Vec, m: MathFns, c: real)
    requires ExactSqrt(m) && 0.0 < c
    ensures Distance(a, b, m) < c <==> DistanceSQ(a, b) < c * c
    ensures Distance(a, b, m) > c <==> DistanceSQ(a, b) > c * c
  {
    var d2 := DistanceSQ(a, b);
    var d := m.sqrt(d2);
    assert 0.0 <= d && d * d == d2;
    RootOrder(d, c, d2, c * c);
  }

  /** For non-negative roots, the order of the roots is the order of the squares. */
  lemma RootOrder(d: real, c: real, d2: real, c2: real)
    requires 0.0 <= d && 0.0 < c && d2 == d * d && c2 == c * c
    ensures d < c <==> d2 < c2
    ensures d > c <==> d2 > c2
  {
    if d < c {
      ProductPositive(c - d, c + d, (c - d) * (c + d));
      assert c2 - d2 == (c - d) * (c + d);
    } else if d > c {
      ProductPositive(d - c, d + c, (d - c) * (d + c));
      assert d2 - c2 == (d - c) * (d + c);
    }
  }

  class Vec2 {
    var x: real
    var y: real

    constructor (x: real, y: real)
      ensures this.x == x && this.y == y
    {
      this.x := x;
      this.y := y;
    }

    function Value(): Vec
      reads this
    {
      Vec(x, y)
    }

    /** add: this += v. When v is this very object, it doubles. */
    method Add(v: Vec2)
      modifies this
      ensures Value() == Plus(old(Value()), old(v.Value()))
      ensures v == this ==> Value() == Times(old(Value()), 2.0)
      ensures v != this ==> v.Value() == old(v.Value())
    {
      x := x + v.x;
      y := y + v.y;
    }

    /** sub: this -= v. When v is this very object, it becomes zero. */
    method Sub(v: Vec2)
      modifies this
      ensures Value() == Minus(old(Value()), old(v.Value()))
      ensures v == this ==> Value() == Zero
      ensures v != this ==> v.Value() == old(v.Value())
    {
      x := x - v.x;
      y := y - v.y;
    }

    /** multiply: scale in place. */
    method Multiply(k: real)
      modifies this
      ensures Value() == Times(old(Value()), k)
      ensures k == 1.0 ==> Value() == old(Value())
    {
      x := x * k;
      y := y * k;
    }

    /** divide: scale in place by 1/k. */
    method Divide(k: real)
      requires k != 0.0
      modifies this
      ensures Value() == Over(old(Value()), k)
    {
      x := x / k;
      y := y / k;
    }

    /** clone: a distinct object with the same coordinates. */
    method Clone() returns (r: Vec2)
      ensures fresh(r) && r.Value() == Value()
    {
      r := new Vec2(x, y);
    }

    static method Lerp(one: Vec2, two: Vec2, amount: real) returns (r: Vec2)
      ensures fresh(r) && r.Value() == LerpVec(one.Value(), two.Value(), amount)
    {
      r := new Vec2(one.x * (1.0 - amount) + two.x * amount, one.y * (1.0 - amount) + two.y * amount);
    }

    static method VecOfAngle(angle: real, m: MathFns) returns (r: Vec2)
      ensures fresh(r) && r.Value() == OfAngle(angle, m)
    {
      r := new Vec2(m.cos(angle), m.sin(angle));
    }

    static method RotateVec(v: Vec2, angle: real, m: MathFns) returns (r: Vec2)
      ensures fresh(r) && r.Value() == Rotated(v.Value(), angle, m)
    {
      var a := AngleOf(v.Value(), m);
      a := a + angle;
      r := VecOfAngle(a, m);
    }

    /** addVec and the three below build a new vector and leave their
        arguments alone. */
    static method AddVec(v: Vec2, w: Vec2) returns (r: Vec2)
      ensures fresh(r) && r.Value() == Plus(v.Value(), w.Value())
    {
      r := new Vec2(v.x + w.x, v.y + w.y);
    }

    static method SubtractVec(v: Vec2, w: Vec2) returns (r: Vec2)
      ensures fresh(r) && r.Value() == Minus(v.Value(), w.Value())
    {
      r := new Vec2(v.x - w.x, v.y - w.y);
    }

    static method MultiplyVec(v: Vec2, k: real) returns (r: Vec2)
      ensures fresh(r) && r.Value() == Times(v.Value(), k)
    {
      r := new Vec2(v.x * k, v.y * k);
    }

    static method DivideVec(v: Vec2, k: real) returns (r: Vec2)
      requires k != 0.0
      ensures fresh(r) && r.Value() == Over(v.Value(), k)
    {
      r := new Vec2(v.x / k, v.y / k);
    }

    static method NormaliseVec(v: Vec2, m: MathFns) returns (r: Vec2)
      ensures fresh(r) && r.Value() == Normalised(v.Value(), m)
    {
      var length := m.sqrt(Sq(v.x) + Sq(v.y));
      if length == 0.0 {
        r := v.Clone();
      } else {
        r := DivideVec(v, length);
      }
    }
  }
}
