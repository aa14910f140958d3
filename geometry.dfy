// Plane vectors and the scalar helpers of the physics library that the
// glue code calls (Vector.Lerp, LerpConst, Clamp). The library itself is not
// part of this model; these definitions state the semantics it is assumed to
// have, over exact reals instead of float64.
module Geometry {

  datatype Vec = Vec(x: real, y: real)

  const Zero := Vec(0.0, 0.0)

  function Add(a: Vec, b: Vec): Vec { Vec(a.x + b.x, a.y + b.y) }

  function Sub(a: Vec, b: Vec): Vec { Vec(a.x - b.x, a.y - b.y) }

  function Scale(v: Vec, s: real): Vec { Vec(v.x * s, v.y * s) }

  function Neg(v: Vec): Vec { Vec(-v.x, -v.y) }

  lemma AddCancel(a: Vec, d: Vec, v: Vec)
    ensures Add(a, d) == v <==> d == Sub(v, a)
  {
  }

  /** The library's ReversePerp: a quarter turn clockwise. */
  function ReversePerp(v: Vec): Vec { Vec(v.y, -v.x) }

  function Max(a: real, b: real): real { if a >= b then a else b }

  function Min(a: real, b: real): real { if a <= b then a else b }

  /** math.Pow for a natural exponent: x multiplied by itself n times. */
  function Pow(x: real, n: nat): real
  {
    if n == 0 then 1.0 else x * Pow(x, n - 1)
  }

  /** A positive base below one stays strictly between 0 and 1 under any positive power. */
  lemma {:induction false} PowBetweenZeroAndOne(x: real, n: nat)
    requires 0.0 < x < 1.0 && n >= 1
    ensures 0.0 < Pow(x, n) < 1.0
    ensures Pow(x, n) <= x
  {
    if n > 1 {
      PowBetweenZeroAndOne(x, n - 1);
      var p := Pow(x, n - 1);
      assert Pow(x, n) == x * p;
      assert 0.0 < x * p by { MulPositive(x, p); }
      assert x * p <= x by {
        assert p <= 1.0;
        MulMonotone(x, p, 1.0);
        assert x * 1.0 == x;
      }
    } else {
      assert Pow(x, n) == x * Pow(x, 0) == x * 1.0;
    }
  }

  /** A larger positive base has larger positive powers. */
  lemma {:induction false} PowMonotoneBase(x: real, y: real, n: nat)
    requires 0.0 < x < y && n >= 1
    ensures Pow(x, n) < Pow(y, n)
  {
    if n > 1 {
      PowMonotoneBase(x, y, n - 1);
      PowPositive(x, n - 1);
      var p, q := Pow(x, n - 1), Pow(y, n - 1);
      assert x * p < y * p by { assert y * p - x * p == (y - x) * p; MulPositive(y - x, p); }
      assert y * p < y * q by { assert y * q - y * p == y * (q - p); MulPositive(y, q - p); }
      calc {
        Pow(x, n);
      ==
        x * p;
      <
        y * p;
      <
        y * q;
      ==
        Pow(y, n);
      }
    } else {
      assert Pow(x, n) == x * 1.0 && Pow(y, n) == y * 1.0;
    }
  }

  lemma {:induction false} PowPositive(x: real, n: nat)
    requires 0.0 < x
    ensures 0.0 < Pow(x, n)
  {
    if n > 0 {
      PowPositive(x, n - 1);
      MulPositive(x, Pow(x, n - 1));
    }
  }

  lemma MulPositive(a: real, b: real)
    requires 0.0 < a && 0.0 < b
    ensures 0.0 < a * b
  {
  }

  lemma MulMonotone(a: real, b: real, c: real)
    requires 0.0 <= a && b <= c
    ensures a * b <= a * c
  {
    assert a * c - a * b == a * (c - b);
  }

  /** Vector.Lerp(other, t) = v*(1-t) + other*t. */
  function Lerp(v: Vec, other: Vec, t: real): Vec
  {
    Add(Scale(v, 1.0 - t), Scale(other, t))
  }

  /** Clamp(f, lo, hi) = Min(Max(f, lo), hi). */
  function Clamp(f: real, lo: real, hi: real): real
  {
    Min(Max(f, lo), hi)
  }

  /** LerpConst(f1, f2, d) = f1 + Clamp(f2 - f1, -d, d): a step of at most d towards f2. */
  function LerpConst(f1: real, f2: real, d: real): real
  {
    f1 + Clamp(f2 - f1, -d, d)
  }

  /** A LerpConst step moves by at most d, never overshoots, and lands on the target when it is within reach. */
  lemma LerpConstStep(f1: real, f2: real, d: real)
    requires d >= 0.0
    ensures -d <= LerpConst(f1, f2, d) - f1 <= d
    ensures f1 <= f2 ==> f1 <= LerpConst(f1, f2, d) <= f2
    ensures f2 <= f1 ==> f2 <= LerpConst(f1, f2, d) <= f1
    ensures (f2 - f1 <= d && f1 - f2 <= d) <==> LerpConst(f1, f2, d) == f2
  {
  }
}
