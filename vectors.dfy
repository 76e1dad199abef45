/**
  The chapter 1 two-dimensional `Vector` with integer components: `+`, `*`
  by a scalar and truthiness. `abs` (a floating-point `hypot`) enters only
  through its zero test.
 */
module Vectors {

  /** `Vector(x=0, y=0)`; the operators build new vectors and never change an operand. */
  datatype Vector = Vector(x: int, y: int)
  {
    /** The square of `abs(v) == hypot(x, y)`; abs is zero exactly when this is. */
    function SquaredAbs(): (r: int)
      ensures r >= 0
      ensures r == 0 <==> x == 0 && y == 0
    {
      SquaresNonNegative(x, y);
      x * x + y * y
    }

    /** `__bool__`: `bool(abs(self))`. */
    function Bool(): (r: bool)
      ensures r <==> !(x == 0 && y == 0)
    {
      SquaredAbs() != 0
    }

    /** `__add__`: the sum is `Vector()`, the only falsy vector, exactly when
        other is this vector negated. */
    function Add(other: Vector): (r: Vector)
      ensures r == Vector(0, 0) <==> other == Vector(-x, -y)
    {
      var sum := Vector(x + other.x, y + other.y);
      sum
    }

    /** `__mul__` (a vector times a number on its right): scaling by 1 changes
        nothing and scaling by 0 gives the falsy `Vector()`. */
    function Mul(scalar: int): (r: Vector)
      ensures scalar == 1 ==> r == this
      ensures scalar == 0 ==> r == Vector(0, 0) && !r.Bool()
    {
      Vector(x * scalar, y * scalar)
    }
  }

  /** The default `Vector()`. */
  const Zero := Vector(0, 0)

  lemma SquaresNonNegative(x: int, y: int)
    ensures x * x >= 0 && y * y >= 0
    ensures x * x + y * y == 0 <==> x == 0 && y == 0
  {
    if x != 0 {
      assert x * x > 0 by { if x > 0 { PositiveProduct(x, x); } else { PositiveProduct(-x, -x); } }
    }
    if y != 0 {
      assert y * y > 0 by { if y > 0 { PositiveProduct(y, y); } else { PositiveProduct(-y, -y); } }
    }
  }

  lemma PositiveProduct(a: int, b: int)
    requires a > 0 && b > 0
    ensures a * b > 0
  {
  }

  /** Only the zero vector is falsy; `Vector()` is. */
  lemma FalsyIffZero(v: Vector)
    ensures !v.Bool() <==> v == Zero
  {
  }

  /** `v1 + v2 == v2 + v1`, `(v1 + v2) + v3 == v1 + (v2 + v3)`, and `Vector()` is neutral. */
  lemma AddLaws(v1: Vector, v2: Vector, v3: Vector)
    ensures v1.Add(v2) == v2.Add(v1)
    ensures v1.Add(v2).Add(v3) == v1.Add(v2.Add(v3))
    ensures v1.Add(Zero) == v1
  {
  }

  /** `(v1 + v2) * s == v1 * s + v2 * s` and `(v * s) * t == v * (s * t)`. */
  lemma MulLaws(v1: Vector, v2: Vector, s: int, t: int)
    ensures v1.Add(v2).Mul(s) == v1.Mul(s).Add(v2.Mul(s))
    ensures v1.Mul(s).Mul(t) == v1.Mul(s * t)
  {
    assert (v1.x * s) * t == v1.x * (s * t);
    assert (v1.y * s) * t == v1.y * (s * t);
  }

  /** A scaled vector is truthy exactly when the vector is and the scalar is not 0. */
  lemma MulBool(v: Vector, s: int)
    ensures v.Mul(s).Bool() <==> v.Bool() && s != 0
  {
    if s != 0 {
      assert v.x != 0 ==> v.x * s != 0 by { if v.x != 0 { NonZeroProduct(v.x, s); } }
      assert v.y != 0 ==> v.y * s != 0 by { if v.y != 0 { NonZeroProduct(v.y, s); } }
    }
  }

  lemma NonZeroProduct(a: int, b: int)
    requires a != 0 && b != 0
    ensures a * b != 0
  {
    if a > 0 && b > 0 { PositiveProduct(a, b); }
    else if a > 0 { PositiveProduct(a, -b); }
    else if b > 0 { PositiveProduct(-a, b); }
    else { PositiveProduct(-a, -b); }
  }

  /** The chapter's example: `Vector(2, 4) + Vector(2, 1) == Vector(4, 5)`,
      `Vector(2, 4) * 3 == Vector(6, 12)`, and `Vector(2, 4)` is truthy. */
  lemma ChapterExample()
    ensures Vector(2, 4).Add(Vector(2, 1)) == Vector(4, 5)
    ensures Vector(2, 4).Mul(3) == Vector(6, 12)
    ensures Vector(2, 4).Bool()
  {
  }
}
