/**
 * Plane vectors over the reals: numpy's 2-element `ndarray` and C's `double[2]`.
 *
 * Floating point is not modelled. The square root of libm and numpy is not
 * definable here, so every operation that needs one takes it as a parameter
 * `sqrt` and requires `IsSqrt(sqrt)`: it returns the non-negative root of any
 * non-negative argument.
 */
module Vectors {

  datatype Vec = Vec(x: real, y: real)

  const Zero := Vec(0.0, 0.0)

  function Add(a: Vec, b: Vec): Vec { Vec(a.x + b.x, a.y + b.y) }

  function Sub(a: Vec, b: Vec): Vec { Vec(a.x - b.x, a.y - b.y) }

  function Scale(k: real, a: Vec): Vec { Vec(k * a.x, k * a.y) }

  function Dot(a: Vec, b: Vec): real { a.x * b.x + a.y * b.y }

  /** `np.cross` of two 2-vectors: the z-component of their 3-D cross product. */
  function Cross(a: Vec, b: Vec): real { a.x * b.y - a.y * b.x }

  function LengthSq(v: Vec): real { v.x * v.x + v.y * v.y }

  /** `sqrt` returns the non-negative square root of every non-negative real. */
  ghost predicate IsSqrt(sqrt: real -> real) {
    forall x :: 0.0 <= x ==> 0.0 <= sqrt(x) && sqrt(x) * sqrt(x) == x
  }

  lemma SumOfSquaresPositive(a: real, b: real)
    requires a != 0.0 || b != 0.0
    ensures 0.0 < a * a + b * b
  {
  }

  lemma SumOfSquaresNonNegative(a: real, b: real)
    ensures 0.0 <= a * a + b * b
  {
  }

  lemma LengthSqZero(v: Vec)
    ensures 0.0 <= LengthSq(v)
    ensures LengthSq(v) == 0.0 <==> v == Zero
  {
    SumOfSquaresNonNegative(v.x, v.y);
    if v != Zero {
      calc {
        LengthSq(v);
        v.x * v.x + v.y * v.y;
      > { SumOfSquaresPositive(v.x, v.y); }
        0.0;
      }
    }
  }

  lemma SqrtFacts(sqrt: real -> real, x: real)
    requires IsSqrt(sqrt) && 0.0 <= x
    ensures 0.0 <= sqrt(x) && sqrt(x) * sqrt(x) == x
    ensures sqrt(x) == 0.0 <==> x == 0.0
  {
    var s := sqrt(x);
    if s != 0.0 {
      calc {
        x;
      ==
        s * s + 0.0 * 0.0;
      >  { SumOfSquaresPositive(s, 0.0); }
        0.0;
      }
    }
  }

  /** The square root is unique: any non-negative root of x is `sqrt(x)`. */
  lemma SqrtOfSquare(sqrt: real -> real, x: real, r: real)
    requires IsSqrt(sqrt) && 0.0 <= r && r * r == x
    ensures sqrt(x) == r
  {
    var s := sqrt(x);
    assert 0.0 <= s && s * s == x;
    assert (s - r) * (s + r) == s * s - r * r == 0.0;
    if s + r == 0.0 {
      assert s == 0.0 && r == 0.0;
    } else {
      assert s - r == 0.0;
    }
  }

  /** `np.linalg.norm` of a 2-vector. */
  function Norm(v: Vec, sqrt: real -> real): real
    requires IsSqrt(sqrt)
  {
    sqrt(LengthSq(v))
  }

  /** The norm is the non-negative root of the squared length, zero only for the zero vector. */
  lemma NormFacts(v: Vec, sqrt: real -> real)
    requires IsSqrt(sqrt)
    ensures 0.0 <= Norm(v, sqrt) && Norm(v, sqrt) * Norm(v, sqrt) == LengthSq(v)
    ensures Norm(v, sqrt) == 0.0 <==> v == Zero
  {
    LengthSqZero(v);
    SqrtFacts(sqrt, LengthSq(v));
  }

  /** Division by the norm: a unit vector pointing the same way as `v` (see `NormalizeFacts`). */
  function Normalize(v: Vec, sqrt: real -> real): Vec
    requires IsSqrt(sqrt) && v != Zero
  {
    NormFacts(v, sqrt);
    Scale(1.0 / Norm(v, sqrt), v)
  }

  /** The normalised vector has unit length and points the same way as `v`. */
  lemma NormalizeFacts(v: Vec, sqrt: real -> real)
    requires IsSqrt(sqrt) && v != Zero
    ensures LengthSq(Normalize(v, sqrt)) == 1.0
    ensures Cross(Normalize(v, sqrt), v) == 0.0 && Dot(Normalize(v, sqrt), v) > 0.0
  {
    NormFacts(v, sqrt);
    UnitScale(v, Norm(v, sqrt), 1.0 / Norm(v, sqrt));
  }

  lemma UnitScale(v: Vec, n: real, k: real)
    requires 0.0 < n && n * n == LengthSq(v) && k == 1.0 / n
    ensures LengthSq(Scale(k, v)) == 1.0
    ensures Cross(Scale(k, v), v) == 0.0 && Dot(Scale(k, v), v) > 0.0
  {
    assert k * n == 1.0;
    calc {
      LengthSq(Scale(k, v));
      (k * v.x) * (k * v.x) + (k * v.y) * (k * v.y);
      (k * k) * LengthSq(v);
      (k * k) * (n * n);
      (k * n) * (k * n);
    }
    assert Dot(Scale(k, v), v) == k * LengthSq(v) == k * n * n == n;
  }

  /** Normalising is insensitive to a positive scale factor. */
  lemma NormalizeScaleInvariant(v: Vec, k: real, sqrt: real -> real)
    requires IsSqrt(sqrt) && v != Zero && 0.0 < k
    ensures Scale(k, v) != Zero
    ensures Normalize(Scale(k, v), sqrt) == Normalize(v, sqrt)
  {
    NormFacts(v, sqrt);
    var n := Norm(v, sqrt);
    NormScales(v, k, n, sqrt);
    ScaleCancels(v, k, n);
  }

  /** Scaling by `k > 0` scales the norm `n` by `k`. */
  lemma NormScales(v: Vec, k: real, n: real, sqrt: real -> real)
    requires IsSqrt(sqrt) && 0.0 < k && 0.0 < n && n * n == LengthSq(v)
    ensures Scale(k, v) != Zero && Norm(Scale(k, v), sqrt) == k * n
  {
    var m := k * n;
    assert 0.0 < m by { MulPositive(k, n); }
    ScaleLengthSq(k, v);
    assert m * m == (k * k) * (n * n);
    SqrtOfSquare(sqrt, LengthSq(Scale(k, v)), m);
    NormFacts(Scale(k, v), sqrt);
  }

  /** Scaling multiplies the squared length by the square of the factor. */
  lemma ScaleLengthSq(k: real, v: Vec)
    ensures LengthSq(Scale(k, v)) == (k * k) * LengthSq(v)
  {
  }

  /** Dividing `k v` by `k n` is dividing `v` by `n`. */
  lemma ScaleCancels(v: Vec, k: real, n: real)
    requires 0.0 < k && 0.0 < n
    ensures Scale(1.0 / (k * n), Scale(k, v)) == Scale(1.0 / n, v)
  {
    var c := 1.0 / (k * n);
    assert c * k == 1.0 / n;
    calc {
      Scale(c, Scale(k, v));
      Vec(c * (k * v.x), c * (k * v.y));
      Vec((c * k) * v.x, (c * k) * v.y);
    }
  }

  /** A unit vector normalises to itself. */
  lemma NormalizeUnit(v: Vec, sqrt: real -> real)
    requires IsSqrt(sqrt) && LengthSq(v) == 1.0
    ensures v != Zero && Normalize(v, sqrt) == v
  {
    SqrtOfSquare(sqrt, 1.0, 1.0);
    assert Norm(v, sqrt) == 1.0;
  }

  /** Stepping `t >= 0` along a unit vector covers distance `t`. */
  lemma NormOfScaledUnit(t: real, d: Vec, sqrt: real -> real)
    requires IsSqrt(sqrt) && 0.0 <= t && LengthSq(d) == 1.0
    ensures Norm(Scale(t, d), sqrt) == t
  {
    calc {
      LengthSq(Scale(t, d));
      t * d.x * (t * d.x) + t * d.y * (t * d.y);
      t * t * (d.x * d.x + d.y * d.y);
      t * t;
    }
    SqrtOfSquare(sqrt, LengthSq(Scale(t, d)), t);
  }

  lemma MulPositive(a: real, b: real)
    requires 0.0 < a && 0.0 < b
    ensures 0.0 < a * b
  {
  }

  /**
   * The sensor ring's rotation, the integer matrix [[0, 1], [-1, 0]] applied
   * to a column vector: a quarter turn clockwise.
   */
  function Rotate(v: Vec): Vec
  {
    Vec(v.y, -v.x)
  }

  /** The rotation keeps length and turns by a right angle. */
  lemma RotateIsQuarterTurn(v: Vec)
    ensures LengthSq(Rotate(v)) == LengthSq(v) && Dot(Rotate(v), v) == 0.0
  {
  }

  /** `n` successive applications of `Rotate`. */
  function RotateN(v: Vec, n: nat): Vec
  {
    if n == 0 then v else Rotate(RotateN(v, n - 1))
  }

  /** Four quarter turns are the identity, so the rotation is periodic with period four. */
  lemma {:induction false} RotatePeriodic(v: Vec, n: nat)
    ensures RotateN(v, n + 4) == RotateN(v, n)
    ensures LengthSq(RotateN(v, n)) == LengthSq(v)
  {
    if n == 0 {
      assert RotateN(v, 1) == Rotate(v);
      assert RotateN(v, 2) == Rotate(Rotate(v));
      assert RotateN(v, 3) == Rotate(Rotate(Rotate(v)));
    } else {
      RotatePeriodic(v, n - 1);
      RotateIsQuarterTurn(RotateN(v, n - 1));
    }
  }
}
