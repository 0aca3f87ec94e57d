/** `norm` of c_implementation/linear_algebra.h: the Euclidean norm of an array prefix. */
module LinearAlgebra {
  import opened Vectors

  /** Sum of the squares of the entries of `s`, accumulated front to back. */
  function SumSquares(s: seq<real>): (r: real)
    ensures 0.0 <= r
  {
    if s == [] then 0.0
    else
      var last := s[|s| - 1];
      SumOfSquaresNonNegative(last, 0.0);
      SumSquares(s[..|s| - 1]) + last * last
  }

  /**
   * The norm of the first `numElements` entries of `arr`. The array is only
   * read, and entries at or past `numElements` take no part in the result.
   */
  method Norm(arr: array<real>, numElements: int, sqrt: real -> real) returns (out: real)
    requires IsSqrt(sqrt) && 0 <= numElements <= arr.Length
    ensures out == sqrt(SumSquares(arr[..numElements]))
    ensures 0.0 <= out && out * out == SumSquares(arr[..numElements])
  {
    var acc := 0.0;
    var i := 0;
    while i < numElements
      invariant 0 <= i <= numElements
      invariant acc == SumSquares(arr[..i])
    {
      assert arr[..i + 1][..i] == arr[..i];
      acc := acc + arr[i] * arr[i];
      i := i + 1;
    }
    out := sqrt(acc);
  }

  /** The sum of squares vanishes exactly when every entry is zero. */
  lemma {:induction false} SumSquaresZero(s: seq<real>)
    ensures SumSquares(s) == 0.0 <==> forall i :: 0 <= i < |s| ==> s[i] == 0.0
  {
    if s != [] {
      var init, last := s[..|s| - 1], s[|s| - 1];
      SumSquaresZero(init);
      if last != 0.0 {
        calc {
          SumSquares(s);
          SumSquares(init) + last * last;
        >= 
          last * last + 0.0 * 0.0;
        > { SumOfSquaresPositive(last, 0.0); }
          0.0;
        }
      } else {
        assert forall i :: 0 <= i < |s| ==> (s[i] == 0.0 <==> (i == |s| - 1 || init[i] == 0.0));
      }
    }
  }

  /** The norm is zero exactly when the first `numElements` entries are all zero. */
  lemma NormZero(arr: seq<real>, numElements: nat, sqrt: real -> real)
    requires IsSqrt(sqrt) && numElements <= |arr|
    ensures sqrt(SumSquares(arr[..numElements])) == 0.0
            <==> forall i :: 0 <= i < numElements ==> arr[i] == 0.0
  {
    SumSquaresZero(arr[..numElements]);
    SqrtFacts(sqrt, SumSquares(arr[..numElements]));
  }

  /** `norm(v, 2)` on a two-element buffer is the vector norm used by the controllers. */
  lemma NormOfPair(v: Vec, sqrt: real -> real)
    requires IsSqrt(sqrt)
    ensures SumSquares([v.x, v.y]) == LengthSq(v)
    ensures sqrt(SumSquares([v.x, v.y])) == Vectors.Norm(v, sqrt)
  {
    assert [v.x, v.y][..1] == [v.x];
    assert [v.x][..0] == [];
    calc {
      SumSquares([v.x, v.y]);
      SumSquares([v.x]) + v.y * v.y;
      SumSquares([]) + v.x * v.x + v.y * v.y;
      LengthSq(v);
    }
  }
}
