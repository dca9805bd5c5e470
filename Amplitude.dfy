/** The root-mean-square amplitude of a raw frame. The square root is
    supplied by the caller; this module states everything up to it. */
module Amplitude {

  import opened Frames

  function Square(x: real): real
  {
    x * x
  }

  /** The sum of the squares of the samples, accumulated left to right. */
  function SumSquares(s: seq<real>): real
    decreases |s|
  {
    if s == [] then 0.0 else SumSquares(s[..|s| - 1]) + Square(s[|s| - 1])
  }

  /** The accumulation loop over a frame held in an array. */
  method SumOfSquares(data: array<real>) returns (sum: real)
    ensures sum == SumSquares(data[..])
  {
    sum := 0.0;
    for i := 0 to data.Length
      invariant sum == SumSquares(data[..i])
    {
      assert data[..i + 1][..i] == data[..i];
      sum := sum + data[i] * data[i];
      assert sum == SumSquares(data[..i + 1]);
    }
    assert data[..data.Length] == data[..];
  }

  /** A sum of squares is never negative, and it is zero for a silent frame. */
  lemma {:induction false} SumSquaresSign(s: seq<real>)
    ensures SumSquares(s) >= 0.0
    ensures (forall i :: 0 <= i < |s| ==> s[i] == 0.0) ==> SumSquares(s) == 0.0
    decreases |s|
  {
    if s != [] {
      var init := s[..|s| - 1];
      SumSquaresSign(init);
      assert forall i :: 0 <= i < |init| ==> s[i] == init[i];
      SquareNonNegative(s[|s| - 1]);
    }
  }

  lemma SquareNonNegative(x: real)
    ensures Square(x) >= 0.0
  {
  }

  /** A frame of n copies of x has sum of squares n * x^2, so its mean square
      is x^2 and its RMS is |x|. */
  lemma {:induction false} SumSquaresConstant(x: real, n: nat)
    ensures SumSquares(Constant(x, n)) == n as real * (x * x)
  {
    if n > 0 {
      assert Constant(x, n)[..n - 1] == Constant(x, n - 1);
      SumSquaresConstant(x, n - 1);
    }
  }

  /** The mean square of a frame of n >= 1 samples. */
  function MeanSquare(s: seq<real>): (m: real)
    requires |s| >= 1
    ensures m >= 0.0
    ensures (forall i :: 0 <= i < |s| ==> s[i] == 0.0) ==> m == 0.0
  {
    SumSquaresSign(s);
    SumSquares(s) / |s| as real
  }

  lemma MeanSquareConstant(x: real, n: nat)
    requires n >= 1
    ensures MeanSquare(Constant(x, n)) == x * x
  {
    SumSquaresConstant(x, n);
  }
}
