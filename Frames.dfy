/** Frames of samples. */
module Frames {

  /** A frame of n copies of x. */
  function Constant(x: real, n: nat): (s: seq<real>)
    ensures |s| == n && forall i :: 0 <= i < n ==> s[i] == x
  {
    seq(n, _ => x)
  }
}
