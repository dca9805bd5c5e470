/** The second-order low-pass filter (biquad) and the fourth-order cascade
    built from two instances of it. Samples are real numbers; cos, sin and
    the square root of two are supplied by the caller. */
module Biquad {

  import opened Frames

  /** The four memory cells of one filter instance: [0] the previous input,
      [1] the input before it, [2] the previous output, [3] the output before it. */
  type Memory = m: seq<real> | |m| == 4 witness [0.0, 0.0, 0.0, 0.0]

  /** Normalised feedback coefficients a[0], a[1]. */
  type Feedback = a: seq<real> | |a| == 2 witness [0.0, 0.0]

  /** Normalised feedforward coefficients b[0], b[1], b[2]. */
  type Feedforward = b: seq<real> | |b| == 3 witness [0.0, 0.0, 0.0]

  datatype Coefficients = Coefficients(a: Feedback, b: Feedforward)

  /** The memory every filter instance starts from. */
  const Cleared: Memory := [0.0, 0.0, 0.0, 0.0]

  /** The quality factor is fixed at 1/sqrt(2); the normaliser 1 + alpha is
      then at least 1 - sqrt(2)/2, so the divisions below are defined. */
  lemma NormaliserPositive(sinw0: real, sqrt2: real)
    requires -1.0 <= sinw0 <= 1.0
    requires 0.0 < sqrt2 && sqrt2 * sqrt2 == 2.0
    ensures 1.0 + sinw0 / 2.0 * sqrt2 > 0.0
  {
    assert sqrt2 < 2.0;
    assert (sinw0 + 1.0) * sqrt2 >= 0.0;
    assert sinw0 * sqrt2 >= -sqrt2;
  }

  /** Coefficients of the low-pass filter, from cos(w0), sin(w0) and sqrt(2)
      where w0 = 2*pi*cutoff/sampleRate. The feedforward taps are in the ratio
      1:2:1 and the gain at zero frequency is one. */
  function LowPass(cosw0: real, sinw0: real, sqrt2: real): (c: Coefficients)
    requires -1.0 <= sinw0 <= 1.0
    requires 0.0 < sqrt2 && sqrt2 * sqrt2 == 2.0
    ensures c.b[2] == c.b[0] && c.b[1] == 2.0 * c.b[0]
    ensures c.b[0] + c.b[1] + c.b[2] == 1.0 + c.a[0] + c.a[1]
  {
    NormaliserPositive(sinw0, sqrt2);
    var alpha := sinw0 / 2.0 * sqrt2;
    var a0 := 1.0 + alpha;
    var c := Coefficients([(-2.0 * cosw0) / a0, (1.0 - alpha) / a0],
                          [((1.0 - cosw0) / 2.0) / a0, (1.0 - cosw0) / a0, ((1.0 - cosw0) / 2.0) / a0]);
    UnityGain(cosw0, alpha, a0, c);
    c
  }

  /** Writes the coefficients into the feedback array a and the feedforward
      array b. */
  method ComputeSecondOrderLowPassParameters(cosw0: real, sinw0: real, sqrt2: real, a: array<real>, b: array<real>)
    requires -1.0 <= sinw0 <= 1.0
    requires 0.0 < sqrt2 && sqrt2 * sqrt2 == 2.0
    requires a.Length == 2 && b.Length == 3
    modifies a, b
    ensures Coefficients(a[..], b[..]) == LowPass(cosw0, sinw0, sqrt2)
  {
    NormaliserPositive(sinw0, sqrt2);
    var alpha := sinw0 / 2.0 * sqrt2;
    var a0 := 1.0 + alpha;
    a[0] := (-2.0 * cosw0) / a0;
    a[1] := (1.0 - alpha) / a0;
    b[0] := ((1.0 - cosw0) / 2.0) / a0;
    b[1] := (1.0 - cosw0) / a0;
    b[2] := b[0];
  }

  lemma UnityGain(cosw0: real, alpha: real, a0: real, c: Coefficients)
    requires a0 == 1.0 + alpha && a0 > 0.0
    requires c.a == [(-2.0 * cosw0) / a0, (1.0 - alpha) / a0]
    requires c.b == [((1.0 - cosw0) / 2.0) / a0, (1.0 - cosw0) / a0, ((1.0 - cosw0) / 2.0) / a0]
    ensures c.b[0] + c.b[1] + c.b[2] == 1.0 + c.a[0] + c.a[1]
  {
  }

  /** The output of one filter step for input x, computed from the memory as
      it is before the step. */
  function Output(c: Coefficients, m: Memory, x: real): real
  {
    c.b[0] * x + c.b[1] * m[0] + c.b[2] * m[1] - c.a[0] * m[2] - c.a[1] * m[3]
  }

  /** The memory after a step with input x and output y. */
  function Shift(m: Memory, x: real, y: real): Memory
  {
    [x, m[0], y, m[2]]
  }

  /** One filter step on a memory held in an array. The output is read from
      the memory before the memory is shifted. */
  method ProcessSecondOrderFilter(x: real, mem: array<real>, a: array<real>, b: array<real>) returns (ret: real)
    requires mem.Length == 4 && a.Length == 2 && b.Length == 3
    modifies mem
    ensures ret == Output(Coefficients(a[..], b[..]), old(mem[..]), x)
    ensures mem[..] == Shift(old(mem[..]), x, ret)
  {
    ret := b[0] * x + b[1] * mem[0] + b[2] * mem[1] - a[0] * mem[2] - a[1] * mem[3];
    mem[1] := mem[0];
    mem[0] := x;
    mem[3] := mem[2];
    mem[2] := ret;
  }

  /** One filter instance run over a whole frame, left to right: the output
      frame and the memory it ends in. */
  function Filter(c: Coefficients, m: Memory, xs: seq<real>): (r: (seq<real>, Memory))
    ensures |r.0| == |xs|
    decreases |xs|
  {
    if xs == [] then ([], m)
    else
      var (ys, m') := Filter(c, m, xs[..|xs| - 1]);
      var y := Output(c, m', xs[|xs| - 1]);
      (ys + [y], Shift(m', xs[|xs| - 1], y))
  }

  /** The cascade as the frame loop runs it: each sample goes through
      instance 1 and then, at once, through instance 2. */
  function Cascade(c: Coefficients, m1: Memory, m2: Memory, xs: seq<real>): (r: (seq<real>, Memory, Memory))
    ensures |r.0| == |xs|
    decreases |xs|
  {
    if xs == [] then ([], m1, m2)
    else
      var (ys, n1, n2) := Cascade(c, m1, m2, xs[..|xs| - 1]);
      var x := xs[|xs| - 1];
      var u := Output(c, n1, x);
      var v := Output(c, n2, u);
      (ys + [v], Shift(n1, x, u), Shift(n2, u, v))
  }

  /** Interleaving the two instances sample by sample gives the same output
      frame and the same final memories as running instance 1 over the whole
      frame and then instance 2 over the whole intermediate frame. */
  lemma {:induction false} CascadeIsSequential(c: Coefficients, m1: Memory, m2: Memory, xs: seq<real>)
    ensures Cascade(c, m1, m2, xs)
         == (Filter(c, m2, Filter(c, m1, xs).0).0, Filter(c, m1, xs).1, Filter(c, m2, Filter(c, m1, xs).0).1)
  {
    if xs != [] {
      var init := xs[..|xs| - 1];
      CascadeIsSequential(c, m1, m2, init);
      var us := Filter(c, m1, xs).0;
      var us' := Filter(c, m1, init).0;
      assert us == us' + [Output(c, Filter(c, m1, init).1, xs[|xs| - 1])];
      assert us[..|us| - 1] == us';
    }
  }

  /** Filtering a stream frame by frame, carrying the memory from the end of
      one frame to the start of the next, is filtering the joined stream. */
  lemma {:induction false} FilterConcat(c: Coefficients, m: Memory, xs: seq<real>, ys: seq<real>)
    ensures Filter(c, m, xs + ys)
         == (Filter(c, m, xs).0 + Filter(c, Filter(c, m, xs).1, ys).0, Filter(c, Filter(c, m, xs).1, ys).1)
  {
    if ys == [] {
      assert xs + ys == xs;
      assert Filter(c, m, xs).0 + [] == Filter(c, m, xs).0;
    } else {
      var init, y := ys[..|ys| - 1], ys[|ys| - 1];
      FilterConcat(c, m, xs, init);
      assert (xs + ys)[..|xs + ys| - 1] == xs + init;
      assert (xs + ys)[|xs + ys| - 1] == y;
      var (us, e) := Filter(c, m, xs);
      var (vs, f) := Filter(c, e, init);
      var z := Output(c, f, y);
      assert Filter(c, e, ys) == (vs + [z], Shift(f, y, z));
      assert Filter(c, m, xs + ys) == ((us + vs) + [z], Shift(f, y, z));
      assert (us + vs) + [z] == us + (vs + [z]);
    }
  }

  /** A constant signal x is a fixed point of a filter with unity gain at zero
      frequency once its memory holds x everywhere. */
  lemma SteadyState(c: Coefficients, x: real)
    requires c.b[0] + c.b[1] + c.b[2] == 1.0 + c.a[0] + c.a[1]
    ensures Output(c, [x, x, x, x], x) == x
    ensures Shift([x, x, x, x], x, x) == [x, x, x, x]
  {
  }

  /** From the steady state for x, a constant frame of x passes through a
      unity-gain filter unchanged and leaves the memory where it was. */
  lemma {:induction false} ConstantPassesThrough(c: Coefficients, x: real, n: nat)
    requires c.b[0] + c.b[1] + c.b[2] == 1.0 + c.a[0] + c.a[1]
    ensures Filter(c, [x, x, x, x], Constant(x, n)) == (Constant(x, n), [x, x, x, x])
  {
    if n > 0 {
      assert Constant(x, n)[..n - 1] == Constant(x, n - 1);
      ConstantPassesThrough(c, x, n - 1);
      SteadyState(c, x);
      assert Constant(x, n - 1) + [x] == Constant(x, n);
    }
  }

  /** Silence from cleared memory stays silence through any filter, and the
      memory stays cleared. */
  lemma {:induction false} SilenceStaysSilent(c: Coefficients, n: nat)
    ensures Filter(c, Cleared, Constant(0.0, n)) == (Constant(0.0, n), Cleared)
  {
    if n > 0 {
      assert Constant(0.0, n)[..n - 1] == Constant(0.0, n - 1);
      SilenceStaysSilent(c, n - 1);
      assert Constant(0.0, n - 1) + [0.0] == Constant(0.0, n);
    }
  }

  /** The same through the interleaved cascade of two cleared instances. */
  lemma CascadeOfSilence(c: Coefficients, n: nat)
    ensures Cascade(c, Cleared, Cleared, Constant(0.0, n)) == (Constant(0.0, n), Cleared, Cleared)
  {
    CascadeIsSequential(c, Cleared, Cleared, Constant(0.0, n));
    SilenceStaysSilent(c, n);
  }
}
