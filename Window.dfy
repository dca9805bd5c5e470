/** The Hann window and its application to a frame. The cosines
    cos(2*pi*i/(size-1)) are supplied by the caller. */
module Window {

  /** The Hann window whose i-th cosine is cosines[i]. */
  function HannWindow(cosines: seq<real>): (w: seq<real>)
    ensures |w| == |cosines|
  {
    seq(|cosines|, i requires 0 <= i < |cosines| => 0.5 * (1.0 - cosines[i]))
  }

  /** Fills the first size cells of window with the Hann window and leaves
      the rest alone. */
  method BuildHanWindow(window: array<real>, size: nat, cosines: seq<real>)
    requires size <= window.Length && |cosines| == size
    modifies window
    ensures window[..size] == HannWindow(cosines)
    ensures window[size..] == old(window[size..])
  {
    for i := 0 to size
      invariant window[..i] == HannWindow(cosines)[..i]
      invariant window[size..] == old(window[size..])
    {
      window[i] := 0.5 * (1.0 - cosines[i]);
    }
  }

  /** Since every cosine lies in [-1, 1], every window value lies in [0, 1];
      cos 0 = cos 2*pi = 1 makes both ends of the window zero; cosines that
      are symmetric about the middle make the window symmetric. */
  lemma HannShape(cosines: seq<real>)
    requires forall i :: 0 <= i < |cosines| ==> -1.0 <= cosines[i] <= 1.0
    ensures forall i :: 0 <= i < |cosines| ==> 0.0 <= HannWindow(cosines)[i] <= 1.0
    ensures |cosines| > 0 && cosines[0] == 1.0 ==> HannWindow(cosines)[0] == 0.0
    ensures |cosines| > 0 && cosines[|cosines| - 1] == 1.0 ==> HannWindow(cosines)[|cosines| - 1] == 0.0
    ensures (forall i :: 0 <= i < |cosines| ==> cosines[i] == cosines[|cosines| - 1 - i])
        ==> forall i :: 0 <= i < |cosines| ==> HannWindow(cosines)[i] == HannWindow(cosines)[|cosines| - 1 - i]
  {
  }

  /** The frame d with its first size samples multiplied by the window w. */
  function Windowed(d: seq<real>, w: seq<real>, size: nat): (r: seq<real>)
    requires size <= |d| && size <= |w|
    ensures |r| == |d|
  {
    seq(|d|, i requires 0 <= i < |d| => if i < size then d[i] * w[i] else d[i])
  }

  /** Multiplies data by window elementwise over the first size samples, in
      place. Each sample is read once before it is written, so the result is
      the same even when window and data are the same array. */
  method ApplyWindow(window: array<real>, data: array<real>, size: nat)
    requires size <= window.Length && size <= data.Length
    modifies data
    ensures data[..] == Windowed(old(data[..]), old(window[..]), size)
  {
    for i := 0 to size
      invariant forall k :: 0 <= k < i ==> data[k] == old(data[k]) * old(window[k])
      invariant forall k :: i <= k < data.Length ==> data[k] == old(data[k])
      invariant forall k :: i <= k < window.Length ==> window[k] == old(window[k])
    {
      data[i] := data[i] * window[i];
    }
    assert forall k :: 0 <= k < data.Length ==> data[..][k] == Windowed(old(data[..]), old(window[..]), size)[k];
  }

  /** A frame tapered by a Hann window built from cos 0 = cos 2*pi = 1 starts
      and ends with a zero sample, whatever the frame held. */
  lemma HannTapersEnds(d: seq<real>, cosines: seq<real>)
    requires |cosines| == |d| > 0
    requires cosines[0] == 1.0 && cosines[|d| - 1] == 1.0
    ensures Windowed(d, HannWindow(cosines), |d|)[0] == 0.0
    ensures Windowed(d, HannWindow(cosines), |d|)[|d| - 1] == 0.0
  {
    var w := HannWindow(cosines);
    assert w[0] == 0.0 && w[|d| - 1] == 0.0;
    assert Windowed(d, w, |d|)[0] == d[0] * w[0];
    assert Windowed(d, w, |d|)[|d| - 1] == d[|d| - 1] * w[|d| - 1];
  }
}
