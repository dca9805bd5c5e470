/** The bin-to-frequency table, the boundary to the external FFT backend,
    and the search for the strongest bin in the lower half of the spectrum. */
module Spectrum {

  /** The forward transform of the FFT backend, as a function from the real
      and imaginary buffers to the transformed buffers. The backend works in
      place on the two buffers, so it keeps their lengths. */
  type Transform = f: (seq<real>, seq<real>) -> (seq<real>, seq<real>)
    | forall re, im :: |f(re, im).0| == |re| && |f(re, im).1| == |im|
    witness (re: seq<real>, im: seq<real>) => (re, im)

  const IntMin: int := -0x8000_0000
  const IntMax: int := 0x7fff_ffff

  /** The C int in which the product sampleRate * i is computed. */
  newtype int32 = x: int | IntMin <= x <= IntMax

  /** The products sampleRate * i for 0 <= i < fftSize are computed in a
      32-bit signed int, so they must not overflow. */
  predicate ProductsFit(sampleRate: int, fftSize: int)
  {
    fftSize <= 1 || IntMin <= sampleRate * (fftSize - 1) <= IntMax
  }

  lemma ProductFits(sampleRate: int, fftSize: int, i: int)
    requires ProductsFit(sampleRate, fftSize) && 0 <= i < fftSize
    ensures IntMin <= sampleRate * i <= IntMax
  {
  }

  /** The centre frequency of every bin: table[i] = sampleRate * i / fftSize. */
  function FreqTable(sampleRate: int, fftSize: nat): (t: seq<real>)
    ensures |t| == fftSize
  {
    seq(fftSize, i requires 0 <= i < fftSize => (sampleRate * i) as real / fftSize as real)
  }

  /** Fills the table in place, one entry per bin. */
  method BuildFreqTable(table: array<real>, sampleRate: int, fftSize: int)
    requires fftSize >= 1 && table.Length == fftSize
    requires ProductsFit(sampleRate, fftSize)
    modifies table
    ensures table[..] == FreqTable(sampleRate, fftSize)
  {
    for i := 0 to fftSize
      invariant table[..i] == FreqTable(sampleRate, fftSize)[..i]
    {
      ProductFits(sampleRate, fftSize, i);
      var product: int32 := (sampleRate * i) as int32;
      table[i] := product as real / fftSize as real;
    }
  }

  lemma ScaledDifference(r: int, i: int, j: int, n: nat)
    requires n >= 1
    ensures (r * j) as real / n as real - (r * i) as real / n as real == (r as real / n as real) * (j - i) as real
  {
  }

  /** The table starts at zero, neighbouring bins are sampleRate / fftSize
      apart, and the table rises with the bin index for a positive rate (never
      falls for a rate of zero). */
  lemma FreqTableShape(sampleRate: int, fftSize: nat)
    requires fftSize >= 1
    ensures FreqTable(sampleRate, fftSize)[0] == 0.0
    ensures forall i :: 0 <= i < fftSize - 1 ==>
      FreqTable(sampleRate, fftSize)[i + 1] - FreqTable(sampleRate, fftSize)[i] == sampleRate as real / fftSize as real
    ensures sampleRate > 0 ==> forall i, j :: 0 <= i < j < fftSize ==>
      FreqTable(sampleRate, fftSize)[i] < FreqTable(sampleRate, fftSize)[j]
    ensures sampleRate >= 0 ==> forall i, j :: 0 <= i <= j < fftSize ==>
      FreqTable(sampleRate, fftSize)[i] <= FreqTable(sampleRate, fftSize)[j]
  {
    var t := FreqTable(sampleRate, fftSize);
    forall i, j | 0 <= i <= j < fftSize
      ensures t[j] - t[i] == (sampleRate as real / fftSize as real) * (j - i) as real
    {
      ScaledDifference(sampleRate, i, j, fftSize);
    }
  }

  /** The power re^2 + im^2 of each of the first bins bins. */
  function Powers(re: seq<real>, im: seq<real>, bins: nat): (p: seq<real>)
    requires bins <= |re| && bins <= |im|
    ensures |p| == bins
  {
    seq(bins, j requires 0 <= j < bins => re[j] * re[j] + im[j] * im[j])
  }

  lemma PowersNonNegative(re: seq<real>, im: seq<real>, bins: nat)
    requires bins <= |re| && bins <= |im|
    ensures forall j :: 0 <= j < bins ==> Powers(re, im, bins)[j] >= 0.0
  {
  }

  /** The outcome of a peak search: the index of the bin that last raised the
      running maximum (-1 when none did), and the running maximum itself. */
  datatype Peak = Peak(index: int, value: real)

  /** The peak search over powers p, left to right, starting from the running
      maximum maxVal; a bin replaces the maximum only when strictly greater. */
  function Search(p: seq<real>, maxVal: real): (r: Peak)
    ensures -1 <= r.index < |p|
    decreases |p|
  {
    if p == [] then Peak(-1, maxVal)
    else
      var r := Search(p[..|p| - 1], maxVal);
      if p[|p| - 1] > r.value then Peak(|p| - 1, p[|p| - 1]) else r
  }

  /** What the search finds. The outgoing maximum is the larger of the incoming
      maximum and the greatest power, so it never decreases. No index is found
      exactly when no power exceeds the incoming maximum. A found index holds
      the greatest power, which exceeds the incoming maximum, and no earlier
      bin reaches it: it is the lowest bin of greatest power. */
  lemma {:induction false} SearchFindsPeak(p: seq<real>, maxVal: real)
    ensures Search(p, maxVal).value >= maxVal
    ensures forall j :: 0 <= j < |p| ==> p[j] <= Search(p, maxVal).value
    ensures Search(p, maxVal).index == -1 <==> forall j :: 0 <= j < |p| ==> p[j] <= maxVal
    ensures Search(p, maxVal).index == -1 ==> Search(p, maxVal).value == maxVal
    ensures Search(p, maxVal).index >= 0 ==>
      var k := Search(p, maxVal).index;
      p[k] == Search(p, maxVal).value && p[k] > maxVal && forall j :: 0 <= j < k ==> p[j] < p[k]
    decreases |p|
  {
    if p != [] {
      var init := p[..|p| - 1];
      SearchFindsPeak(init, maxVal);
      assert forall j :: 0 <= j < |init| ==> p[j] == init[j];
    }
  }

  /** The peak search over the first bins bins of a transformed frame. */
  method SearchPeak(re: array<real>, im: array<real>, bins: nat, maxVal: real) returns (maxIndex: int, newMax: real)
    requires bins <= re.Length && bins <= im.Length
    ensures Peak(maxIndex, newMax) == Search(Powers(re[..], im[..], bins), maxVal)
  {
    ghost var p := Powers(re[..], im[..], bins);
    maxIndex, newMax := -1, maxVal;
    for j := 0 to bins
      invariant Peak(maxIndex, newMax) == Search(p[..j], maxVal)
    {
      var v := re[j] * re[j] + im[j] * im[j];
      assert p[..j + 1][..j] == p[..j] && v == p[j];
      if v > newMax {
        newMax := v;
        maxIndex := j;
      }
    }
    assert p[..bins] == p;
  }

  /** Powers are never negative, so a search that starts below zero over at
      least one bin always finds an index. */
  lemma NegativeStartFindsIndex(re: seq<real>, im: seq<real>, bins: nat, maxVal: real)
    requires 1 <= bins <= |re| && bins <= |im| && maxVal < 0.0
    ensures Search(Powers(re, im, bins), maxVal).index >= 0
  {
    PowersNonNegative(re, im, bins);
    SearchFindsPeak(Powers(re, im, bins), maxVal);
  }
}
