/** The frame pipeline of the analyser: configuration check, then one
    iteration per frame (read, optional RMS, optional low-pass, window,
    transform and peak search, then one output line), with the stop request
    observed only at the top of an iteration. */
module Pipeline {

  import opened Frames
  import opened Biquad
  import opened Window
  import opened Spectrum
  import opened Amplitude

  /** What the command line supplies: the sample rate, the frame size and
      which fields to print. */
  datatype Config = Config(sampleRate: int, fftSize: int, frequency: bool, amplitude: bool, rms: bool)

  /** The amplitude is the power of the peak frequency, so it cannot be
      asked for without the frequency. */
  predicate Accepted(cfg: Config)
  {
    !(cfg.amplitude && !cfg.frequency)
  }

  /** What a line of output is made of: numbers, the space after each, and
      the final newline. */
  datatype Token = Number(value: real) | Space | Newline

  type Line = seq<Token>

  /** The output line of one frame: frequency, amplitude and rms, each only
      when enabled, each followed by a space, then a newline. */
  function EmitLine(cfg: Config, freq: real, power: real, rms: real): Line
  {
    (if cfg.frequency then [Number(freq), Space] else [])
    + (if cfg.amplitude then [Number(power), Space] else [])
    + (if cfg.rms then [Number(rms), Space] else [])
    + [Newline]
  }

  /** The enabled fields in output order. */
  function Fields(cfg: Config, freq: real, power: real, rms: real): seq<real>
  {
    (if cfg.frequency then [freq] else [])
    + (if cfg.amplitude then [power] else [])
    + (if cfg.rms then [rms] else [])
  }

  /** A line is the enabled fields, in the fixed order frequency, amplitude,
      rms, each followed by a space, and ends in a newline. */
  lemma EmitLineLayout(cfg: Config, freq: real, power: real, rms: real)
    ensures var line, f := EmitLine(cfg, freq, power, rms), Fields(cfg, freq, power, rms);
      && |f| == (if cfg.frequency then 1 else 0) + (if cfg.amplitude then 1 else 0) + (if cfg.rms then 1 else 0)
      && |line| == 2 * |f| + 1
      && (forall k :: 0 <= k < |f| ==> line[2 * k] == Number(f[k]) && line[2 * k + 1] == Space)
      && line[|line| - 1] == Newline
      && (cfg.frequency ==> f[0] == freq)
      && (cfg.rms ==> f[|f| - 1] == rms)
      && (cfg.amplitude ==> f[if cfg.frequency then 1 else 0] == power)
  {
  }

  /** The number of tokens on every line of a configuration. */
  function LineLength(cfg: Config): nat
  {
    2 * ((if cfg.frequency then 1 else 0) + (if cfg.amplitude then 1 else 0) + (if cfg.rms then 1 else 0)) + 1
  }

  /** What is fixed once at start-up: the filter coefficients, the window,
      the frequency table, the FFT backend and the square root. */
  datatype Context = Context(coeffs: Coefficients, window: seq<real>, table: seq<real>, fft: Transform, sqrt: real -> real)

  function ContextOf(cfg: Config, cosines: seq<real>, cosw0: real, sinw0: real, sqrt2: real,
                     fft: Transform, sqrt: real -> real): Context
    requires cfg.fftSize >= 1
    requires -1.0 <= sinw0 <= 1.0 && 0.0 < sqrt2 && sqrt2 * sqrt2 == 2.0
  {
    Context(LowPass(cosw0, sinw0, sqrt2), HannWindow(cosines), FreqTable(cfg.sampleRate, cfg.fftSize), fft, sqrt)
  }

  /** What changes from frame to frame: the real and imaginary buffers, the
      two filter memories, the running maximum power, and the last frequency
      and rms. */
  datatype State = State(data: seq<real>, datai: seq<real>, mem1: Memory, mem2: Memory,
                         maxVal: real, freq: real, rms: real)

  /** The state before the first frame. The buffers hold whatever they held. */
  function Initial(data: seq<real>, datai: seq<real>): State
  {
    State(data, datai, Cleared, Cleared, -1.0, -1.0, -1.0)
  }

  /** Buffer sizes agree with the configured frame size. */
  ghost predicate Fits(cfg: Config, ctx: Context, s: State)
  {
    && cfg.fftSize >= 1
    && |s.data| == cfg.fftSize && |s.datai| == cfg.fftSize
    && |ctx.window| == cfg.fftSize && |ctx.table| == cfg.fftSize
  }

  /** A read of up to fftSize samples overwrites the start of the buffer;
      after a short read the rest keeps what the previous frame left there. */
  function Read(data: seq<real>, frame: seq<real>): (d: seq<real>)
    requires |frame| <= |data|
    ensures |d| == |data| && d[..|frame|] == frame && d[|frame|..] == data[|frame|..]
  {
    frame + data[|frame|..]
  }

  /** The frame after the low-pass cascade, the window and the transform:
      the real and imaginary parts of every bin. */
  function Transformed(cfg: Config, ctx: Context, s: State, d: seq<real>): (r: (seq<real>, seq<real>))
    requires Fits(cfg, ctx, s) && |d| == cfg.fftSize
    ensures |r.0| == cfg.fftSize && |r.1| == cfg.fftSize
  {
    var filtered := Cascade(ctx.coeffs, s.mem1, s.mem2, d).0;
    ctx.fft(Windowed(filtered, ctx.window, cfg.fftSize), Constant(0.0, cfg.fftSize))
  }

  datatype Outcome = Emitted(line: Line) | OutOfBoundsRead(index: int)

  datatype Transition = Transition(state: State, outcome: Outcome)

  /** One iteration of the frame loop. With frequency output on, the peak
      search keeps the running maximum of earlier frames; when no bin of this
      frame exceeds it, the bin index stays -1 and the frequency table would
      be read at index -1: the iteration ends in OutOfBoundsRead. */
  function Step(cfg: Config, ctx: Context, s: State, frame: seq<real>): (t: Transition)
    requires Fits(cfg, ctx, s) && |frame| <= cfg.fftSize
    ensures Fits(cfg, ctx, t.state)
    ensures t.state.maxVal >= s.maxVal
    ensures t.outcome.OutOfBoundsRead? ==> cfg.frequency && t.outcome.index == -1
    ensures t.outcome.Emitted? ==> t.outcome.line == EmitLine(cfg, t.state.freq, t.state.maxVal, t.state.rms)
  {
    var n := cfg.fftSize;
    var d := Read(s.data, frame);
    var rms := if cfg.rms then ctx.sqrt(MeanSquare(d)) else s.rms;
    if !cfg.frequency then
      Transition(s.(data := d, rms := rms), Emitted(EmitLine(cfg, s.freq, s.maxVal, rms)))
    else
      var cascade := Cascade(ctx.coeffs, s.mem1, s.mem2, d);
      var (re, im) := Transformed(cfg, ctx, s, d);
      var peak := Search(Powers(re, im, n / 2), s.maxVal);
      SearchFindsPeak(Powers(re, im, n / 2), s.maxVal);
      var s' := State(re, im, cascade.1, cascade.2, peak.value, s.freq, rms);
      if peak.index < 0 then
        Transition(s', OutOfBoundsRead(peak.index))
      else
        var freq := ctx.table[peak.index];
        Transition(s'.(freq := freq), Emitted(EmitLine(cfg, freq, peak.value, rms)))
  }

  /** The filter memories are carried over from the previous frame and are
      never reset: instance 1 continues over the read frame, instance 2 over
      instance 1's output. Without frequency output the filters do not run. */
  lemma StepCarriesFilterMemory(cfg: Config, ctx: Context, s: State, frame: seq<real>)
    requires Fits(cfg, ctx, s) && |frame| <= cfg.fftSize
    ensures var d, t := Read(s.data, frame), Step(cfg, ctx, s, frame).state;
      if cfg.frequency then
        && t.mem1 == Filter(ctx.coeffs, s.mem1, d).1
        && t.mem2 == Filter(ctx.coeffs, s.mem2, Filter(ctx.coeffs, s.mem1, d).0).1
      else
        t.mem1 == s.mem1 && t.mem2 == s.mem2
  {
    CascadeIsSequential(ctx.coeffs, s.mem1, s.mem2, Read(s.data, frame));
  }

  /** The rms is taken over the raw frame as read, before any filtering: two
      states with the same buffer give the same rms whatever their filter
      memories and running maximum; a silent full frame gives sqrt(0). */
  lemma StepRmsOfRawFrame(cfg: Config, ctx: Context, s1: State, s2: State, frame: seq<real>)
    requires Fits(cfg, ctx, s1) && Fits(cfg, ctx, s2) && |frame| <= cfg.fftSize
    requires cfg.rms && s1.data == s2.data
    ensures Step(cfg, ctx, s1, frame).state.rms == Step(cfg, ctx, s2, frame).state.rms
    ensures frame == Constant(0.0, cfg.fftSize) ==> Step(cfg, ctx, s1, frame).state.rms == ctx.sqrt(0.0)
  {
  }

  /** The peak search of one iteration. It ends in OutOfBoundsRead exactly
      when no bin of the lower half exceeds the carried maximum; otherwise the
      printed frequency is that of the lowest bin of greatest power, which
      exceeds the carried maximum and becomes the new one. */
  lemma StepPeak(cfg: Config, ctx: Context, s: State, frame: seq<real>)
    requires Fits(cfg, ctx, s) && |frame| <= cfg.fftSize && cfg.frequency
    ensures var (re, im) := Transformed(cfg, ctx, s, Read(s.data, frame));
      var p, t := Powers(re, im, cfg.fftSize / 2), Step(cfg, ctx, s, frame);
      && (t.outcome.OutOfBoundsRead? <==> forall j :: 0 <= j < |p| ==> p[j] <= s.maxVal)
      && (t.outcome.OutOfBoundsRead? ==> t.outcome.index == -1 && t.state.maxVal == s.maxVal)
      && (t.outcome.Emitted? ==>
            exists k :: 0 <= k < |p|
              && t.state.freq == ctx.table[k] && t.state.maxVal == p[k] > s.maxVal
              && (forall j :: 0 <= j < |p| ==> p[j] <= p[k])
              && (forall j :: 0 <= j < k ==> p[j] < p[k]))
  {
    var (re, im) := Transformed(cfg, ctx, s, Read(s.data, frame));
    SearchFindsPeak(Powers(re, im, cfg.fftSize / 2), s.maxVal);
  }

  /** On the first frame the carried maximum is -1 and powers are never
      negative, so with at least two samples per frame a bin is always found. */
  lemma FirstFrameFindsPeak(cfg: Config, ctx: Context, data: seq<real>, datai: seq<real>, frame: seq<real>)
    requires Fits(cfg, ctx, Initial(data, datai)) && |frame| <= cfg.fftSize
    requires cfg.frequency && cfg.fftSize >= 2
    ensures Step(cfg, ctx, Initial(data, datai), frame).outcome.Emitted?
  {
    var s := Initial(data, datai);
    var (re, im) := Transformed(cfg, ctx, s, Read(s.data, frame));
    NegativeStartFindsIndex(re, im, cfg.fftSize / 2, -1.0);
  }

  /** A transform that maps silence to silence, as every Fourier transform does. */
  ghost predicate SilenceToSilence(cfg: Config, ctx: Context)
  {
    cfg.fftSize >= 0 &&
    ctx.fft(Constant(0.0, cfg.fftSize), Constant(0.0, cfg.fftSize)) == (Constant(0.0, cfg.fftSize), Constant(0.0, cfg.fftSize))
  }

  /** The state after the first silent frame. */
  lemma SilentFirstFrame(cfg: Config, ctx: Context, data: seq<real>, datai: seq<real>)
    requires Fits(cfg, ctx, Initial(data, datai)) && cfg.frequency && cfg.fftSize >= 2
    requires SilenceToSilence(cfg, ctx)
    ensures var z, t := Constant(0.0, cfg.fftSize), Step(cfg, ctx, Initial(data, datai), Constant(0.0, cfg.fftSize));
      && t.outcome.Emitted?
      && t.state == State(z, z, Cleared, Cleared, 0.0, ctx.table[0], t.state.rms)
  {
    var n := cfg.fftSize;
    var z := Constant(0.0, n);
    var s := Initial(data, datai);
    assert Read(s.data, z) == z;
    CascadeOfSilence(ctx.coeffs, n);
    assert Windowed(z, ctx.window, n) == z;
    var p := Powers(z, z, n / 2);
    SearchFindsPeak(p, -1.0);
    assert p[0] == 0.0;
  }

  /** For every frame size of at least two and every sample rate, with
      frequency and rms on and a silent first frame, the line is "0 0 " and
      a newline. */
  lemma SilentFrameLine(cfg: Config, ctx: Context, data: seq<real>, datai: seq<real>)
    requires Fits(cfg, ctx, Initial(data, datai)) && cfg.fftSize >= 2
    requires cfg.frequency && !cfg.amplitude && cfg.rms
    requires ctx.table == FreqTable(cfg.sampleRate, cfg.fftSize)
    requires SilenceToSilence(cfg, ctx) && ctx.sqrt(0.0) == 0.0
    ensures Step(cfg, ctx, Initial(data, datai), Constant(0.0, cfg.fftSize)).outcome
         == Emitted([Number(0.0), Space, Number(0.0), Space, Newline])
  {
    SilentFirstFrame(cfg, ctx, data, datai);
    FreqTableShape(cfg.sampleRate, cfg.fftSize);
    StepRmsOfRawFrame(cfg, ctx, Initial(data, datai), Initial(data, datai), Constant(0.0, cfg.fftSize));
  }

  /** How a run of the frame loop ends. RejectedConfig: the configuration
      check failed and nothing was read. Stopped: a stop request was seen at
      the top of an iteration. InputExhausted: the supplied frames ran out
      with no stop request. UndefinedRead: the frequency table was about to be
      read at a negative index. */
  datatype Termination = RejectedConfig | Stopped | InputExhausted | UndefinedRead(index: int)

  datatype Run = Run(termination: Termination, lines: seq<Line>, final: State)

  ghost predicate FramesFit(cfg: Config, frames: seq<seq<real>>)
  {
    forall k :: 0 <= k < |frames| ==> |frames[k]| <= cfg.fftSize
  }

  /** The frame loop over the supplied frames; stops[k] is whether a stop was
      requested when the loop tests for it before reading frames[k]. */
  function Loop(cfg: Config, ctx: Context, s: State, frames: seq<seq<real>>, stops: seq<bool>): (r: Run)
    requires Fits(cfg, ctx, s) && FramesFit(cfg, frames) && |stops| == |frames|
    ensures |r.lines| <= |frames|
    decreases |frames|
  {
    if frames == [] then Run(InputExhausted, [], s)
    else if stops[0] then Run(Stopped, [], s)
    else
      var t := Step(cfg, ctx, s, frames[0]);
      match t.outcome
      case OutOfBoundsRead(i) => Run(UndefinedRead(i), [], t.state)
      case Emitted(line) =>
        var r := Loop(cfg, ctx, t.state, frames[1..], stops[1..]);
        Run(r.termination, [line] + r.lines, r.final)
  }

  /** The stop request is honoured only between frames: a stopped run printed
      one line per frame before the first request; a run that exhausted its
      input saw no request; a run that hit the undefined read saw none up to
      and including the frame that caused it. */
  lemma {:induction false} LoopStopsBetweenFrames(cfg: Config, ctx: Context, s: State, frames: seq<seq<real>>, stops: seq<bool>)
    requires Fits(cfg, ctx, s) && FramesFit(cfg, frames) && |stops| == |frames|
    ensures var r := Loop(cfg, ctx, s, frames, stops);
      && (r.termination == Stopped ==>
            |r.lines| < |stops| && stops[|r.lines|] && forall j :: 0 <= j < |r.lines| ==> !stops[j])
      && (r.termination == InputExhausted ==>
            |r.lines| == |frames| && forall j :: 0 <= j < |stops| ==> !stops[j])
      && (r.termination.UndefinedRead? ==>
            |r.lines| < |frames| && r.termination.index == -1 && forall j :: 0 <= j <= |r.lines| ==> !stops[j])
      && r.termination != RejectedConfig
    decreases |frames|
  {
    if frames != [] && !stops[0] {
      var t := Step(cfg, ctx, s, frames[0]);
      if t.outcome.Emitted? {
        LoopStopsBetweenFrames(cfg, ctx, t.state, frames[1..], stops[1..]);
        assert forall j :: 1 <= j < |stops| ==> stops[j] == stops[1..][j - 1];
      }
    }
  }

  /** Every printed line is complete: it holds every enabled field with its
      space and ends in a newline, so all lines of a run have one length. */
  lemma {:induction false} LoopLinesComplete(cfg: Config, ctx: Context, s: State, frames: seq<seq<real>>, stops: seq<bool>)
    requires Fits(cfg, ctx, s) && FramesFit(cfg, frames) && |stops| == |frames|
    ensures var r := Loop(cfg, ctx, s, frames, stops);
      forall k :: 0 <= k < |r.lines| ==> |r.lines[k]| == LineLength(cfg) && r.lines[k][LineLength(cfg) - 1] == Newline
    decreases |frames|
  {
    if frames != [] && !stops[0] {
      var t := Step(cfg, ctx, s, frames[0]);
      if t.outcome.Emitted? {
        LoopLinesComplete(cfg, ctx, t.state, frames[1..], stops[1..]);
        EmitLineLayout(cfg, t.state.freq, t.state.maxVal, t.state.rms);
        var line := t.outcome.line;
        var rest := Loop(cfg, ctx, t.state, frames[1..], stops[1..]).lines;
        assert var r := Loop(cfg, ctx, t.state, frames[1..], stops[1..]);
          forall k :: 0 <= k < |r.lines| ==> |r.lines[k]| == LineLength(cfg) && r.lines[k][LineLength(cfg) - 1] == Newline;
        assert forall k :: 0 <= k < |rest| ==> |rest[k]| == LineLength(cfg);
        assert |line| == LineLength(cfg) && line[LineLength(cfg) - 1] == Newline;
        var lines := Loop(cfg, ctx, s, frames, stops).lines;
        assert lines == [line] + rest;
        forall k | 0 <= k < |lines|
          ensures |lines[k]| == LineLength(cfg) && lines[k][LineLength(cfg) - 1] == Newline
        {
          if k > 0 {
            assert lines[k] == rest[k - 1];
            assert |rest[k - 1]| == LineLength(cfg);
          }
        }
      }
    }
  }

  /** All the frames, joined into one stream. */
  function Concat(frames: seq<seq<real>>): seq<real>
    decreases |frames|
  {
    if frames == [] then [] else frames[0] + Concat(frames[1..])
  }

  /** Because the filter memories are never reset, a run over full frames
      leaves them exactly as if instance 1 had filtered all the processed
      frames as one stream and instance 2 had filtered its output. */
  lemma {:induction false} LoopFiltersOneStream(cfg: Config, ctx: Context, s: State, frames: seq<seq<real>>, stops: seq<bool>)
    requires Fits(cfg, ctx, s) && |stops| == |frames| && cfg.frequency
    requires forall k :: 0 <= k < |frames| ==> |frames[k]| == cfg.fftSize
    ensures var r := Loop(cfg, ctx, s, frames, stops);
      var stream := Concat(frames[..|r.lines|]);
      !r.termination.UndefinedRead? ==>
        && r.final.mem1 == Filter(ctx.coeffs, s.mem1, stream).1
        && r.final.mem2 == Filter(ctx.coeffs, s.mem2, Filter(ctx.coeffs, s.mem1, stream).0).1
    decreases |frames|
  {
    var c := ctx.coeffs;
    var r := Loop(cfg, ctx, s, frames, stops);
    if frames == [] || stops[0] {
      assert frames[..|r.lines|] == [];
    } else {
      var f := frames[0];
      var t := Step(cfg, ctx, s, f);
      if t.outcome.Emitted? {
        var rest := frames[1..];
        LoopFiltersOneStream(cfg, ctx, t.state, rest, stops[1..]);
        var r' := Loop(cfg, ctx, t.state, rest, stops[1..]);
        var tail := Concat(rest[..|r'.lines|]);
        assert frames[..|r.lines|] == [f] + rest[..|r'.lines|];
        assert Concat(frames[..|r.lines|]) == f + tail;
        assert Read(s.data, f) == f;
        StepCarriesFilterMemory(cfg, ctx, s, f);
        FilterConcat(c, s.mem1, f, tail);
        var (us, e1) := Filter(c, s.mem1, f);
        FilterConcat(c, s.mem2, us, Filter(c, e1, tail).0);
      }
    }
  }

  /** A filter memory of four cells, all cleared. */
  method NewMemory() returns (m: array<real>)
    ensures fresh(m) && m[..] == Cleared
  {
    m := new real[4];
    m[0], m[1], m[2], m[3] := 0.0, 0.0, 0.0, 0.0;
  }

  /** The Hann window of a fresh buffer of size cells. */
  method NewWindow(size: nat, cosines: seq<real>) returns (w: array<real>)
    requires |cosines| == size
    ensures fresh(w) && w[..] == HannWindow(cosines)
  {
    w := new real[size];
    BuildHanWindow(w, size, cosines);
  }

  /** The low-pass coefficients in fresh buffers of two and three cells. */
  method NewCoefficients(cosw0: real, sinw0: real, sqrt2: real) returns (a: array<real>, b: array<real>)
    requires -1.0 <= sinw0 <= 1.0 && 0.0 < sqrt2 && sqrt2 * sqrt2 == 2.0
    ensures fresh(a) && fresh(b) && a != b && a.Length == 2 && b.Length == 3
    ensures Coefficients(a[..], b[..]) == LowPass(cosw0, sinw0, sqrt2)
  {
    a := new real[2];
    b := new real[3];
    ComputeSecondOrderLowPassParameters(cosw0, sinw0, sqrt2, a, b);
  }

  /** The frequency table in a fresh buffer of fftSize cells. */
  method NewFreqTable(sampleRate: int, fftSize: int) returns (t: array<real>)
    requires fftSize >= 1 && ProductsFit(sampleRate, fftSize)
    ensures fresh(t) && t[..] == FreqTable(sampleRate, fftSize)
  {
    t := new real[fftSize];
    BuildFreqTable(t, sampleRate, fftSize);
  }

  /** An analyser whose state lives in the buffers and variables of the
      program: two filter memories of four cells, the sample and imaginary
      buffers, the window and frequency table, and the running maximum, last
      frequency and last rms. */
  class Analyzer {
    const cfg: Config
    const fft: Transform
    const sqrt: real -> real
    const a: array<real>
    const b: array<real>
    const mem1: array<real>
    const mem2: array<real>
    const data: array<real>
    const datai: array<real>
    const window: array<real>
    const freqTable: array<real>
    var freq: real
    var maxVal: real
    var rms: real

    ghost predicate Valid()
    {
      && cfg.fftSize >= 1
      && a.Length == 2 && b.Length == 3 && mem1.Length == 4 && mem2.Length == 4
      && data.Length == cfg.fftSize && datai.Length == cfg.fftSize
      && window.Length == cfg.fftSize && freqTable.Length == cfg.fftSize
      // the buffers written per frame are distinct from each other and from the rest
      && mem1 != mem2 && data != datai
      && data != mem1 && data != mem2 && datai != mem1 && datai != mem2
      && data != a && data != b && data != window && data != freqTable
      && datai != a && datai != b && datai != window && datai != freqTable
      && mem1 != window && mem1 != freqTable && mem2 != window && mem2 != freqTable
    }

    /** The part fixed at start-up. */
    ghost function Fixed(): Context
      reads a, b, window, freqTable
      requires Valid()
    {
      Context(Coefficients(a[..], b[..]), window[..], freqTable[..], fft, sqrt)
    }

    /** The part that changes from frame to frame. */
    ghost function Abstract(): State
      reads this, data, datai, mem1, mem2
      requires Valid()
    {
      State(data[..], datai[..], mem1[..], mem2[..], maxVal, freq, rms)
    }

    /** Start-up: build the window, the filter coefficients, clear both filter
        memories, build the frequency table. */
    constructor (cfg: Config, cosines: seq<real>, cosw0: real, sinw0: real, sqrt2: real,
                 fft: Transform, sqrt: real -> real)
      requires cfg.fftSize >= 1 && |cosines| == cfg.fftSize
      requires ProductsFit(cfg.sampleRate, cfg.fftSize)
      requires -1.0 <= sinw0 <= 1.0 && 0.0 < sqrt2 && sqrt2 * sqrt2 == 2.0
      ensures Valid() && this.cfg == cfg
      ensures Fixed() == ContextOf(cfg, cosines, cosw0, sinw0, sqrt2, fft, sqrt)
      ensures Abstract() == Initial(data[..], datai[..])
      ensures fresh(data) && fresh(datai) && fresh(mem1) && fresh(mem2)
    {
      var n := cfg.fftSize;
      var w := NewWindow(n, cosines);
      var fa, fb := NewCoefficients(cosw0, sinw0, sqrt2);
      var m1 := NewMemory();
      var m2 := NewMemory();
      var t := NewFreqTable(cfg.sampleRate, n);
      var d := new real[n];
      var di := new real[n];
      this.cfg, this.fft, this.sqrt := cfg, fft, sqrt;
      a, b, mem1, mem2, window, freqTable, data, datai := fa, fb, m1, m2, w, t, d, di;
      freq, maxVal, rms := -1.0, -1.0, -1.0;
    }

    /** The read: the frame overwrites the start of the sample buffer. */
    method ReadFrame(frame: seq<real>)
      requires Valid() && |frame| <= cfg.fftSize
      modifies data
      ensures data[..] == Read(old(data[..]), frame)
    {
      forall i | 0 <= i < |frame| {
        data[i] := frame[i];
      }
      assert data[..] == Read(old(data[..]), frame);
    }

    /** The low-pass loop: every sample goes through filter 1 and then
        filter 2, in place. */
    method LowPassFrame()
      requires Valid()
      modifies data, mem1, mem2
      ensures (data[..], mem1[..], mem2[..]) == Cascade(Fixed().coeffs, old(mem1[..]), old(mem2[..]), old(data[..]))
    {
      ghost var c, d := Fixed().coeffs, data[..];
      ghost var m1, m2 := mem1[..], mem2[..];
      for j := 0 to data.Length
        invariant data[j..] == d[j..]
        invariant (data[..j], mem1[..], mem2[..]) == Cascade(c, m1, m2, d[..j])
        invariant Fixed().coeffs == c
      {
        assert d[..j + 1][..j] == d[..j];
        var u := ProcessSecondOrderFilter(data[j], mem1, a, b);
        data[j] := u;
        var v := ProcessSecondOrderFilter(data[j], mem2, a, b);
        data[j] := v;
        assert data[..j + 1] == data[..j] + [v];
      }
      assert d[..data.Length] == d && data[..data.Length] == data[..];
    }

    /** The imaginary buffer is cleared before the transform. */
    method ClearImaginary()
      requires Valid()
      modifies datai
      ensures datai[..] == Constant(0.0, cfg.fftSize)
    {
      for j := 0 to datai.Length
        invariant datai[..j] == Constant(0.0, j)
      {
        datai[j] := 0.0;
        assert datai[..j + 1] == datai[..j] + [0.0];
      }
      assert datai[..datai.Length] == datai[..];
    }

    /** The forward transform, in place on both buffers. */
    method ApplyFft()
      requires Valid()
      modifies data, datai
      ensures (data[..], datai[..]) == fft(old(data[..]), old(datai[..]))
    {
      var r := fft(data[..], datai[..]);
      forall i | 0 <= i < data.Length {
        data[i] := r.0[i];
      }
      forall i | 0 <= i < datai.Length {
        datai[i] := r.1[i];
      }
      assert data[..] == r.0 && datai[..] == r.1;
    }

    /** One iteration of the frame loop, after the stop test. */
    method ProcessFrame(frame: seq<real>) returns (outcome: Outcome)
      requires Valid() && |frame| <= cfg.fftSize
      modifies this, data, datai, mem1, mem2
      ensures Valid()
      ensures Step(cfg, Fixed(), old(Abstract()), frame) == Transition(Abstract(), outcome)
    {
      ghost var s := Abstract();
      ghost var ctx := Fixed();
      var n := cfg.fftSize;
      ReadFrame(frame);
      ghost var d := data[..];
      if cfg.rms {
        var sum := SumOfSquares(data);
        rms := sqrt(sum / n as real);
      }
      assert rms == if cfg.rms then sqrt(MeanSquare(d)) else s.rms;
      if cfg.frequency {
        LowPassFrame();
        ghost var cascade := Cascade(ctx.coeffs, s.mem1, s.mem2, d);
        assert mem1[..] == cascade.1 && mem2[..] == cascade.2;
        ApplyWindow(window, data, n);
        ClearImaginary();
        ApplyFft();
        assert (data[..], datai[..]) == Transformed(cfg, ctx, s, d);
        var maxIndex, newMax := SearchPeak(data, datai, n / 2, maxVal);
        maxVal := newMax;
        if maxIndex < 0 {
          // the source reads freqTable[maxIndex] here, at index -1
          return OutOfBoundsRead(maxIndex);
        }
        freq := freqTable[maxIndex];
      }
      outcome := Emitted(EmitLine(cfg, freq, maxVal, rms));
    }
  }

  /** The program: the configuration check, start-up, then the frame loop,
      which tests for a stop request at the top of every iteration. */
  method Analyze(cfg: Config, cosines: seq<real>, cosw0: real, sinw0: real, sqrt2: real,
                 fft: Transform, sqrt: real -> real, frames: seq<seq<real>>, stops: seq<bool>)
    returns (termination: Termination, lines: seq<Line>)
    requires |stops| == |frames| && FramesFit(cfg, frames)
    requires Accepted(cfg) ==> cfg.fftSize >= 1 && |cosines| == cfg.fftSize && ProductsFit(cfg.sampleRate, cfg.fftSize)
    requires Accepted(cfg) ==> -1.0 <= sinw0 <= 1.0 && 0.0 < sqrt2 && sqrt2 * sqrt2 == 2.0
    ensures !Accepted(cfg) ==> termination == RejectedConfig && lines == []
    ensures Accepted(cfg) ==>
      var ctx := ContextOf(cfg, cosines, cosw0, sinw0, sqrt2, fft, sqrt);
      exists data: seq<real>, datai: seq<real> ::
        && Fits(cfg, ctx, Initial(data, datai))
        && Loop(cfg, ctx, Initial(data, datai), frames, stops).termination == termination
        && Loop(cfg, ctx, Initial(data, datai), frames, stops).lines == lines
  {
    if !Accepted(cfg) {
      return RejectedConfig, [];
    }
    var an := new Analyzer(cfg, cosines, cosw0, sinw0, sqrt2, fft, sqrt);
    ghost var ctx := an.Fixed();
    ghost var s0 := an.Abstract();
    ghost var run := Loop(cfg, ctx, s0, frames, stops);
    lines := [];
    var k := 0;
    while k < |frames| && !stops[k]
      invariant 0 <= k <= |frames|
      invariant an.Valid() && an.cfg == cfg && an.Fixed() == ctx
      invariant Fits(cfg, ctx, an.Abstract())
      invariant var r := Loop(cfg, ctx, an.Abstract(), frames[k..], stops[k..]);
        run == Run(r.termination, lines + r.lines, r.final)
      decreases |frames| - k
    {
      assert frames[k..][1..] == frames[k + 1..] && stops[k..][1..] == stops[k + 1..];
      var outcome := an.ProcessFrame(frames[k]);
      match outcome
      case OutOfBoundsRead(i) =>
        return UndefinedRead(i), lines;
      case Emitted(line) =>
        lines := lines + [line];
      k := k + 1;
    }
    termination := if k < |frames| then Stopped else InputExhausted;
    assert Fits(cfg, ctx, s0);
  }

  /** After a silent frame the running maximum is 0, and a further silent
      frame has no bin above it: the iteration ends in the undefined read. */
  lemma SilentSecondFrame(cfg: Config, ctx: Context, s: State)
    requires Fits(cfg, ctx, s) && cfg.frequency && cfg.fftSize >= 2
    requires SilenceToSilence(cfg, ctx)
    requires s.mem1 == Cleared && s.mem2 == Cleared && s.maxVal == 0.0
    ensures Step(cfg, ctx, s, Constant(0.0, cfg.fftSize)).outcome == OutOfBoundsRead(-1)
  {
    var n := cfg.fftSize;
    var z := Constant(0.0, n);
    assert Read(s.data, z) == z;
    CascadeOfSilence(ctx.coeffs, n);
    assert Windowed(z, ctx.window, n) == z;
    SearchFindsPeak(Powers(z, z, n / 2), 0.0);
  }

  /** Silence is enough to reach the out-of-bounds read: the first silent
      frame raises the running maximum to 0 and the second has no bin above 0. */
  lemma SilenceReachesUndefinedRead(cfg: Config, ctx: Context, data: seq<real>, datai: seq<real>)
    requires Fits(cfg, ctx, Initial(data, datai)) && cfg.frequency && cfg.fftSize >= 2
    requires SilenceToSilence(cfg, ctx)
    ensures var z := Constant(0.0, cfg.fftSize);
      var r := Loop(cfg, ctx, Initial(data, datai), [z, z], [false, false]);
      r.termination == UndefinedRead(-1) && |r.lines| == 1
  {
    var z := Constant(0.0, cfg.fftSize);
    SilentFirstFrame(cfg, ctx, data, datai);
    var t := Step(cfg, ctx, Initial(data, datai), z);
    SilentSecondFrame(cfg, ctx, t.state);
    assert [z, z][1..] == [z] && [false, false][1..] == [false];
  }
}
