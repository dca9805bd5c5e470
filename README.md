# analyze-signal, modelled in Dafny

analyze-signal reads raw 32-bit float samples from standard input, one frame
of `FFT_SIZE` samples at a time. For every frame it prints one line holding,
as selected on the command line:
- the dominant frequency;
- its power (the "amplitude");
- the root-mean-square amplitude of the frame.

Frequency detection works in this order:
1. The frame goes through a fourth-order low-pass, made of two second-order
   (biquad) filter instances in cascade with a cutoff of 330 Hz.
2. A Hann window is applied.
3. The external FFT backend transforms the frame.
4. The strongest bin in the lower half of the spectrum is looked up in a
   bin-to-frequency table.

The model covers that per-frame pipeline and the state it carries from frame
to frame:
- **Frames** (`Frames.dfy`): the constant frame, used for silence and for
  the cleared imaginary buffer.
- **Biquad** (`Biquad.dfy`):
  - the coefficient computation;
  - the filter step on its four-cell memory, held in an array;
  - one instance over a whole frame (`Filter`);
  - the per-sample cascade of the two instances as the frame loop runs it
    (`Cascade`).
- **Window** (`Window.dfy`): the Hann window and its in-place application.
- **Spectrum** (`Spectrum.dfy`):
  - the frequency table;
  - the FFT backend as a length-preserving function (`Transform`);
  - the peak search, with its strict comparison against a running maximum.
- **Amplitude** (`Amplitude.dfy`): the sum of squares and the mean square
  of the raw frame.
- **Pipeline** (`Pipeline.dfy`):
  - the configuration check;
  - the output line as tokens;
  - one iteration as a pure transition `Step` on an abstract `State`;
  - the frame loop as the recursive `Loop`;
  - the class `Analyzer`, whose arrays and variables are the program's
    buffers and whose `ProcessFrame` is proved to perform exactly `Step`;
  - `Analyze`, the start-up plus the frame loop, proved to produce what
    `Loop` specifies.

Samples are `real` numbers. Everything the program computes with
transcendental functions or external code is a parameter of the model:
- `cos(w0)`, `sin(w0)` and `sqrt(2)` for the filter coefficients;
- the window cosines `cos(2*pi*i/(size-1))`;
- the FFT backend;
- the square root used for the RMS.

The peak search keeps `maxVal` across frames: it is set to -1 once and never
reset. A frame whose every bin is at most the carried maximum therefore
leaves `maxIndex` at -1, and `src/main.c:250` reads `freqTable[-1]`. The
model does not hide this:
- `Step` returns the outcome `OutOfBoundsRead(-1)`, and `StepPeak` proves
  that this happens exactly when no bin of the lower half exceeds the
  carried maximum.
- `FirstFrameFindsPeak` proves that the first frame never hits it when the
  frame has at least two samples.
- `SilenceReachesUndefinedRead` proves that two silent frames reach it.

Because the read is undefined behaviour in C, the model ends the run there
(`UndefinedRead(-1)`).

The cascade could also be run as the whole frame through the first filter,
then the whole intermediate frame through the second. The code instead runs both
filters on each sample inside one loop (`src/main.c:222-225`). The model
follows the code (`Biquad.Cascade`, `Analyzer.LowPassFrame`), and
`Biquad.CascadeIsSequential` proves that both orders give the same frame and
the same final memories.

## Model

| member | source | states |
|---|---|---|
| Biquad.NormaliserPositive | src/main.c:290-292 | with Q = 1/sqrt(2) and a sine in [-1, 1], the normaliser a0 = 1 + alpha is positive, so the coefficient divisions are defined |
| Biquad.LowPass | src/main.c:283-298 | the feedforward taps are in the ratio 1:2:1 (b[2] = b[0], b[1] = 2*b[0]), and the gain at zero frequency is one (b0 + b1 + b2 = 1 + a0 + a1) |
| Biquad.ComputeSecondOrderLowPassParameters | src/main.c:283-298 | the arrays a and b receive exactly the low-pass coefficients computed from the given cos(w0), sin(w0) and sqrt(2) |
| Biquad.UnityGain | src/main.c:292-297 | the normalised coefficients have unit gain at zero frequency |
| Biquad.ProcessSecondOrderFilter | src/main.c:299-310 | the result is b0*x + b1*m0 + b2*m1 - a0*m2 - a1*m3 over the memory as it was on entry; the memory afterwards is [x, old m0, ret, old m2]; only mem is written |
| Biquad.Output | src/main.c:301-302 | the step output b0*x + b1*m0 + b2*m1 - a0*m2 - a1*m3 from input x and memory m |
| Biquad.Shift | src/main.c:304-307 | the memory after a step: [x, m0, y, m2], the new input and output pushed in front of the previous ones |
| Biquad.Filter | src/main.c:299-310 | one instance over a frame returns one output per input sample, together with the memory it ends in |
| Biquad.Cascade | src/main.c:222-225 | the interleaved cascade returns one output per input sample, together with both final memories |
| Biquad.CascadeIsSequential | src/main.c:222-225 | running filter 1 then filter 2 on each sample gives the same frame and the same final mem1 and mem2 as filtering the whole frame with mem1 and then the whole result with mem2 |
| Biquad.FilterConcat | src/main.c:202-225 | filtering two frames one after the other with the memory carried over is the same as filtering their concatenation, in outputs and in final memory |
| Biquad.SteadyState | src/main.c:299-310 | with unit DC gain, a memory holding a constant input and output is a fixed point: the output equals the input and the memory is unchanged |
| Biquad.ConstantPassesThrough | src/main.c:299-310 | from the steady state of x, a constant frame of x passes through unchanged and leaves the memory as it was |
| Biquad.SilenceStaysSilent | src/main.c:176-177 | from cleared memory, a silent frame gives a silent output and leaves the memory cleared |
| Biquad.CascadeOfSilence | src/main.c:222-225 | the cascade from two cleared memories maps silence to silence and keeps both memories cleared |
| Window.HannWindow | src/main.c:273-277 | the window has one value per cosine |
| Window.BuildHanWindow | src/main.c:273-277 | the first size cells hold 0.5*(1 - cos_i), and cells beyond size are unchanged |
| Window.HannShape | src/main.c:273-277 | every window value lies in [0, 1]; a cosine of 1 at either end makes that end zero; symmetric cosines give a symmetric window |
| Window.Windowed | src/main.c:278-282 | the windowed frame has the length of the frame |
| Window.ApplyWindow | src/main.c:278-282 | data[i] becomes old data[i] * old window[i] for i < size, and the rest of data keeps its old values; this holds even when window and data are the same array |
| Window.HannTapersEnds | src/main.c:227 | a frame windowed with a Hann window whose end cosines are 1 starts and ends with a zero sample |
| Spectrum.ProductFits | src/main.c:180-182 | if sampleRate*(fftSize-1) fits in a 32-bit int, then so does every product sampleRate*i with 0 <= i < fftSize |
| Spectrum.FreqTable | src/main.c:180-182 | the table has fftSize entries |
| Spectrum.BuildFreqTable | src/main.c:180-182 | every cell i holds sampleRate*i/fftSize, and the int product does not overflow |
| Spectrum.FreqTableShape | src/main.c:180-182 | table[0] = 0; neighbouring entries differ by sampleRate/fftSize; the table is strictly increasing for a positive rate and nondecreasing for a rate of at least zero |
| Spectrum.Powers | src/main.c:237 | there is one power re^2 + im^2 per inspected bin |
| Spectrum.PowersNonNegative | src/main.c:237 | no power is negative |
| Spectrum.Search | src/main.c:235-248 | the index found is -1 or a valid bin |
| Spectrum.SearchFindsPeak | src/main.c:235-248 | the outgoing maximum is max(incoming maximum, every power), so it never decreases; the index is -1 exactly when no power exceeds the incoming maximum, and then the maximum is unchanged; otherwise the index holds the greatest power, which exceeds the incoming maximum, and no earlier bin reaches it (lowest index of maximal power) |
| Spectrum.SearchPeak | src/main.c:235-248 | the loop over bins 0 <= j < bins returns the index and the maximum that Search specifies |
| Spectrum.NegativeStartFindsIndex | src/main.c:244-248 | a search over at least one bin that starts below zero always finds an index |
| Amplitude.SumSquares | src/main.c:209-212 | the sum of the squares of the samples, accumulated left to right |
| Amplitude.SumOfSquares | src/main.c:209-212 | the accumulated value is the sum of the squares of the samples |
| Amplitude.SumSquaresSign | src/main.c:209-212 | the sum of squares is at least zero, and it is zero for an all-zero frame |
| Amplitude.SumSquaresConstant | src/main.c:209-212 | the sum of squares of n copies of x is n*x^2 |
| Amplitude.MeanSquare | src/main.c:213 | the mean square of a frame is at least zero, and it is zero for an all-zero frame |
| Amplitude.MeanSquareConstant | src/main.c:213 | the mean square of a constant frame of x is x^2 |
| Pipeline.Accepted | src/main.c:132-135 | a configuration is accepted unless the amplitude is asked for without the frequency |
| Pipeline.EmitLine | src/main.c:253-257 | the line: frequency, amplitude and rms, each only when enabled, each followed by a space, then a newline |
| Pipeline.Initial | src/main.c:141-143 | the start-up state: both filter memories cleared, maxVal, freq and rms at -1, the sample buffers as given |
| Pipeline.EmitLineLayout | src/main.c:253-257 | a line holds the enabled fields in the order frequency, amplitude, rms, each present exactly when its flag is set and each followed by a space, and the line ends in a newline |
| Pipeline.Read | src/main.c:205 | a read of up to fftSize samples replaces the start of the buffer and leaves the rest as the previous frame left it |
| Pipeline.Transformed | src/main.c:218-232 | the filtered, windowed and transformed frame has fftSize real and fftSize imaginary parts |
| Pipeline.Step | src/main.c:204-257 | an iteration keeps buffer sizes and never lowers the running maximum; it faults only with frequency output on and only at index -1; an emitted line reports the new frequency, maximum and rms |
| Pipeline.StepCarriesFilterMemory | src/main.c:202-225 | with frequency output on, mem1 continues over the read frame and mem2 over mem1's output, with no reset between frames; without it, neither memory changes |
| Pipeline.StepRmsOfRawFrame | src/main.c:207-215 | the rms depends only on the raw frame as read, not on filter memories or the running maximum; an all-zero full frame gives sqrt(0) |
| Pipeline.StepPeak | src/main.c:235-250 | the iteration faults exactly when no bin of the lower half exceeds the carried maximum, and then the maximum is kept; otherwise the printed frequency is the table entry of the lowest bin of greatest power, and that power exceeds the carried maximum and becomes the new one |
| Pipeline.FirstFrameFindsPeak | src/main.c:244-250 | on the first frame (maxVal = -1) with at least two samples, a bin is always found |
| Pipeline.SilentFirstFrame | src/main.c:202-251 | a silent first frame leaves silent buffers, cleared memories, maximum 0 and frequency table[0] |
| Pipeline.SilentFrameLine | src/main.c:253-257 | with frequency and rms on, a silent first frame prints the line "0 0 " and a newline |
| Pipeline.SilentSecondFrame | src/main.c:244-250 | after silence has raised the maximum to 0, a further silent frame faults at index -1 |
| Pipeline.SilenceReachesUndefinedRead | src/main.c:202-250 | two silent frames with no stop request print one line and then reach the read at index -1 |
| Pipeline.Loop | src/main.c:202-260 | a run prints at most one line per frame |
| Pipeline.LoopStopsBetweenFrames | src/main.c:202-203 | the stop request is seen only at the top of an iteration: a stopped run printed one line per frame before the first request; a run that used all frames saw no request; a run ending in the fault saw none up to and including the faulting frame; a run of the loop is never a rejected configuration |
| Pipeline.LoopLinesComplete | src/main.c:253-257 | every printed line is complete, with the same length for a configuration, and ends in a newline |
| Pipeline.LoopFiltersOneStream | src/main.c:202-225 | over full frames, the memories at the end of a run are those of filtering all processed frames as one stream with mem1, and mem1's output with mem2 |
| Pipeline.NewMemory | src/main.c:176-177 | a filter memory starts with all four cells at zero |
| Pipeline.NewWindow | src/main.c:173 | the window buffer holds the Hann window |
| Pipeline.NewCoefficients | src/main.c:175 | the coefficient buffers hold the low-pass coefficients |
| Pipeline.NewFreqTable | src/main.c:180-182 | the table buffer holds the frequency table |
| Pipeline.Analyzer.constructor | src/main.c:140-182 | start-up fixes the coefficients, window, table, FFT backend and square root, clears both filter memories, and sets maxVal, freq and rms to -1; the sample buffers hold whatever they held |
| Pipeline.Analyzer.ReadFrame | src/main.c:205 | the sample buffer becomes the read frame over the old buffer |
| Pipeline.Analyzer.LowPassFrame | src/main.c:222-225 | the sample buffer and both memories become exactly what the interleaved cascade gives for the old buffer and memories |
| Pipeline.Analyzer.ClearImaginary | src/main.c:230-231 | the imaginary buffer is all zeros |
| Pipeline.Analyzer.ApplyFft | src/main.c:232 | both buffers become the backend's transform of their old contents |
| Pipeline.Analyzer.ProcessFrame | src/main.c:204-257 | one iteration on the arrays and variables performs exactly Step on the abstract state and returns its outcome |
| Pipeline.Analyze | src/main.c:132-260 | amplitude without frequency is rejected before anything is read; otherwise the lines printed and the way the run ends are those of Loop from the initial state, for some initial contents of the sample buffers |

## Left out

- Argument parsing, help and version text (`src/main.c:92-130`): the sample rate, frame size and the three flags are the fields of `Config`.
- The error message printed on a rejected configuration (`src/main.c:133`) is not modelled. It goes to the same stream as the result lines, but `Analyze` returns no lines and only the `RejectedConfig` termination.
- Signals: `signalHandler` and `sigaction` are asynchronous. A stop request is modelled as one boolean per iteration, tested at the top of the loop.
- Reading input: `fread` is I/O. Each read is a supplied frame of at most `fftSize` samples. A short frame replaces only a prefix of the buffer, and the rest keeps the previous frame's contents, as in the code: post-transform when frequency output is on, as read otherwise.
- End of input: the program keeps iterating on an exhausted stdin until it is signalled. The model's frame list is finite, so a run can end with `InputExhausted`.
- Pipeline.Analyze: the ensures says only that the result comes from some initial contents of the sample buffers. In C these contents are indeterminate.
- Output formatting: `printf("%f ")` is modelled as `Number` and `Space` tokens. The decimal rendering of a number is not modelled.
- Floating point: samples and coefficients are real numbers, so rounding, NaN and infinities are not modelled.
- Transcendental functions: `cos`, `sin`, `sqrt` and `M_PI` are not computed. The model takes cos(w0), sin(w0), sqrt(2), the window cosines and the RMS square root as parameters.
- The FFT backend is not part of this model. `initfft`, `applyfft` and `destroyfft` live in an external library, and the transform is a given function that keeps both buffer lengths. `log` for `FFT_EXP_SIZE` (`src/main.c:137`) only sizes that backend.
- Window.HannWindow: with a frame of one sample the source divides by size-1 = 0. The model takes the cosines as given, so that case is whatever cosine the caller supplies.
- Spectrum.BuildFreqTable: signed overflow of `SAMPLE_RATE * i` is undefined behaviour in C. It is excluded by the precondition `ProductsFit`, not modelled as wrap-around.
- Pipeline.Step: the read `freqTable[-1]` is undefined behaviour. The model reports it as `OutOfBoundsRead(-1)` and the run ends there, rather than continuing with an unknown frequency.
- The pitch / nearest-bin loop (`src/main.c:184-197`) is not modelled. It computes an index that is never used.
- `buildHammingWindow` (`src/main.c:268-272`) is not modelled. It is never called.
- Amplitude.SumSquaresSign: proves that the sum is nonnegative and that a silent frame sums to zero. It does not prove the converse, that a zero sum means a silent frame.
