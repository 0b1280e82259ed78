# autoCorrelate: a verified model of the pitch estimator in note.js

The core of note.js is `autoCorrelate(buf, sampleRate)`. It is a time-domain
pitch estimator. It is given a window of audio samples and the sample rate, and
returns a frequency in Hz, or `-1` for "no pitch". It works in five steps:

1. It sums the squares of all samples. Below 0.001 the window counts as silent
   and the answer is `-1`.
2. It sweeps the lags `offset = MIN_SAMPLES .. floor(SIZE/2) - 1`. Each lag gets
   the score `1 - mean |buf[i] - buf[i + offset]|` over the first `floor(SIZE/2)`
   samples, written into the scratch array `correlations`.
3. A lag is *good* when its score is above `GOOD_ENOUGH_CORRELATION` (0.9) and
   above the previous lag's score. `lastCorrelation` starts at 1. Good lags
   update `best_correlation` and `best_offset`.
4. At the first lag that is not good after a good one, the sweep stops. It
   refines `best_offset` from the scores of its two neighbours,
   `shift = (c[b+1] - c[b-1]) / c[b]`, and returns `sampleRate / (b + 8*shift)`.
5. After a full sweep, it returns `sampleRate / best_offset` if
   `best_correlation > 0.01`, and `-1` otherwise.

The model works over exact reals. Samples are `real`. The window is an
`array<real>` that is only read: no method has it in a `modifies` clause. The
answer is a `Pitch`:

- `NoPitch` stands for the `-1` sentinel.
- `Frequency(hz)` is any other number the source returns. Nothing makes it a
  plausible frequency: it can be negative, and it can even be exactly `-1`
  (see "## Left out").
- `DivideByZero` covers the one division nothing in the source guards. That is
  the final division when `b + 8*shift` comes out as exactly zero.

There are two modules.

- `PitchSpec` (pitch_spec.dfy) holds the named constants and the reference
  definitions:
  - `Energy`, `Score` and `Profile`: the score of every lag.
  - `Good`, `FoundGood` and `ExitsAt`: when the sweep stops.
  - `FirstExit`: the first lag where it stops.
  - `Best`: the tracked best pair.
  - `Interpolated`: the interpolation.
  - `EstimatedPitch`: the whole answer.
  
  It also holds the lemmas about these definitions. `EstimatedPitch` cannot
  even be stated without the lemma that the early exit happens with
  `best_offset >= 2`, because its neighbour reads and its division depend on it.
- `AutoCorrelation` (auto_correlate.dfy) holds the procedure itself. It has
  the energy loop, the nested loop per lag, the in-place writes to
  `correlations`, and the mutable `foundGoodCorrelation`, `bestOffset`,
  `bestCorrelation` and `lastCorrelation`. The early return stays inside the
  sweep loop. `AutoCorrelate` is proved equal to `EstimatedPitch`. For proof
  size, the body of the source function is split into the steps it performs:
  - `SumOfSquares`: lines 13-16.
  - `LagScore`: lines 24-29.
  - `RecordScore`: lines 24-30.
  - `Sweep`: lines 22-56.
  - `InterpolatePeak`: lines 47-48.
  - `FallbackPitch`: lines 52-56.

  In JavaScript, `new Array(MAX_SAMPLES)` starts with holes. The model
  assumes nothing about the initial entries of `correlations`: `Sweep` works
  for any initial contents and leaves the entries past the scanned lags as
  they were. `InterpolatePeak` may only read entries that the sweep has
  written, so the initial contents cannot affect the answer.

What the proofs establish about the source:

- Lag 0 always scores exactly 1 and no lag scores above 1. Lag 0 is compared
  against the initial `lastCorrelation = 1`, so it can never be good. Lag 1
  would have to beat lag 0's score of 1, so it can never be good either.
- At the early exit, `best_offset == offset - 1 >= 2`. The comment at
  note.js:44-46 claims only `>= 1`. So lags `best_offset - 1`, `best_offset` and
  `best_offset + 1` have all been written before line 47 reads them. The
  divisor `correlations[best_offset]` is above 0.9.
- Until the sweep stops, the good lags form one run. The run starts at the
  first good lag and its scores strictly increase. `best_offset` is always the
  last lag of that run, and `best_correlation` is either 0 or above 0.9.
- So the fallback at line 54 is reached only after a good run that lasted to
  the last lag. It returns `sampleRate / (floor(SIZE/2) - 1)`, with
  `floor(SIZE/2) >= 3`.
- The answer is `NoPitch` exactly when the window is silent or no lag is
  good. Every window of fewer than 6 samples gives `NoPitch`. The caller of
  note.js cannot always tell `NoPitch` from a frequency, because an
  interpolated answer can be the number `-1` too
  (`InterpolationCanYieldSentinel`).
- `correlations` receives one score per scanned lag, in lag order, and no
  other entry changes. A silent window scans no lag.

Three details of note.js that the model keeps as written:

- The final division `sampleRate / (best_offset + 8*shift)` is not guarded
  against a zero divisor. Only the division by `correlations[best_offset]` is
  safe, and it is safe by the argument above.
- The fallback tests `best_correlation`, which only a good lag ever updates.
  So it is 0 or above 0.9, never a lag that was not good.
- No length check comes before the energy test. A window with no lags still
  ends in `-1`, through the empty sweep.

## Model

| member | source | states |
|---|---|---|
| `PitchSpec.Energy` | note.js:13-16 | the sum of squares tested against the silence bar is never negative |
| `PitchSpec.AbsDiffSum` | note.js:26-28 | the accumulated absolute difference of a lag is never negative |
| `PitchSpec.Score` | note.js:29 | no lag scores above 1 |
| `PitchSpec.Profile` | note.js:23-30 | one score per lag `0 .. floor(SIZE/2) - 1`, 1 at lag 0 and none above 1 |
| `PitchSpec.MaxLag` | note.js:6 | definition: `MAX_SAMPLES = floor(SIZE/2)`, both the number of lags and the length of each comparison; no contract of its own |
| `PitchSpec.Previous` | note.js:22-50 | definition: the score lag k is compared against, the `lastCorrelation` of the sweep (1 before lag 0, else lag k - 1's score); no contract of its own |
| `PitchSpec.Good` | note.js:31 | definition: a lag is good when its score is above 0.9 and above the previous lag's score (1 before lag 0); no contract of its own |
| `PitchSpec.FoundGood` | note.js:10-32 | definition: `foundGoodCorrelation` after the lags below n, true once some lag was good; no contract of its own |
| `PitchSpec.ExitsAt` | note.js:31-37 | definition: the sweep stops at a lag that is not good after some earlier lag was good; no contract of its own |
| `PitchSpec.FirstExit` | note.js:23-37 | the lag where the sweep stops: it is not good while an earlier lag was, and no earlier lag stops the sweep; or no lag stops it |
| `PitchSpec.AbsDiffSumAtLagZero` | note.js:26-28 | at lag 0 every compared pair is equal, so the sum is 0 |
| `PitchSpec.ScoreAtLagZero` | note.js:26-30 | lag 0 scores exactly 1 |
| `PitchSpec.SweepReadsInBounds` | note.js:26-27 | with both `i` and `offset` below `floor(SIZE/2)`, `i + offset <= SIZE - 2` |
| `PitchSpec.SweepStep` | note.js:31-37 | a lag that does not stop the sweep sets `foundGoodCorrelation` exactly when it is good or one before it was |
| `PitchSpec.FirstLagsNeverGood` | note.js:22-31 | neither lag 0 nor lag 1 can pass the strict rising test, so neither starts a good run |
| `PitchSpec.Best` | note.js:7-36 | the tracked pair is the initial (0, -1) or a good lag already scanned with its score, so `best_correlation` is 0 or above 0.9 |
| `PitchSpec.RunIsRising` | note.js:31-37 | until the sweep stops, every lag after a good lag is good and scores strictly higher |
| `PitchSpec.BestIsLastOfRun` | note.js:31-36 | until the sweep stops, `best_offset` and `best_correlation` are the last scanned lag and its score once a lag was good, and (-1, 0) before |
| `PitchSpec.ExitFollowsRisingRun` | note.js:37-47 | at the early exit `best_offset == offset - 1 >= 2`, that lag is good and its score is above 0.9 |
| `PitchSpec.FallbackAfterRunToLastLag` | note.js:52-54 | a full sweep that ends with `best_correlation > 0.01` ended in a good run reaching the last lag, which is `best_offset`, with at least 3 lags |
| `PitchSpec.Interpolated` | note.js:47-48 | the refined answer is never the `NoPitch` case |
| `PitchSpec.EstimatedPitch` | note.js:4-58 | definition: the reference answer the procedure is proved to return; its well-formedness needs `ExitFollowsRisingRun` for the neighbour reads and the divisor; its properties are the lemmas below |
| `PitchSpec.FallbackOutcome` | note.js:52-56 | after a full sweep the answer is `sampleRate / (floor(SIZE/2) - 1)` (positive for a positive rate) when the best clears 0.01, else `-1` |
| `PitchSpec.EarlyExitInterpolates` | note.js:44-48 | after an early exit at lag k the answer is the interpolation around lag k - 1 from the scores at k - 2, k - 1, k, with k >= 3 and divisor above 0.9 |
| `PitchSpec.NoPitchIffSilentOrNoGoodLag` | note.js:18-56 | the answer is `NoPitch` (a `-1` from lines 19 or 56) if and only if the window is silent or no lag is good |
| `PitchSpec.ShortWindowGivesNoPitch` | note.js:5-56 | every window of fewer than 6 samples gives `NoPitch` |
| `PitchSpec.InterpolationCanYieldSentinel` | note.js:47-48 | the window `[0, 0.5, 0, 0.5, 0, 0.5, 8.5, 0]` at sample rate 13 stops at lag 3 and interpolates to the frequency `-1`, the same number as the "no pitch" sentinel |
| `AutoCorrelation.SumOfSquares` | note.js:13-16 | the accumulator loop computes the window's energy |
| `AutoCorrelation.LagScore` | note.js:24-29 | the inner loop computes the lag's score, which is 1 at lag 0 |
| `AutoCorrelation.RecordScore` | note.js:24-30 | stores the lag's score at index `offset` of `correlations` and changes no other entry |
| `AutoCorrelation.InterpolatePeak` | note.js:47-48 | reading only the written scores at `best_offset - 1`, `best_offset` and `best_offset + 1`, the early exit returns the reference answer |
| `AutoCorrelation.FallbackPitch` | note.js:52-56 | the end of a full sweep returns the reference answer |
| `AutoCorrelation.Sweep` | note.js:22-56 | returns the reference answer; scans lags up to and including the first lag that is not good after a good one (all lags if none); on return `correlations` holds the score of every scanned lag at its index and its initial value at every other index |
| `AutoCorrelation.AutoCorrelate` | note.js:4-58 | returns the reference answer, never writes the window, gives `NoPitch` with an empty `scanned` when the window is silent, and otherwise gives a `scanned` that runs up to and including the stopping lag (all lags if none); `scanned` is a ghost output, and that it equals the contents of the local `correlations` is stated by `Sweep`, not by this contract |

## Left out

- `getNote`, `getStandardFrequency` and `getCents` (note.js:60-71) use
  logarithms and powers of 2, which have no exact counterpart over reals.
- `init`, `streamReceived` and `detectFreq` (note.js:102-204) are Web Audio
  capture, animation frames, canvas drawing and display history. They are I/O
  and UI.
- Floating point is not modelled: rounding, and NaN or infinite samples.
  `DivideByZero` does not say whether the source produces +Infinity,
  -Infinity or NaN.
- How close the answer is to the true pitch of a signal is not modelled. That
  is empirical signal behaviour, not something the code decides.
- Nothing is claimed about the sign or size of the final divisor
  `best_offset + 8*shift`. The source does not constrain it.
- `PitchSpec.NoPitchIffSilentOrNoGoodLag`: the lemma is about the model's
  `NoPitch`. The number note.js returns is weaker: an interpolated answer can
  be any real, including negative ones and exactly `-1`, and a caller cannot
  tell that apart from the sentinel. `InterpolationCanYieldSentinel` gives a
  window where this happens. The model keeps the two apart and does not
  correct the source, because note.js states no intended range for the
  interpolated frequency.
- `MIN_SAMPLES` is the constant 0. The source declares it as set elsewhere,
  but nothing in note.js assigns it.
