/** The estimator as the source runs it: an energy loop, a nested sweep that
 *  writes one score per lag into a scratch array, mutable best/last/found
 *  variables, and an early return at the first fall after a good run.
 */
module AutoCorrelation {
  import opened PitchSpec

  /** Sum of squares of the whole window (note.js keeps it in `rms`, unrooted). */
  method SumOfSquares(buf: array<real>) returns (rms: real)
    ensures rms == Energy(buf[..])
    ensures rms >= 0.0
  {
    ghost var s := buf[..];
    rms := 0.0;
    var i := 0;
    while i < buf.Length
      invariant 0 <= i <= buf.Length
      invariant rms == Energy(s[..i])
    {
      assert s[..i + 1][..i] == s[..i];
      rms := rms + buf[i] * buf[i];
      i := i + 1;
    }
    assert s[..buf.Length] == s;
  }

  /** Score of one lag: one minus the mean absolute difference between the
      first half-window and the half-window `offset` samples later. */
  method LagScore(buf: array<real>, offset: nat) returns (correlation: real)
    requires offset < MaxLag(buf.Length)
    ensures correlation == Score(buf[..], offset)
    ensures offset == 0 ==> correlation == 1.0
  {
    var maxSamples := buf.Length / 2;
    ghost var s := buf[..];
    correlation := 0.0;
    var i := 0;
    while i < maxSamples
      invariant 0 <= i <= maxSamples
      invariant correlation == AbsDiffSum(s, offset, i)
    {
      SweepReadsInBounds(buf.Length, i, offset);
      correlation := correlation + Abs(buf[i] - buf[i + offset]);
      i := i + 1;
    }
    correlation := 1.0 - correlation / (maxSamples as real);
    if offset == 0 { ScoreAtLagZero(s); }
  }

  /** Scores lag `offset` and stores the score at its place in `correlations`,
      leaving every other entry as it was. */
  method RecordScore(buf: array<real>, correlations: array<real>, offset: nat) returns (correlation: real)
    requires correlations != buf && offset < correlations.Length == MaxLag(buf.Length)
    modifies correlations
    ensures correlation == Score(buf[..], offset)
    ensures correlations[offset] == correlation
    ensures forall j :: 0 <= j < correlations.Length && j != offset ==> correlations[j] == old(correlations[j])
  {
    correlation := LagScore(buf, offset);
    correlations[offset] := correlation;
  }

  /** Estimates the pitch of window `buf` sampled at `sampleRate`.
      `buf` is only read. `scanned` is the scores of the lags scanned, in lag
      order; `Sweep` states that they are exactly what the scratch array
      `correlations` holds at those lags on return. */
  method AutoCorrelate(buf: array<real>, sampleRate: real) returns (p: Pitch, ghost scanned: seq<real>)
    ensures p == EstimatedPitch(buf[..], sampleRate)
    ensures |scanned| <= MaxLag(buf.Length)
    ensures scanned == Profile(buf[..])[..|scanned|]
    ensures Energy(buf[..]) < SILENCE_THRESHOLD ==> p == NoPitch && |scanned| == 0
    ensures Energy(buf[..]) >= SILENCE_THRESHOLD ==>
      var k := FirstExit(Profile(buf[..]), 0);
      |scanned| == if k < MaxLag(buf.Length) then k + 1 else k
  {
    var correlations := new real[buf.Length / 2];
    var rms := SumOfSquares(buf);
    if rms < SILENCE_THRESHOLD {
      return NoPitch, [];
    }
    p, scanned := Sweep(buf, sampleRate, correlations);
  }

  /** The early exit of the sweep at lag k = FirstExit: refine the best lag
      k - 1 from the scores of its neighbours and turn it into a frequency. */
  method InterpolatePeak(correlations: array<real>, bestOffset: int, sampleRate: real, ghost s: seq<real>)
    returns (p: Pitch)
    requires Energy(s) >= SILENCE_THRESHOLD
    requires FirstExit(Profile(s), 0) < MaxLag(|s|) && bestOffset == FirstExit(Profile(s), 0) - 1
    requires correlations.Length == MaxLag(|s|)
    requires forall j :: 0 <= j <= bestOffset + 1 ==> correlations[j] == Profile(s)[j]
    ensures p == EstimatedPitch(s, sampleRate)
  {
    ghost var c, k := Profile(s), FirstExit(Profile(s), 0);
    EarlyExitInterpolates(s, sampleRate);
    assert correlations[bestOffset - 1] == c[k - 2] && correlations[bestOffset] == c[k - 1];
    var shift := (correlations[bestOffset + 1] - correlations[bestOffset - 1]) / correlations[bestOffset];
    var lag := bestOffset as real + INTERPOLATION_GAIN * shift;
    p := if lag == 0.0 then DivideByZero else Frequency(sampleRate / lag);
  }

  /** The end of a sweep that never stopped early: the sample rate over the
      best lag when its score clears the loose fallback bar, else no pitch. */
  method FallbackPitch(bestCorrelation: real, bestOffset: int, sampleRate: real, ghost s: seq<real>)
    returns (p: Pitch)
    requires Energy(s) >= SILENCE_THRESHOLD
    requires FirstExit(Profile(s), 0) == MaxLag(|s|)
    requires Tracked(bestCorrelation, bestOffset) == Best(Profile(s), MaxLag(|s|))
    ensures p == EstimatedPitch(s, sampleRate)
  {
    FallbackOutcome(s, sampleRate);
    if bestCorrelation > FALLBACK_CORRELATION {
      FallbackAfterRunToLastLag(Profile(s));
      return Frequency(sampleRate / bestOffset as real);
    }
    return NoPitch;
  }

  /** The sweep over lags MIN_SAMPLES .. MaxLag - 1 of a window that is not
      silent: score each lag into `correlations`, follow the rising run of
      good lags, and at the first lag that falls after it interpolate around
      the lag before; after the last lag, fall back on the best lag seen. */
  method Sweep(buf: array<real>, sampleRate: real, correlations: array<real>)
    returns (p: Pitch, ghost scanned: seq<real>)
    requires Energy(buf[..]) >= SILENCE_THRESHOLD
    requires correlations != buf && correlations.Length == MaxLag(buf.Length)
    modifies correlations
    ensures p == EstimatedPitch(buf[..], sampleRate)
    ensures |scanned| <= MaxLag(buf.Length)
    ensures scanned == Profile(buf[..])[..|scanned|]
    ensures var k := FirstExit(Profile(buf[..]), 0);
      |scanned| == if k < MaxLag(buf.Length) then k + 1 else k
    ensures forall j :: 0 <= j < |scanned| ==> correlations[j] == scanned[j]
    ensures forall j :: |scanned| <= j < correlations.Length ==> correlations[j] == old(correlations[j])
  {
    var maxSamples := buf.Length / 2;
    var bestOffset: int := -1;
    var bestCorrelation: real := 0.0;
    var foundGoodCorrelation := false;
    ghost var s := buf[..];
    ghost var c := Profile(s);

    var lastCorrelation: real := 1.0;
    var offset := MIN_SAMPLES;
    while offset < maxSamples
      invariant 0 <= offset <= maxSamples
      invariant buf[..] == s
      invariant forall j :: 0 <= j < offset ==> correlations[j] == c[j]
      invariant forall j :: offset <= j < correlations.Length ==> correlations[j] == old(correlations[j])
      invariant NoExitBefore(c, offset)
      invariant foundGoodCorrelation == FoundGood(c, offset)
      invariant Tracked(bestCorrelation, bestOffset) ==
        if foundGoodCorrelation then Tracked(lastCorrelation, offset - 1) else Untracked
      invariant lastCorrelation == (if offset == 0 then 1.0 else c[offset - 1])
    {
      var correlation := RecordScore(buf, correlations, offset);
      assert Good(c, offset) <==> correlation > GOOD_ENOUGH_CORRELATION && correlation > lastCorrelation;
      if correlation > GOOD_ENOUGH_CORRELATION && correlation > lastCorrelation {
        assert correlation > bestCorrelation;
        foundGoodCorrelation := true;
        if correlation > bestCorrelation {
          bestCorrelation := correlation;
          bestOffset := offset;
        }
      } else if foundGoodCorrelation {
        assert FirstExit(c, 0) == offset by {
          assert ExitsAt(c, offset);
        }
        p := InterpolatePeak(correlations, bestOffset, sampleRate, s);
        return p, c[..offset + 1];
      }
      SweepStep(c, offset);
      lastCorrelation := correlation;
      offset := offset + 1;
    }
    assert FirstExit(c, 0) == maxSamples;
    assert c[..maxSamples] == c;
    BestIsLastOfRun(c, maxSamples);
    p := FallbackPitch(bestCorrelation, bestOffset, sampleRate, s);
    return p, c;
  }
}
