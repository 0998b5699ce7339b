/** One cycle of the program's processing loop (app.py): take a one-second
    chunk from the generator, reduce it to relative band powers, smooth them
    and classify the smoothed vector. The endless loop, the pause between
    cycles and the display are not part of this model. */
module Pipeline {
  import opened RealArith
  import opened SpectralBands
  import opened MoodClassifier
  import opened Smoothing
  import opened EegSimulator

  /** Sampling rate in Hz and analysis window in samples (`FS`, `WINDOW_SIZE`). */
  const SamplingRate: real := 128.0
  const WindowSize: nat := 128

  /** The chunk duration the loop asks for: WINDOW_SIZE / FS seconds. */
  const WindowDuration: real := (WindowSize as real) / SamplingRate

  function ToSeq(v: BandVector): (s: seq<real>)
    ensures |s| == 3
  {
    [v.alpha, v.beta, v.gamma]
  }

  function FromSeq(s: seq<real>): (v: BandVector)
    requires |s| == 3
    ensures ToSeq(v) == s
  {
    BandVector(s[0], s[1], s[2])
  }

  /** The smoother is fresh, or holds a three-band vector of ratios. */
  predicate HoldsRatios(sm: Smoother) {
    sm.ema.Some? ==> |sm.ema.value| == 3 && IsRatioVector(FromSeq(sm.ema.value))
  }

  /** What one cycle produces besides the new smoother: the smoothed
      features and the mood derived from them. */
  datatype Observation = Observation(smoother: Smoother, features: BandVector, mood: Mood)

  /** Smooth a band vector and classify the result with the default
      thresholds. With a mixing coefficient in [0, 1], a smoother holding
      ratios keeps holding ratios. */
  function SmoothAndClassify(sm: Smoother, bands: BandVector): (r: Observation)
    requires sm.ema.Some? ==> |sm.ema.value| == 3
    ensures r.smoother.alpha == sm.alpha
    ensures r.smoother.ema == Some(ToSeq(r.features))
    ensures sm.ema.None? ==> r.features == bands
    ensures sm.ema.Some? ==> ToSeq(r.features) == Blend(sm.alpha, ToSeq(bands), sm.ema.value)
    ensures r.mood == Classify(r.features, DefaultAlphaThresh, DefaultBetaThresh)
    ensures 0.0 <= sm.alpha <= 1.0 && HoldsRatios(sm) && IsRatioVector(bands) ==>
              IsRatioVector(r.features)
  {
    var u := Update(sm, ToSeq(bands));
    var features := FromSeq(u.1);
    assert 0.0 <= sm.alpha <= 1.0 && HoldsRatios(sm) && IsRatioVector(bands) ==>
             IsRatioVector(features) by {
      if 0.0 <= sm.alpha <= 1.0 && HoldsRatios(sm) && IsRatioVector(bands) && sm.ema.Some? {
        BlendKeepsRatios(sm.alpha, FromSeq(sm.ema.value), bands, features);
      }
    }
    Observation(u.0, features, Classify(features, DefaultAlphaThresh, DefaultBetaThresh))
  }

  /** A convex combination of two ratio vectors is a ratio vector. */
  lemma BlendKeepsRatios(alpha: real, e: BandVector, v: BandVector, z: BandVector)
    requires 0.0 <= alpha <= 1.0
    requires IsRatioVector(e) && IsRatioVector(v)
    requires ToSeq(z) == Blend(alpha, ToSeq(v), ToSeq(e))
    ensures IsRatioVector(z)
  {
    var b := Blend(alpha, ToSeq(v), ToSeq(e));
    assert b[0] == z.alpha && b[1] == z.beta && b[2] == z.gamma;
    ConvexStep(alpha, e.alpha, v.alpha, z.alpha);
    ConvexStep(alpha, e.beta, v.beta, z.beta);
    ConvexStep(alpha, e.gamma, v.gamma, z.gamma);
    Distribute(alpha, v.alpha - e.alpha, v.beta - e.beta, v.gamma - e.gamma);
    ConvexStep(alpha, e.Total(), v.Total(), z.Total());
    BetweenRatios(e, v, z);
  }

  /** z = x + alpha*(y - x) with alpha in [0, 1] lies between x and y. */
  lemma ConvexStep(alpha: real, x: real, y: real, z: real)
    requires 0.0 <= alpha <= 1.0
    requires z - x == alpha * (y - x)
    ensures Between(x, y, z)
  {
    ScaleBetween(alpha, y - x);
  }

  /** A vector whose components and total each lie between those of two ratio
      vectors is a ratio vector. */
  lemma BetweenRatios(e: BandVector, v: BandVector, z: BandVector)
    requires IsRatioVector(e) && IsRatioVector(v)
    requires Between(e.alpha, v.alpha, z.alpha)
    requires Between(e.beta, v.beta, z.beta)
    requires Between(e.gamma, v.gamma, z.gamma)
    requires Between(e.Total(), v.Total(), z.Total())
    ensures IsRatioVector(z)
  {
  }

  lemma Distribute(c: real, x: real, y: real, w: real)
    ensures c * x + c * y + c * w == c * (x + y + w)
  {
  }

  /** The smoother after a series of band observations. */
  function SmoothAll(sm: Smoother, observations: seq<BandVector>): (r: Smoother)
    requires sm.ema.Some? ==> |sm.ema.value| == 3
    ensures r.alpha == sm.alpha
    ensures r.ema.Some? ==> |r.ema.value| == 3
    decreases |observations|
  {
    if |observations| == 0 then sm
    else
      var last := |observations| - 1;
      SmoothAndClassify(SmoothAll(sm, observations[..last]), observations[last]).smoother
  }

  /** Fed only ratio vectors, as the band analysis produces, a smoother with
      a mixing coefficient in [0, 1] holds a ratio vector forever: every
      smoothed feature is non-negative and the three sum to less than 1. */
  lemma {:induction false} SmoothingKeepsRatios(sm: Smoother, observations: seq<BandVector>)
    requires sm.ema.Some? ==> |sm.ema.value| == 3
    requires 0.0 <= sm.alpha <= 1.0
    requires HoldsRatios(sm)
    requires forall i :: 0 <= i < |observations| ==> IsRatioVector(observations[i])
    ensures HoldsRatios(SmoothAll(sm, observations))
    decreases |observations|
  {
    if |observations| > 0 {
      var last := |observations| - 1;
      SmoothingKeepsRatios(sm, observations[..last]);
      var before := SmoothAll(sm, observations[..last]);
      var r := SmoothAndClassify(before, observations[last]);
      assert FromSeq(ToSeq(r.features)) == r.features;
    }
  }

  /** With the loop's constants a chunk has 128 samples and spectrum bin k
      sits at exactly k Hz. */
  lemma DefaultWindowGrid(k: nat)
    ensures WindowDuration == 1.0
    ensures SampleCount(SamplingRate, WindowDuration) == WindowSize
    ensures SpectrumLength(WindowSize) == 65
    ensures BinFrequency(k, WindowSize, SamplingRate) == k as real
  {
  }

  /** Generator and smoother carried from one cycle to the next. */
  datatype PipelineState = PipelineState(generator: Simulator, smoother: Smoother)

  /** The state `main` builds before its loop: a generator at FS Hz and a
      smoother with the default mixing coefficient. It meets every
      requirement of Cycle, so the loop can start from it. */
  function Start(): (st: PipelineState)
    ensures st.generator.fs == SamplingRate && st.generator.t == 0.0 && !st.generator.blinkPending
    ensures st.smoother.alpha == DefaultAlpha && st.smoother.ema.None?
    ensures 0.0 <= st.smoother.alpha <= 1.0 && HoldsRatios(st.smoother)
  {
    PipelineState(NewSimulator(SamplingRate), NewSmoother(DefaultAlpha))
  }

  datatype CycleOutput = CycleOutput(state: PipelineState, features: BandVector, mood: Mood)

  /** One pass of the loop body. `ps` is the power spectrum of the chunk the
      generator produces, which has 128 samples. */
  function Cycle(st: PipelineState, draws: Draws, bell: real -> real, ps: seq<real>): (r: CycleOutput)
    requires st.generator.fs == SamplingRate
    requires st.smoother.ema.Some? ==> |st.smoother.ema.value| == 3
    requires |ps| == SpectrumLength(WindowSize) && NonNegative(ps)
    ensures r.state.generator.fs == SamplingRate
    ensures r.state.smoother.alpha == st.smoother.alpha
    ensures r.state.generator.t == st.generator.t + 1.0
    ensures !r.state.generator.blinkPending
    ensures r.state.smoother.ema == Some(ToSeq(r.features))
    ensures r.mood == Classify(r.features, DefaultAlphaThresh, DefaultBetaThresh)
    ensures st.smoother.ema.None? ==>
              r.features == RelativeBands(GetSamples(st.generator, WindowDuration, draws, bell).samples,
                                          SamplingRate, ps)
    ensures st.smoother.ema.Some? ==>
              ToSeq(r.features)
                == Blend(st.smoother.alpha,
                         ToSeq(RelativeBands(GetSamples(st.generator, WindowDuration, draws, bell).samples,
                                             SamplingRate, ps)),
                         st.smoother.ema.value)
    ensures 0.0 <= st.smoother.alpha <= 1.0 && HoldsRatios(st.smoother) ==> IsRatioVector(r.features)
  {
    DefaultWindowGrid(0);
    var chunk := GetSamples(st.generator, WindowDuration, draws, bell);
    var bands := RelativeBands(chunk.samples, SamplingRate, ps);
    var o := SmoothAndClassify(st.smoother, bands);
    CycleOutput(PipelineState(chunk.next, o.smoother), o.features, o.mood)
  }
}
