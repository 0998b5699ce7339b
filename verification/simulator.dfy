/** The bookkeeping of `EEGSimulator` (eeg_simulator.py): the time base, the
    one-shot blink flag, the sample count of a chunk and the index arithmetic
    that places a blink inside it. The waveform itself is abstract: the
    sinusoids with their random phases, the Gaussian noise, the random sign
    draw and the exponential bell are supplied by the caller. */
module EegSimulator {
  import opened RealArith

  /** Peak height of the blink transient. */
  const BlinkAmplitude: real := 25.0

  /** Generator state: sampling rate, sample period, time base, and whether a
      blink waits to be injected into the next chunk. */
  datatype Simulator = Simulator(fs: real, dt: real, t: real, blinkPending: bool)

  /** The random and transcendental inputs of one `get_samples` call:
      `wave` is the sum of the four sinusoids (their phases already drawn) as
      a function of time, `noise(i)` the scaled normal draw for sample i, and
      `signDraw` the uniform draw that picks the blink's sign. */
  datatype Draws = Draws(wave: real -> real, noise: nat -> real, signDraw: real)

  /** The outcome of `get_samples`: the chunk and the generator state after
      it, or the negative sample count that makes the time grid fail. */
  datatype SampleResult =
    | Chunk(next: Simulator, samples: seq<real>)
    | InvalidCount(count: int)

  /** Building a generator: time starts at 0 with no blink pending. The
      source does not check the rate, so a positive rate is required. */
  function NewSimulator(fs: real): (s: Simulator)
    requires fs > 0.0
    ensures s.fs == fs && s.dt * fs == 1.0
    ensures s.t == 0.0 && !s.blinkPending
  {
    Simulator(fs, 1.0 / fs, 0.0, false)
  }

  /** `int(fs * duration)`: the number of samples in a chunk. */
  function SampleCount(fs: real, duration: real): (n: int)
    ensures fs * duration >= 0.0 ==> 0 <= n && n as real <= fs * duration < n as real + 1.0
    ensures fs * duration < 0.0 ==> n <= 0 && n as real - 1.0 < fs * duration <= n as real
  {
    Trunc(fs * duration)
  }

  /** `n` evenly spaced times starting at t0 and stopping short of
      t0 + duration. */
  function TimePoints(t0: real, duration: real, n: nat): (ts: seq<real>)
    ensures |ts| == n
    ensures n > 0 ==> ts[0] == t0
    ensures forall i :: 0 <= i < n - 1 ==> ts[i + 1] - ts[i] == duration / (n as real)
    ensures n > 0 ==> ts[n - 1] + duration / (n as real) == t0 + duration
  {
    var step := if n == 0 then 0.0 else duration / (n as real);
    var ts := seq(n, i requires 0 <= i < n => t0 + (i as real) * step);
    assert forall i :: 0 <= i < n - 1 ==> ts[i + 1] - ts[i] == step by {
      forall i | 0 <= i < n - 1 ensures ts[i + 1] - ts[i] == step {
        NextMultiple(i as real, step);
      }
    }
    assert n > 0 ==> ts[n - 1] + step == t0 + duration by {
      if n > 0 {
        NextMultiple((n - 1) as real, step);
        assert (n as real) * step == duration;
      }
    }
    ts
  }

  lemma NextMultiple(x: real, step: real)
    ensures (x + 1.0) * step - x * step == step
  {
  }

  /** Index of the blink's peak: `int(0.2 * n)`. */
  function BlinkCenter(n: nat): (c: int)
    ensures 0 <= c && 5 * c <= n < 5 * c + 5
    ensures n >= 1 ==> c < n
  {
    Trunc(0.2 * (n as real))
  }

  /** Width of the blink in samples: `max(1, int(0.02 * n))`. */
  function BlinkWidth(n: nat): (w: int)
    ensures w >= 1
    ensures n >= 50 ==> 50 * w <= n < 50 * w + 50
    ensures n < 100 ==> w == 1
  {
    var raw := Trunc(0.02 * (n as real));
    if raw > 1 then raw else 1
  }

  /** `1 if u > 0.5 else -1`. */
  function BlinkSign(u: real): (sign: int)
    ensures sign == 1 || sign == -1
    ensures sign == 1 <==> u > 0.5
  {
    if u > 0.5 then 1 else -1
  }

  /** Sample x of the blink burst: the sign times 25 times the bell curve at
      (x - center) / width. */
  function BurstSample(n: nat, sign: real, bell: real -> real, x: int): real {
    sign * (BlinkAmplitude * bell(((x - BlinkCenter(n)) as real) / (BlinkWidth(n) as real)))
  }

  /** The n burst samples, one per index. */
  function BurstSamples(n: nat, sign: real, bell: real -> real): (burst: seq<real>)
    ensures |burst| == n
    ensures forall x :: 0 <= x < n ==> burst[x] == BurstSample(n, sign, bell, x)
  {
    seq(n, x requires 0 <= x < n => BurstSample(n, sign, bell, x))
  }

  /** The bell curve stays within [0, 1], as exp(-0.5 z^2) does. */
  ghost predicate BellBounded(bell: real -> real) {
    forall z :: 0.0 <= bell(z) <= 1.0
  }

  /** The bell curve is even, as exp(-0.5 z^2) is. */
  ghost predicate BellSymmetric(bell: real -> real) {
    forall z :: bell(-z) == bell(z)
  }

  /** No sample exceeds 25 in magnitude and every sample has the given sign. */
  predicate OneSidedWithin(burst: seq<real>, sign: real) {
    forall x :: 0 <= x < |burst| ==> Abs(burst[x]) <= BlinkAmplitude && sign * burst[x] >= 0.0
  }

  /** Samples at equal distances before and after index c are equal. */
  predicate MirroredAbout(burst: seq<real>, c: int) {
    forall x, y :: 0 <= x < |burst| && 0 <= y < |burst| && x + y == 2 * c ==> burst[x] == burst[y]
  }

  /** The blink burst over an n-sample chunk; `bell(z)` stands for
      exp(-0.5 * z * z). */
  function Blink(n: nat, signDraw: real, bell: real -> real): (burst: seq<real>)
    ensures |burst| == n
    ensures n >= 1 && bell(0.0) == 1.0 ==>
              burst[BlinkCenter(n)] == (BlinkSign(signDraw) as real) * BlinkAmplitude
    ensures BlinkCenter(n) + BlinkWidth(n) < n ==>
              burst[BlinkCenter(n) + BlinkWidth(n)]
                == (BlinkSign(signDraw) as real) * (BlinkAmplitude * bell(1.0))
    ensures BellBounded(bell) ==> OneSidedWithin(burst, BlinkSign(signDraw) as real)
    ensures BellSymmetric(bell) ==> MirroredAbout(burst, BlinkCenter(n))
  {
    var sign := BlinkSign(signDraw) as real;
    var burst := BurstSamples(n, sign, bell);
    OneWidthOut(n, sign, bell);
    assert BellBounded(bell) ==> OneSidedWithin(burst, sign) by {
      if BellBounded(bell) {
        BurstSamplesBounded(n, sign, bell);
      }
    }
    assert BellSymmetric(bell) ==> MirroredAbout(burst, BlinkCenter(n)) by {
      if BellSymmetric(bell) {
        BurstSamplesMirrored(n, sign, bell);
      }
    }
    burst
  }

  lemma BurstSamplesBounded(n: nat, sign: real, bell: real -> real)
    requires sign == 1.0 || sign == -1.0
    requires BellBounded(bell)
    ensures OneSidedWithin(BurstSamples(n, sign, bell), sign)
  {
    var burst := BurstSamples(n, sign, bell);
    forall x | 0 <= x < n
      ensures Abs(burst[x]) <= BlinkAmplitude && sign * burst[x] >= 0.0
    {
      BurstSampleBounds(n, sign, bell, x);
    }
  }

  lemma BurstSamplesMirrored(n: nat, sign: real, bell: real -> real)
    requires BellSymmetric(bell)
    ensures MirroredAbout(BurstSamples(n, sign, bell), BlinkCenter(n))
  {
    var burst := BurstSamples(n, sign, bell);
    forall x, y | 0 <= x < n && 0 <= y < n && x + y == 2 * BlinkCenter(n)
      ensures burst[x] == burst[y]
    {
      MirrorSamples(n, sign, bell, x, y);
    }
  }

  /** With a symmetric bell curve, samples equally far before and after the
      center are equal. */
  lemma MirrorSamples(n: nat, sign: real, bell: real -> real, x: int, y: int)
    requires BellSymmetric(bell)
    requires x + y == 2 * BlinkCenter(n)
    ensures BurstSample(n, sign, bell, x) == BurstSample(n, sign, bell, y)
  {
    var c := BlinkCenter(n);
    var w := BlinkWidth(n) as real;
    assert ((x - c) as real) / w == -(((y - c) as real) / w);
    assert bell(-(((y - c) as real) / w)) == bell(((y - c) as real) / w);
  }

  /** One width past the center the bell curve is evaluated at exactly 1. */
  lemma OneWidthOut(n: nat, sign: real, bell: real -> real)
    ensures BurstSample(n, sign, bell, BlinkCenter(n) + BlinkWidth(n))
              == sign * (BlinkAmplitude * bell(1.0))
  {
    var w := BlinkWidth(n);
    assert ((BlinkCenter(n) + w - BlinkCenter(n)) as real) / (w as real) == 1.0;
  }

  /** With a bell curve bounded by [0, 1], a burst sample is at most 25 in
      magnitude and has the burst's sign. */
  lemma BurstSampleBounds(n: nat, sign: real, bell: real -> real, x: int)
    requires sign == 1.0 || sign == -1.0
    requires BellBounded(bell)
    ensures Abs(BurstSample(n, sign, bell, x)) <= BlinkAmplitude
    ensures sign * BurstSample(n, sign, bell, x) >= 0.0
  {
    var b := bell(((x - BlinkCenter(n)) as real) / (BlinkWidth(n) as real));
    assert 0.0 <= b <= 1.0;
    if sign == 1.0 {
      assert BurstSample(n, sign, bell, x) == BlinkAmplitude * b;
    } else {
      assert BurstSample(n, sign, bell, x) == -(BlinkAmplitude * b);
    }
  }

  /** The chunk before any blink: the waves at each time point plus noise. */
  function CleanChunk(t0: real, duration: real, n: nat, draws: Draws): (sig: seq<real>)
    ensures |sig| == n
  {
    var ts := TimePoints(t0, duration, n);
    seq(n, i requires 0 <= i < n => draws.wave(ts[i]) + draws.noise(i))
  }

  /** `trigger_blink`: marks a blink as pending and changes nothing else. */
  function TriggerBlink(s: Simulator): (r: Simulator)
    ensures r.blinkPending
    ensures r.fs == s.fs && r.dt == s.dt && r.t == s.t
  {
    s.(blinkPending := true)
  }

  /** `get_samples`: a chunk of int(fs * duration) samples; the pending blink,
      if any, is added and consumed; the time base advances by the duration
      whether or not a blink fired. A negative sample count makes the time
      grid fail and leaves the generator untouched. */
  function GetSamples(s: Simulator, duration: real, draws: Draws, bell: real -> real): (r: SampleResult)
    ensures r.Chunk? <==> SampleCount(s.fs, duration) >= 0
    ensures r.InvalidCount? ==> r.count == SampleCount(s.fs, duration) && r.count < 0
    ensures r.Chunk? ==> |r.samples| == SampleCount(s.fs, duration)
    ensures r.Chunk? ==> !r.next.blinkPending
    ensures r.Chunk? ==> r.next.fs == s.fs && r.next.dt == s.dt && r.next.t == s.t + duration
  {
    var n := SampleCount(s.fs, duration);
    if n < 0 then InvalidCount(n)
    else
      var clean := CleanChunk(s.t, duration, n, draws);
      var sig :=
        if s.blinkPending then
          var burst := Blink(n, draws.signDraw, bell);
          seq(n, i requires 0 <= i < n => clean[i] + burst[i])
        else clean;
      Chunk(Simulator(s.fs, s.dt, s.t + duration, false), sig)
  }

  /** Every time point of a chunk lies in the half-open window
      [t0, t0 + duration). */
  lemma TimePointsInWindow(t0: real, duration: real, n: nat)
    requires duration > 0.0
    ensures forall i :: 0 <= i < n ==> t0 <= TimePoints(t0, duration, n)[i] < t0 + duration
  {
    var ts := TimePoints(t0, duration, n);
    if n > 0 {
      var step := duration / (n as real);
      assert step * (n as real) == duration;
      assert step > 0.0;
      forall i | 0 <= i < n ensures t0 <= ts[i] < t0 + duration {
        assert ts[i] == t0 + (i as real) * step;
        MultipleInWindow(i as real, n as real, step, duration);
      }
    }
  }

  lemma MultipleInWindow(i: real, n: real, step: real, d: real)
    requires 0.0 <= i < n && step > 0.0 && step * n == d
    ensures 0.0 <= i * step < d
  {
    MulNonNeg(i, step);
    MulStrict(step, i, n);
  }

  /** The burst rides on the chunk exactly when a blink was pending: with a
      blink pending the chunk is the clean chunk plus the burst, and the
      sample at the blink center moves by exactly the amplitude 25 (given
      bell(0) = 1, as exp(0) = 1); with none pending the chunk is the clean
      chunk. */
  lemma BurstIffPending(s: Simulator, duration: real, draws: Draws, bell: real -> real)
    requires SampleCount(s.fs, duration) >= 0
    ensures var r := GetSamples(s, duration, draws, bell);
            var n := SampleCount(s.fs, duration);
            var clean := CleanChunk(s.t, duration, n, draws);
            var burst := Blink(n, draws.signDraw, bell);
            && (s.blinkPending ==> forall i :: 0 <= i < n ==> r.samples[i] == clean[i] + burst[i])
            && (!s.blinkPending ==> r.samples == clean)
            && (n >= 1 && bell(0.0) == 1.0 ==>
                  (Abs(r.samples[BlinkCenter(n)] - clean[BlinkCenter(n)]) == BlinkAmplitude
                   <==> s.blinkPending))
  {
  }

  /** Triggering twice is the same as triggering once. */
  lemma TriggerIdempotent(s: Simulator)
    ensures TriggerBlink(TriggerBlink(s)) == TriggerBlink(s)
  {
  }

  /** `trigger_blink` called k times in a row. */
  function TriggerTimes(s: Simulator, k: nat): (r: Simulator)
    ensures r.fs == s.fs && r.dt == s.dt && r.t == s.t
    ensures k >= 1 ==> r.blinkPending
    decreases k
  {
    if k == 0 then s else TriggerBlink(TriggerTimes(s, k - 1))
  }

  lemma {:induction false} TriggerTimesIsTriggerOnce(s: Simulator, k: nat)
    requires k >= 1
    ensures TriggerTimes(s, k) == TriggerBlink(s)
    decreases k
  {
    if k > 1 {
      TriggerTimesIsTriggerOnce(s, k - 1);
    }
  }

  /** One-shot blinks: after any positive number of triggers the next chunk
      carries the burst, and the chunk after it, with no new trigger, is
      clean. */
  lemma OneShotBlink(s: Simulator, k: nat, d1: real, draws1: Draws, d2: real, draws2: Draws,
                     bell: real -> real)
    requires k >= 1
    requires SampleCount(s.fs, d1) >= 0 && SampleCount(s.fs, d2) >= 0
    ensures var r1 := GetSamples(TriggerTimes(s, k), d1, draws1, bell);
            var n1 := SampleCount(s.fs, d1);
            && r1.Chunk?
            && (forall i :: 0 <= i < n1 ==>
                  r1.samples[i] == CleanChunk(s.t, d1, n1, draws1)[i] + Blink(n1, draws1.signDraw, bell)[i])
            && var r2 := GetSamples(r1.next, d2, draws2, bell);
               r2.Chunk? && r2.samples == CleanChunk(s.t + d1, d2, SampleCount(s.fs, d2), draws2)
  {
    TriggerTimesIsTriggerOnce(s, k);
    var s1 := TriggerTimes(s, k);
    BurstIffPending(s1, d1, draws1, bell);
    var r1 := GetSamples(s1, d1, draws1, bell);
    BurstIffPending(r1.next, d2, draws2, bell);
  }

  /** The generator after a series of `get_samples` calls with the given
      durations (each with a non-negative sample count). */
  function Run(s: Simulator, durations: seq<real>, draws: seq<Draws>, bell: real -> real): (r: Simulator)
    requires |draws| == |durations|
    requires forall i :: 0 <= i < |durations| ==> SampleCount(s.fs, durations[i]) >= 0
    ensures r.fs == s.fs && r.dt == s.dt
    decreases |durations|
  {
    if |durations| == 0 then s
    else
      var last := |durations| - 1;
      var before := Run(s, durations[..last], draws[..last], bell);
      GetSamples(before, durations[last], draws[last], bell).next
  }

  /** The time base after a series of chunks is the start time plus the sum
      of their durations, and no blink is left pending after at least one
      chunk. */
  lemma {:induction false} RunAdvancesTime(s: Simulator, durations: seq<real>, draws: seq<Draws>,
                                           bell: real -> real)
    requires |draws| == |durations|
    requires forall i :: 0 <= i < |durations| ==> SampleCount(s.fs, durations[i]) >= 0
    ensures Run(s, durations, draws, bell).t == s.t + Sum(durations)
    ensures |durations| > 0 ==> !Run(s, durations, draws, bell).blinkPending
    decreases |durations|
  {
    if |durations| > 0 {
      var last := |durations| - 1;
      RunAdvancesTime(s, durations[..last], draws[..last], bell);
    }
  }

  /** Consecutive chunks abut: chunk k+1 starts where chunk k started plus
      its duration, and chunk k starts at the initial time plus the durations
      of the chunks before it. */
  lemma ChunksAbut(s: Simulator, durations: seq<real>, draws: seq<Draws>, bell: real -> real, k: nat)
    requires |draws| == |durations|
    requires forall i :: 0 <= i < |durations| ==> SampleCount(s.fs, durations[i]) >= 0
    requires k < |durations|
    ensures Run(s, durations[..k], draws[..k], bell).t == s.t + Sum(durations[..k])
    ensures Run(s, durations[..k + 1], draws[..k + 1], bell).t
              == Run(s, durations[..k], draws[..k], bell).t + durations[k]
  {
    RunAdvancesTime(s, durations[..k], draws[..k], bell);
    var ds := durations[..k + 1];
    var dr := draws[..k + 1];
    assert ds[..k] == durations[..k];
    assert dr[..k] == draws[..k];
    assert ds[k] == durations[k];
  }
}
