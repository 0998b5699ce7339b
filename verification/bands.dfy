/** Relative band power (`compute_relative_bands_local` of app.py). The
    Fourier transform is abstract: the caller supplies the one-sided power
    spectrum `ps` of the signal, one non-negative value per bin of the real-FFT
    frequency grid. Bin k of an n-sample signal taken at fs Hz sits at
    k*fs/n Hz, for k in 0..n/2. */
module SpectralBands {
  import opened RealArith

  /** Guard added to the total band energy before dividing by it. */
  const Epsilon: real := 0.000000000001

  /** A closed frequency interval [lo, hi] in Hz. */
  datatype Band = Band(lo: real, hi: real)

  const AlphaBand: Band := Band(8.0, 12.0)
  const BetaBand: Band := Band(13.0, 30.0)
  const GammaBand: Band := Band(30.0, 45.0)

  /** An (alpha, beta, gamma) triple: absolute band energies or their ratios. */
  datatype BandVector = BandVector(alpha: real, beta: real, gamma: real) {
    function Total(): real {
      alpha + beta + gamma
    }

    /** Every component multiplied by c. */
    function Scaled(c: real): BandVector {
      BandVector(c * alpha, c * beta, c * gamma)
    }
  }

  const ZeroBands: BandVector := BandVector(0.0, 0.0, 0.0)

  /** Every component is non-negative and the three add up to less than 1. */
  predicate IsRatioVector(v: BandVector) {
    0.0 <= v.alpha && 0.0 <= v.beta && 0.0 <= v.gamma && v.Total() < 1.0
  }

  /** Number of bins of the one-sided spectrum of an n-sample real signal. */
  function SpectrumLength(n: nat): nat {
    n / 2 + 1
  }

  /** Frequency of bin k on the real-FFT grid: k cycles per n samples. */
  function BinFrequency(k: nat, n: nat, fs: real): (f: real)
    requires n > 0 && fs > 0.0
    ensures f >= 0.0
    ensures f * (n as real) == (k as real) * fs
  {
    (k as real) * fs / (n as real)
  }

  predicate InBand(f: real, b: Band) {
    b.lo <= f <= b.hi
  }

  /** Power of bin k if its frequency is inside the band, else 0. */
  function BinContribution(ps: seq<real>, k: nat, n: nat, fs: real, b: Band): real
    requires k < |ps| && n > 0 && fs > 0.0
  {
    if InBand(BinFrequency(k, n, fs), b) then ps[k] else 0.0
  }

  /** Sum of the powers of the bins whose frequency lies in the band. */
  function BandEnergy(ps: seq<real>, n: nat, fs: real, b: Band): (e: real)
    requires n > 0 && fs > 0.0
    ensures NonNegative(ps) ==> 0.0 <= e <= Sum(ps)
    decreases |ps|
  {
    if |ps| == 0 then 0.0
    else
      var k := |ps| - 1;
      assert NonNegative(ps) ==> NonNegative(ps[..k]);
      BandEnergy(ps[..k], n, fs, b) + BinContribution(ps, k, n, fs, b)
  }

  /** Raising the power of one bin by d raises a band's energy by d exactly
      when that bin's frequency is in the band, and leaves it unchanged
      otherwise: the energy counts precisely the in-band bins. */
  lemma {:induction false} BandEnergyPointUpdate(ps: seq<real>, n: nat, fs: real, b: Band, k: nat, d: real)
    requires n > 0 && fs > 0.0
    requires k < |ps|
    ensures BandEnergy(ps[k := ps[k] + d], n, fs, b)
              == BandEnergy(ps, n, fs, b) + (if InBand(BinFrequency(k, n, fs), b) then d else 0.0)
    decreases |ps|
  {
    var qs := ps[k := ps[k] + d];
    var last := |ps| - 1;
    if k == last {
      assert qs[..last] == ps[..last];
    } else {
      assert qs[..last] == ps[..last][k := ps[k] + d];
      BandEnergyPointUpdate(ps[..last], n, fs, b, k, d);
      assert BinContribution(qs, last, n, fs, b) == BinContribution(ps, last, n, fs, b);
    }
  }

  /** Two spectra that agree on every in-band bin have the same band energy,
      whatever they hold outside the band. */
  lemma {:induction false} BandEnergyIgnoresOutside(ps: seq<real>, qs: seq<real>, n: nat, fs: real, b: Band)
    requires n > 0 && fs > 0.0
    requires |ps| == |qs|
    requires forall k :: 0 <= k < |ps| && InBand(BinFrequency(k, n, fs), b) ==> ps[k] == qs[k]
    ensures BandEnergy(ps, n, fs, b) == BandEnergy(qs, n, fs, b)
    decreases |ps|
  {
    if |ps| > 0 {
      var last := |ps| - 1;
      BandEnergyIgnoresOutside(ps[..last], qs[..last], n, fs, b);
      assert BinContribution(ps, last, n, fs, b) == BinContribution(qs, last, n, fs, b);
    }
  }

  /** A spectrum of `len` bins with power p at bin k and nothing elsewhere. */
  function Tone(len: nat, k: nat, p: real): (ps: seq<real>)
    ensures |ps| == len
    ensures forall j :: 0 <= j < len ==> ps[j] == (if j == k then p else 0.0)
  {
    seq(len, j => if j == k then p else 0.0)
  }

  /** A tone's energy in a band is its power if its bin is in the band, else 0. */
  lemma ToneEnergy(len: nat, k: nat, p: real, n: nat, fs: real, b: Band)
    requires n > 0 && fs > 0.0
    requires k < len
    ensures BandEnergy(Tone(len, k, p), n, fs, b)
              == (if InBand(BinFrequency(k, n, fs), b) then p else 0.0)
  {
    var zeros := Tone(len, k, 0.0);
    assert zeros[k := zeros[k] + p] == Tone(len, k, p);
    BandEnergyPointUpdate(zeros, n, fs, b, k, p);
    assert NonNegative(zeros);
    SumZero(zeros);
  }

  lemma {:induction false} SumZero(s: seq<real>)
    requires forall j :: 0 <= j < |s| ==> s[j] == 0.0
    ensures Sum(s) == 0.0
    decreases |s|
  {
    if |s| > 0 {
      SumZero(s[..|s| - 1]);
    }
  }

  /** The three absolute band energies of a spectrum. */
  function Energies(ps: seq<real>, n: nat, fs: real): (e: BandVector)
    requires n > 0 && fs > 0.0
    ensures NonNegative(ps) ==> 0.0 <= e.alpha && 0.0 <= e.beta && 0.0 <= e.gamma
  {
    BandVector(BandEnergy(ps, n, fs, AlphaBand), BandEnergy(ps, n, fs, BetaBand),
               BandEnergy(ps, n, fs, GammaBand))
  }

  /** The relative band powers of a signal `sig` sampled at `fs` Hz whose
      one-sided power spectrum is `ps`. An empty signal yields (0, 0, 0)
      whatever `ps` holds; otherwise each band energy is divided by the sum of
      the three plus Epsilon, so the ratios are in [0, 1) and sum to
      S / (S + Epsilon) where S is the total band energy. */
  function RelativeBands(sig: seq<real>, fs: real, ps: seq<real>): (r: BandVector)
    requires fs > 0.0
    requires |sig| > 0 ==> |ps| == SpectrumLength(|sig|) && NonNegative(ps)
    ensures |sig| == 0 ==> r == ZeroBands
    ensures IsRatioVector(r)
    ensures |sig| > 0 ==>
              var s := Energies(ps, |sig|, fs).Total();
              r.Total() == s / (s + Epsilon)
    ensures r.Total() == 0.0 <==> |sig| == 0 || Energies(ps, |sig|, fs) == ZeroBands
  {
    if |sig| == 0 then ZeroBands
    else
      var e := Energies(ps, |sig|, fs);
      var total := e.Total() + Epsilon;
      var r := BandVector(e.alpha / total, e.beta / total, e.gamma / total);
      RatioFacts(e.alpha, e.beta, e.gamma, r);
      r
  }

  /** Arithmetic behind RelativeBands: dividing three non-negative energies by
      their sum plus Epsilon. */
  lemma RatioFacts(a: real, b: real, g: real, r: BandVector)
    requires 0.0 <= a && 0.0 <= b && 0.0 <= g
    requires r == BandVector(a / (a + b + g + Epsilon), b / (a + b + g + Epsilon), g / (a + b + g + Epsilon))
    ensures IsRatioVector(r)
    ensures r.Total() == (a + b + g) / (a + b + g + Epsilon)
    ensures r.Total() == 0.0 <==> a == 0.0 && b == 0.0 && g == 0.0
  {
    var t := a + b + g + Epsilon;
    DivSum(a, b, g, t);
    DivUnit(a, t);
    DivUnit(b, t);
    DivUnit(g, t);
    DivUnit(a + b + g, t);
  }

  lemma DivSum(a: real, b: real, g: real, t: real)
    requires t > 0.0
    ensures a / t + b / t + g / t == (a + b + g) / t
  {
  }

  /** For 0 <= x < t, x/t is in [0, 1) and is 0 exactly when x is. */
  lemma DivUnit(x: real, t: real)
    requires 0.0 <= x < t
    ensures 0.0 <= x / t < 1.0
    ensures x / t == 0.0 <==> x == 0.0
  {
    assert (x / t) * t == x;
    if x / t >= 1.0 {
      MulMono(t, 1.0, x / t);
    }
  }

  /** Every bin of the one-sided spectrum lies between 0 Hz and the Nyquist
      frequency fs/2. */
  lemma BinsBelowNyquist(k: nat, n: nat, fs: real)
    requires n > 0 && fs > 0.0
    requires k < SpectrumLength(n)
    ensures 0.0 <= BinFrequency(k, n, fs) <= fs / 2.0
  {
    var f := BinFrequency(k, n, fs);
    assert 2 * k <= n;
    assert (2 * k) as real <= n as real;
    MulMono(fs, (2 * k) as real, n as real);
    assert (f * 2.0) * (n as real) <= fs * (n as real);
    if f * 2.0 > fs {
      MulStrict(n as real, fs, f * 2.0);
    }
  }

  /** The beta and gamma bands share exactly one frequency, 30 Hz. */
  lemma BetaGammaOverlap(f: real)
    ensures InBand(f, BetaBand) && InBand(f, GammaBand) <==> f == 30.0
  {
  }

  /** Frequencies strictly between 12 and 13 Hz belong to no band. */
  lemma GapBetweenAlphaAndBeta(f: real)
    requires 12.0 < f < 13.0
    ensures !InBand(f, AlphaBand) && !InBand(f, BetaBand) && !InBand(f, GammaBand)
  {
  }

  /** With 128 samples at 128 Hz bin k sits at k Hz, so a pure 30 Hz tone is
      counted in both beta and gamma and its two ratios are equal and
      positive. */
  lemma ThirtyHertzToneCountsTwice(sig: seq<real>, p: real)
    requires |sig| == 128 && p > 0.0
    ensures Energies(Tone(65, 30, p), 128, 128.0) == BandVector(0.0, p, p)
    ensures var r := RelativeBands(sig, 128.0, Tone(65, 30, p));
            r.alpha == 0.0 && r.beta == r.gamma && r.beta > 0.0
  {
    assert BinFrequency(30, 128, 128.0) == 30.0;
    ToneEnergy(65, 30, p, 128, 128.0, AlphaBand);
    ToneEnergy(65, 30, p, 128, 128.0, BetaBand);
    ToneEnergy(65, 30, p, 128, 128.0, GammaBand);
    DivUnit(p, p + p + Epsilon);
  }

  /** With 128 samples at 128 Hz the simulator's three rhythms, 10, 20 and
      40 Hz, each land in exactly one band: alpha, beta and gamma in turn. */
  lemma RhythmTonesLandInTheirBands(p: real)
    ensures Energies(Tone(65, 10, p), 128, 128.0) == BandVector(p, 0.0, 0.0)
    ensures Energies(Tone(65, 20, p), 128, 128.0) == BandVector(0.0, p, 0.0)
    ensures Energies(Tone(65, 40, p), 128, 128.0) == BandVector(0.0, 0.0, p)
  {
    assert BinFrequency(10, 128, 128.0) == 10.0;
    assert BinFrequency(20, 128, 128.0) == 20.0;
    assert BinFrequency(40, 128, 128.0) == 40.0;
    ToneEnergy(65, 10, p, 128, 128.0, AlphaBand);
    ToneEnergy(65, 10, p, 128, 128.0, BetaBand);
    ToneEnergy(65, 10, p, 128, 128.0, GammaBand);
    ToneEnergy(65, 20, p, 128, 128.0, AlphaBand);
    ToneEnergy(65, 20, p, 128, 128.0, BetaBand);
    ToneEnergy(65, 20, p, 128, 128.0, GammaBand);
    ToneEnergy(65, 40, p, 128, 128.0, AlphaBand);
    ToneEnergy(65, 40, p, 128, 128.0, BetaBand);
    ToneEnergy(65, 40, p, 128, 128.0, GammaBand);
  }

  /** With 256 samples at 128 Hz bin 25 sits at 12.5 Hz: a non-empty signal
      whose power is all there has zero relative power in every band, so the
      ratios of a non-empty signal need not sum to nearly 1. */
  lemma TwelveAndAHalfHertzToneCountsNowhere(sig: seq<real>, p: real)
    requires |sig| == 256 && p > 0.0
    ensures Energies(Tone(129, 25, p), 256, 128.0) == ZeroBands
    ensures RelativeBands(sig, 128.0, Tone(129, 25, p)) == ZeroBands
  {
    assert BinFrequency(25, 256, 128.0) == 12.5;
    ToneEnergy(129, 25, p, 256, 128.0, AlphaBand);
    ToneEnergy(129, 25, p, 256, 128.0, BetaBand);
    ToneEnergy(129, 25, p, 256, 128.0, GammaBand);
    var r := RelativeBands(sig, 128.0, Tone(129, 25, p));
    assert r.Total() == 0.0;
  }

  /** When some band holds energy S > 0, the ratios fall short of 1 by
      exactly Epsilon / (S + Epsilon), which is less than Epsilon / S. */
  lemma RatiosNearlySumToOne(sig: seq<real>, fs: real, ps: seq<real>)
    requires fs > 0.0
    requires |sig| > 0 && |ps| == SpectrumLength(|sig|) && NonNegative(ps)
    requires Energies(ps, |sig|, fs).Total() > 0.0
    ensures var s := Energies(ps, |sig|, fs).Total();
            1.0 - RelativeBands(sig, fs, ps).Total() == Epsilon / (s + Epsilon) < Epsilon / s
  {
    var s := Energies(ps, |sig|, fs).Total();
    ShortfallFromOne(s);
  }

  lemma ShortfallFromOne(s: real)
    requires s > 0.0
    ensures 1.0 - s / (s + Epsilon) == Epsilon / (s + Epsilon) < Epsilon / s
  {
    var t := s + Epsilon;
    assert (s / t) * t == s;
    assert (Epsilon / t) * t == Epsilon;
    assert 1.0 - s / t == Epsilon / t;
    assert Epsilon / t < Epsilon / s by {
      assert (Epsilon / s) * s == Epsilon;
      if Epsilon / t >= Epsilon / s {
        MulMono(Epsilon / s, s, t);
        MulMono(t, Epsilon / s, Epsilon / t);
      }
    }
  }

  /** Normalising keeps the order of the bands: one ratio is at most another
      exactly when its energy is. */
  lemma RatiosKeepEnergyOrder(sig: seq<real>, fs: real, ps: seq<real>)
    requires fs > 0.0
    requires |sig| > 0 && |ps| == SpectrumLength(|sig|) && NonNegative(ps)
    ensures var e := Energies(ps, |sig|, fs);
            var r := RelativeBands(sig, fs, ps);
            && (r.alpha <= r.beta <==> e.alpha <= e.beta)
            && (r.beta <= r.gamma <==> e.beta <= e.gamma)
            && (r.alpha <= r.gamma <==> e.alpha <= e.gamma)
  {
    var e := Energies(ps, |sig|, fs);
    var t := e.Total() + Epsilon;
    DivOrder(e.alpha, e.beta, t);
    DivOrder(e.beta, e.gamma, t);
    DivOrder(e.alpha, e.gamma, t);
  }

  /** The ratios are the band energies scaled by one common positive factor,
      1 / (S + Epsilon). */
  lemma RatiosScaleEnergies(sig: seq<real>, fs: real, ps: seq<real>)
    requires fs > 0.0
    requires |sig| > 0 && |ps| == SpectrumLength(|sig|) && NonNegative(ps)
    ensures 1.0 / (Energies(ps, |sig|, fs).Total() + Epsilon) > 0.0
    ensures RelativeBands(sig, fs, ps)
              == Energies(ps, |sig|, fs).Scaled(1.0 / (Energies(ps, |sig|, fs).Total() + Epsilon))
  {
    var e := Energies(ps, |sig|, fs);
    ScaleTriple(e, e.Total() + Epsilon);
  }

  lemma ScaleTriple(e: BandVector, t: real)
    requires t > 0.0
    ensures 1.0 / t > 0.0
    ensures e.Scaled(1.0 / t) == BandVector(e.alpha / t, e.beta / t, e.gamma / t)
  {
    ScaleByInverse(e.alpha, t);
    ScaleByInverse(e.beta, t);
    ScaleByInverse(e.gamma, t);
  }

  lemma ScaleByInverse(x: real, t: real)
    requires t > 0.0
    ensures 1.0 / t > 0.0 && (1.0 / t) * x == x / t
  {
  }

  lemma DivOrder(x: real, y: real, t: real)
    requires t > 0.0
    ensures x / t <= y / t <==> x <= y
  {
    assert (x / t) * t == x;
    assert (y / t) * t == y;
  }
}
