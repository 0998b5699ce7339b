# Signal-to-mood pipeline: a Dafny model

This project models the decision logic of a small biosignal demo. A
simulated single-channel EEG generator (`EEGSimulator`) produces one-second
chunks. `compute_relative_bands_local` turns each chunk into relative alpha,
beta and gamma band powers. `LocalSmoother` smooths that vector with an
exponential moving average, and `classify_mood_local` maps the smoothed
vector to CALM, FOCUS, STRESS or UNKNOWN.

Reals in Dafny are exact, so the model states the intended arithmetic, not
IEEE-754 behaviour. The numerics the code delegates to numpy become inputs
to the model:

- the Fourier transform: `RelativeBands` takes the power spectrum `ps`
  (`abs(rfft(sig))**2`) as an argument, with `n/2 + 1` non-negative bins;
- the four sinusoids with their random phases and the Gaussian noise: a
  `Draws` value holding a waveform `wave: real -> real`, a noise stream
  `noise: nat -> real`, and the uniform draw that picks the blink's sign;
- `exp(-0.5 z^2)`: a `bell: real -> real` argument.

What remains is proved: the index and time arithmetic, the bin selection,
the normalisation, the decision table and the state transitions.

Modules:

- `RealArith`: absolute value, powers, Python's `int()` as truncation
  toward zero (`Trunc`), and sums.
- `Smoothing`: `LocalSmoother`, with `Update`, and `Feed` for repeated
  updates with one observation.
- `SpectralBands`: the real-FFT frequency grid `k*fs/n`, closed-interval band
  energies, and normalisation guarded by epsilon.
- `MoodClassifier`: the ordered first-match rules, checked against a
  reference table interpreter (`FirstMatch`).
- `EegSimulator`: the generator's time base, its one-shot blink flag, the
  sample count, and blink placement.
- `Pipeline`: one pass of the loop body in `main` (chunk, bands, smoothing,
  classification), plus the invariant that the smoothed features stay a
  ratio vector.

Facts about the code that are easy to get wrong:

- `(0.2, 0.2, 0.6)` is FOCUS, not STRESS, and so is `(0.34, 0.33, 0.33)`.
  In both, `b + 0.8*g > 1.25*a` holds (0.68 > 0.25 and 0.594 > 0.425), and
  the FOCUS rule is tried before STRESS.
  `MoodClassifier.DefaultThresholdExamples` proves both outcomes.
- The three ratios of a non-empty chunk do not always sum to nearly 1.
  When no power lands in any band they are `(0, 0, 0)`.
  `TwelveAndAHalfHertzToneCountsNowhere` shows this with a 12.5 Hz tone.
  Otherwise the exact sum is `S/(S + 1e-12)`, where S is the total band
  energy.
- The sample count is `int(fs * duration)`. That truncates toward zero, so
  it neither rounds nor floors: a product in (-1, 0) gives 0 samples and an
  empty chunk. A count below 0 makes `np.linspace` raise, and the model
  returns `InvalidCount` for it.
- The constructor computes `1.0 / fs`, so a rate of 0 fails there with a
  division by zero, while a negative rate is accepted unchecked. The model
  excludes non-positive rates altogether; see the `EegSimulator.NewSimulator`
  line under "## Left out".

## Model

| member | source | states |
|---|---|---|
| `Smoothing.NewSmoother` | app.py:17-19 | A new smoother keeps the given mixing coefficient and holds no average yet. |
| `Smoothing.Blend` | app.py:26 | Blending moves each component toward the observation by the fraction alpha of its gap. Equivalently, the new gap to the observation is (1 - alpha) times the old gap. |
| `Smoothing.Update` | app.py:21-27 | The first update stores and returns the observation unchanged. Later updates return the new retained average, whose gap to the observation is exactly (1 - alpha) times the old gap for any alpha, so each component is alpha*vec + (1 - alpha)*ema. For alpha in [0,1], each component lies between the old average and the observation. |
| `Smoothing.UpdateGapSize` | app.py:26 | For any alpha, the size of a component's gap after an update is the old size times abs(1 - alpha). |
| `Smoothing.FeedFresh` | app.py:23-26 | A fresh smoother fed one vector v any positive number of times holds exactly v. |
| `Smoothing.FeedGap` | app.py:26 | After k updates with the same vector, each gap equals (1 - alpha)^k times the initial gap. |
| `Smoothing.GapShrinks` | app.py:26 | For alpha in [0,1], one update never widens a gap. For alpha in (0,1], it strictly narrows any nonzero gap. |
| `Smoothing.FeedConverges` | app.py:26 | For alpha in [0,1], the gap after k constant updates, times (1 + k*alpha), is at most the initial gap. |
| `Smoothing.FeedWithinTolerance` | app.py:26 | For alpha in (0,1], the average comes strictly within any tolerance once k*alpha*tol reaches the initial gap. So repeated updates converge to the observation. |
| `SpectralBands.BinFrequency` | app.py:35 | Bin k of an n-sample signal at fs Hz has frequency f >= 0 with f*n = k*fs (the grid of `rfftfreq`). |
| `SpectralBands.BinsBelowNyquist` | app.py:35-36 | Every one of the n/2 + 1 spectrum bins lies between 0 Hz and fs/2. |
| `SpectralBands.BandEnergy` | app.py:37-39 | For a non-negative spectrum, a band's energy lies between 0 and the total spectrum power. |
| `SpectralBands.BandEnergyPointUpdate` | app.py:37-39 | Raising one bin by d raises a band's energy by d if that bin's frequency f satisfies lo <= f <= hi (both ends inclusive), and otherwise leaves it unchanged. |
| `SpectralBands.BandEnergyIgnoresOutside` | app.py:37-39 | Spectra that agree on every in-band bin have equal band energy. |
| `SpectralBands.ToneEnergy` | app.py:37-39 | A single-bin spectrum has band energy equal to its power when the bin is in the band, and 0 otherwise. |
| `SpectralBands.Energies` | app.py:40-42 | The three band energies of a non-negative spectrum are non-negative. |
| `SpectralBands.RelativeBands` | app.py:30-44 | An empty signal gives (0,0,0) whatever the spectrum holds. Every result has ratios >= 0 that sum to less than 1. For a non-empty signal the sum is S/(S + 1e-12). The sum is 0 exactly when the signal is empty or all three band energies are 0. |
| `SpectralBands.BetaGammaOverlap` | app.py:41-42 | A frequency is in both beta [13,30] and gamma [30,45] exactly when it is 30 Hz. |
| `SpectralBands.GapBetweenAlphaAndBeta` | app.py:40-42 | Frequencies strictly between 12 and 13 Hz are in no band. |
| `SpectralBands.ThirtyHertzToneCountsTwice` | app.py:35-44 | At 128 samples and 128 Hz, a 30 Hz tone adds its power to both beta and gamma. Its alpha ratio is 0, and its beta and gamma ratios are equal and positive. |
| `SpectralBands.RhythmTonesLandInTheirBands` | app.py:40-42 | At 128 samples and 128 Hz, a tone of power p at 10, 20 or 40 Hz gives band energies (p,0,0), (0,p,0) or (0,0,p). |
| `SpectralBands.TwelveAndAHalfHertzToneCountsNowhere` | app.py:35-44 | At 256 samples and 128 Hz, all power at 12.5 Hz yields (0,0,0) for a non-empty signal. |
| `SpectralBands.RatiosNearlySumToOne` | app.py:43-44 | When the band energy S is positive, the ratios fall short of 1 by exactly 1e-12/(S + 1e-12), which is less than 1e-12/S. |
| `SpectralBands.RatiosKeepEnergyOrder` | app.py:43-44 | One ratio is at most another exactly when its band energy is. |
| `SpectralBands.RatiosScaleEnergies` | app.py:43-44 | For a non-empty chunk, the ratio vector is the energy vector scaled by the single positive factor 1/(S + 1e-12). |
| `MoodClassifier.Classify` | app.py:47-55 | The label is the mood of the first rule that fires in the ordered table CALM, FOCUS, STRESS. If no rule fires, the label is UNKNOWN. |
| `MoodClassifier.WhichRuleFired` | app.py:49-55 | CALM iff a > b*at and a > 1.1g. FOCUS iff CALM fails and (b > a*bt or b + 0.8g > 1.25a). STRESS iff both earlier rules fail and g > 0.5. Otherwise UNKNOWN. |
| `MoodClassifier.CalmShadowsFocus` | app.py:49-52 | (0.35, 0.28, 0.315) meets both the CALM and the FOCUS rule, and is classified CALM because rule order decides. |
| `MoodClassifier.CalmMeansAlphaLargest` | app.py:49-50 | With an alpha threshold of at least 1 and non-negative beta and gamma, CALM implies alpha is strictly the largest band. |
| `MoodClassifier.StressNeedsStrongAlpha` | app.py:51-54 | With beta non-negative, STRESS implies gamma > 0.5 and alpha > 0.32. |
| `MoodClassifier.ScaleKeepsCalmAndFocus` | app.py:49-52 | Scaling the vector by a positive factor changes neither whether the CALM rule fires nor whether the FOCUS rule fires. |
| `MoodClassifier.RulesSeeEnergies` | app.py:43-52 | For a non-empty chunk, the CALM rule fires on the relative band powers exactly when it fires on the absolute band energies. The same holds for the FOCUS rule. |
| `MoodClassifier.LabelsDistinct` | app.py:50-55 | Distinct moods have distinct label strings. |
| `MoodClassifier.DefaultThresholdExamples` | app.py:47-55 | With the 1.2/1.2 defaults, the outcomes are: (0,0,0) UNKNOWN, (0.6,0.2,0.2) CALM, (0.2,0.6,0.2) FOCUS, (0.2,0.2,0.6) FOCUS, (0.34,0.33,0.33) FOCUS, (0.6,0,0.6) STRESS. On the boundaries every comparison is strict, so (0.6,0.5,0), (0.5,0.6,0) and (0.4,0.1,0.5) are all UNKNOWN. |
| `EegSimulator.NewSimulator` | eeg_simulator.py:15-20 | A new generator has the given rate and dt*fs = 1. Time starts at 0 with no blink pending. |
| `EegSimulator.SampleCount` | eeg_simulator.py:26 | `int(fs*duration)` truncates toward zero. For a non-negative product p, the count is the whole number n with n <= p < n + 1. For a negative p, it is the whole number n <= 0 with n - 1 < p <= n, so a product in (-1, 0) gives 0. |
| `EegSimulator.TimePoints` | eeg_simulator.py:27 | The n time points start at t0 and are spaced duration/n apart. The last point plus one step is t0 + duration, where the next chunk starts. |
| `EegSimulator.TimePointsInWindow` | eeg_simulator.py:27 | For a positive duration, every time point lies in [t0, t0 + duration). |
| `EegSimulator.BlinkCenter` | eeg_simulator.py:53 | The center c = int(0.2n) satisfies 5c <= n < 5c + 5, so 0 <= c < n whenever n >= 1. |
| `EegSimulator.BlinkWidth` | eeg_simulator.py:54 | The width w is always >= 1, so the division by it is safe. It is 1 below 100 samples. From 50 samples on, 50w <= n < 50w + 50, that is w = floor(n/50). |
| `EegSimulator.BlinkSign` | eeg_simulator.py:58 | The sign is +1 or -1, and it is +1 exactly when the draw exceeds 0.5. |
| `EegSimulator.Blink` | eeg_simulator.py:51-59 | The burst has one value per sample. At the center it is the sign times 25 when exp(0) = 1. One width past the center it is the sign times 25 times the bell curve at 1. When the bell curve stays within [0, 1], no sample exceeds 25 in magnitude and every sample has the burst's sign. When the bell curve is even, samples equally far before and after the center are equal. |
| `EegSimulator.TriggerBlink` | eeg_simulator.py:47-49 | Triggering sets the pending flag and leaves time, rate and dt unchanged. |
| `EegSimulator.GetSamples` | eeg_simulator.py:22-45 | A chunk is produced exactly when the sample count is non-negative, and it has that many samples. Afterwards no blink is pending, time has advanced by exactly the duration, and rate and dt are unchanged. |
| `EegSimulator.BurstIffPending` | eeg_simulator.py:39-42 | With a blink pending, the chunk is the clean signal plus the burst. Otherwise it is the clean signal. The center sample is moved by exactly 25 iff a blink was pending. |
| `EegSimulator.TriggerIdempotent` | eeg_simulator.py:47-49 | Triggering twice equals triggering once. |
| `EegSimulator.TriggerTimesIsTriggerOnce` | eeg_simulator.py:47-49 | Any positive number of triggers equals a single trigger. |
| `EegSimulator.OneShotBlink` | eeg_simulator.py:39-49 | After k >= 1 triggers, the next chunk carries the burst. The chunk after it is clean, unless the blink is re-triggered. |
| `EegSimulator.Run` | eeg_simulator.py:22-45 | Any series of chunks leaves rate and dt unchanged. |
| `EegSimulator.RunAdvancesTime` | eeg_simulator.py:44 | After a series of chunks, time is the start time plus the sum of the durations, and no blink is pending. |
| `EegSimulator.ChunksAbut` | eeg_simulator.py:27-44 | Chunk k starts at the start time plus the durations before it. Chunk k+1 starts exactly where chunk k started plus its duration. |
| `Pipeline.SmoothAndClassify` | app.py:71-72 | The first cycle passes the bands through unchanged. Later cycles blend the bands into the retained average with mixing coefficient alpha, and the smoother keeps that alpha. The mood is the classification of the smoothed features. For alpha in [0,1], smoothing a ratio vector into a smoother that holds ratios yields a ratio vector. |
| `Pipeline.BlendKeepsRatios` | app.py:26 | A convex combination of two ratio vectors is a ratio vector. |
| `Pipeline.SmoothingKeepsRatios` | app.py:70-71 | Fed only ratio vectors, a smoother with alpha in [0,1] holds a ratio vector after any number of updates. |
| `Pipeline.DefaultWindowGrid` | app.py:57-69 | With FS = 128 and WINDOW_SIZE = 128, the duration is 1 s, a chunk has 128 samples and 65 bins, and bin k is at k Hz. |
| `Pipeline.Start` | app.py:62-63 | The state `main` builds: a generator at 128 Hz at time 0 with no blink pending, and a smoother with alpha 0.35 and no average. It meets every requirement of `Cycle`, and its smoother counts as holding ratios. |
| `Pipeline.Cycle` | app.py:69-72 | One cycle advances the generator by 1 s and clears any pending blink. The first cycle's features are the chunk's relative bands. Later cycles' features blend those bands into the retained average, and the smoother's alpha is kept. The mood is the classification of the features. The features are a ratio vector when the smoother held ratios. |

## Left out

- visualizer.py: the pygame window, drawing, event polling, exit on close,
  console printing and the fallback class swap. All of it is presentation
  and I/O.
- The endless loop in `main`, `time.sleep(0.05)`, `KeyboardInterrupt`
  handling and `vis.close()`. These are host plumbing; only one pass of the
  loop body is modelled (`Pipeline.Cycle`).
- `np.fft.rfft` and `abs()**2`, `np.sin`, `np.exp`, `rng.random` and
  `rng.normal`. These are floating-point library calls, so the model takes
  the spectrum, the waveform, the noise, the sign draw and the bell curve
  as inputs. For the same reason the seed and the generator's random state
  are not modelled, so seeded reproducibility is not stated.
- IEEE-754 rounding. The model's reals are exact, so statements such as
  "the ratios sum to 1 within 1e-9" are replaced by the exact
  `S/(S + 1e-12)`. For `int(0.2*n)` and `int(0.02*n)` the exact value
  agrees with the floating-point one: both constants round up in binary,
  and a whole-number product is representable.
- `SpectralBands.RelativeBands`: the spectrum is not tied to the signal's
  samples. The model only requires it to have `n/2 + 1` non-negative bins.
- `Smoothing.Update`: requires an observation as long as the retained
  average. numpy would broadcast or raise on a length mismatch, and the
  pipeline always passes three values.
- `MoodClassifier.Classify`: takes a typed triple, so the `ValueError` that
  unpacking raises on a vector of another length is not modelled.
- `EegSimulator.NewSimulator`: requires a positive rate. The source divides
  by the rate and otherwise does not check it.
- `EegSimulator.GetSamples`: NaN or infinite durations are not modelled.
- The default arguments `fs=250` of the constructor and `duration_sec=1.0`
  of `get_samples` are not modelled. Dafny functions take every argument
  explicitly, and the only caller, `main`, passes both.
