/** The mood classifier `classify_mood_local` of app.py: an ordered,
    first-match decision table over an (alpha, beta, gamma) band vector. */
module MoodClassifier {
  import opened SpectralBands

  datatype Mood = Calm | Focus | Stress | Unknown {
    /** The label string the program hands to its presenter. */
    function Label(): string {
      match this
      case Calm => "CALM"
      case Focus => "FOCUS"
      case Stress => "STRESS"
      case Unknown => "UNKNOWN"
    }
  }

  const DefaultAlphaThresh: real := 1.2
  const DefaultBetaThresh: real := 1.2

  /** Alpha dominates beta by the alpha threshold and gamma by 1.1. */
  predicate CalmRule(v: BandVector, alphaThresh: real) {
    v.alpha > v.beta * alphaThresh && v.alpha > v.gamma * 1.1
  }

  /** Beta dominates alpha by the beta threshold, or beta plus 0.8 gamma
      exceeds 1.25 alpha. */
  predicate FocusRule(v: BandVector, betaThresh: real) {
    v.beta > v.alpha * betaThresh || (v.beta + 0.8 * v.gamma) > v.alpha * 1.25
  }

  predicate StressRule(v: BandVector) {
    v.gamma > 0.5
  }

  /** One row of a decision table: a guard and the mood it selects. */
  datatype Rule = Rule(guard: BandVector -> bool, mood: Mood)

  /** The table the classifier walks, in order. */
  function DecisionTable(alphaThresh: real, betaThresh: real): (t: seq<Rule>)
    ensures |t| == 3
  {
    [ Rule(v => CalmRule(v, alphaThresh), Calm),
      Rule(v => FocusRule(v, betaThresh), Focus),
      Rule(v => StressRule(v), Stress) ]
  }

  /** Reference semantics of an ordered decision table: the mood of the first
      row whose guard holds, else the fallback. */
  function FirstMatch(rules: seq<Rule>, v: BandVector, fallback: Mood): Mood
  {
    if |rules| == 0 then fallback
    else if rules[0].guard(v) then rules[0].mood
    else FirstMatch(rules[1..], v, fallback)
  }

  /** FirstMatch returns row i's mood when row i fires and no earlier row
      does. */
  lemma {:induction false} FirstMatchPicksFirstFiring(rules: seq<Rule>, v: BandVector, fallback: Mood, i: nat)
    requires i < |rules|
    requires rules[i].guard(v)
    requires forall j :: 0 <= j < i ==> !rules[j].guard(v)
    ensures FirstMatch(rules, v, fallback) == rules[i].mood
    decreases i
  {
    if i > 0 {
      assert !rules[0].guard(v);
      assert forall j :: 0 <= j < i - 1 ==> rules[1..][j] == rules[j + 1];
      FirstMatchPicksFirstFiring(rules[1..], v, fallback, i - 1);
    }
  }

  /** FirstMatch falls back exactly when no row fires. */
  lemma {:induction false} FirstMatchFallback(rules: seq<Rule>, v: BandVector, fallback: Mood)
    requires forall j :: 0 <= j < |rules| ==> !rules[j].guard(v)
    ensures FirstMatch(rules, v, fallback) == fallback
    decreases |rules|
  {
    if |rules| > 0 {
      assert forall j :: 0 <= j < |rules| - 1 ==> rules[1..][j] == rules[j + 1];
      FirstMatchFallback(rules[1..], v, fallback);
    }
  }

  /** The classifier: the first rule of the decision table that fires picks
      the mood, UNKNOWN if none does. */
  function Classify(v: BandVector, alphaThresh: real, betaThresh: real): (m: Mood)
    ensures m == FirstMatch(DecisionTable(alphaThresh, betaThresh), v, Unknown)
  {
    var t := DecisionTable(alphaThresh, betaThresh);
    if CalmRule(v, alphaThresh) then
      FirstMatchPicksFirstFiring(t, v, Unknown, 0);
      Calm
    else if FocusRule(v, betaThresh) then
      FirstMatchPicksFirstFiring(t, v, Unknown, 1);
      Focus
    else if StressRule(v) then
      FirstMatchPicksFirstFiring(t, v, Unknown, 2);
      Stress
    else
      FirstMatchFallback(t, v, Unknown);
      Unknown
  }

  /** Which rule fired, for every input: each mood is returned exactly when
      its rule holds and every earlier rule fails. */
  lemma WhichRuleFired(v: BandVector, alphaThresh: real, betaThresh: real)
    ensures Classify(v, alphaThresh, betaThresh) == Calm <==> CalmRule(v, alphaThresh)
    ensures Classify(v, alphaThresh, betaThresh) == Focus <==>
              !CalmRule(v, alphaThresh) && FocusRule(v, betaThresh)
    ensures Classify(v, alphaThresh, betaThresh) == Stress <==>
              !CalmRule(v, alphaThresh) && !FocusRule(v, betaThresh) && StressRule(v)
    ensures Classify(v, alphaThresh, betaThresh) == Unknown <==>
              !CalmRule(v, alphaThresh) && !FocusRule(v, betaThresh) && !StressRule(v)
  {
  }

  /** The order matters: this vector satisfies both the CALM and the FOCUS
      rule, and CALM wins because it comes first. */
  lemma CalmShadowsFocus()
    ensures CalmRule(BandVector(0.35, 0.28, 0.315), DefaultAlphaThresh)
    ensures FocusRule(BandVector(0.35, 0.28, 0.315), DefaultBetaThresh)
    ensures Classify(BandVector(0.35, 0.28, 0.315), DefaultAlphaThresh, DefaultBetaThresh) == Calm
  {
  }

  /** With thresholds of at least 1 and non-negative beta and gamma, CALM
      means alpha is strictly the largest band. */
  lemma CalmMeansAlphaLargest(v: BandVector, alphaThresh: real, betaThresh: real)
    requires alphaThresh >= 1.0
    requires v.beta >= 0.0 && v.gamma >= 0.0
    requires Classify(v, alphaThresh, betaThresh) == Calm
    ensures v.alpha > v.beta && v.alpha > v.gamma
  {
    WhichRuleFired(v, alphaThresh, betaThresh);
    RealArith.MulMono(v.beta, 1.0, alphaThresh);
  }

  /** STRESS is reached only with gamma above 0.5, and then (beta being
      non-negative) the FOCUS rule failing forces alpha above 0.32. */
  lemma StressNeedsStrongAlpha(v: BandVector, alphaThresh: real, betaThresh: real)
    requires v.beta >= 0.0
    requires Classify(v, alphaThresh, betaThresh) == Stress
    ensures v.gamma > 0.5 && v.alpha > 0.32
  {
    WhichRuleFired(v, alphaThresh, betaThresh);
  }

  /** Scaling a vector by a positive factor never changes whether the CALM or
      the FOCUS rule fires: only the STRESS rule looks at absolute size. */
  lemma ScaleKeepsCalmAndFocus(v: BandVector, c: real, alphaThresh: real, betaThresh: real)
    requires c > 0.0
    ensures CalmRule(v.Scaled(c), alphaThresh) <==> CalmRule(v, alphaThresh)
    ensures FocusRule(v.Scaled(c), betaThresh) <==> FocusRule(v, betaThresh)
  {
    var w := v.Scaled(c);
    ScaleKeepsOrder(c, v.alpha, v.beta * alphaThresh);
    assert w.beta * alphaThresh == c * (v.beta * alphaThresh);
    ScaleKeepsOrder(c, v.alpha, v.gamma * 1.1);
    assert w.gamma * 1.1 == c * (v.gamma * 1.1);
    ScaleKeepsOrder(c, v.beta, v.alpha * betaThresh);
    assert w.alpha * betaThresh == c * (v.alpha * betaThresh);
    ScaleKeepsOrder(c, v.beta + 0.8 * v.gamma, v.alpha * 1.25);
    assert w.beta + 0.8 * w.gamma == c * (v.beta + 0.8 * v.gamma);
    assert w.alpha * 1.25 == c * (v.alpha * 1.25);
  }

  /** The CALM and FOCUS rules fire on a chunk's relative band powers exactly
      when they fire on its absolute band energies: normalisation only
      rescales. */
  lemma RulesSeeEnergies(sig: seq<real>, fs: real, ps: seq<real>, alphaThresh: real, betaThresh: real)
    requires fs > 0.0
    requires |sig| > 0 && |ps| == SpectrumLength(|sig|) && RealArith.NonNegative(ps)
    ensures CalmRule(RelativeBands(sig, fs, ps), alphaThresh) <==> CalmRule(Energies(ps, |sig|, fs), alphaThresh)
    ensures FocusRule(RelativeBands(sig, fs, ps), betaThresh) <==> FocusRule(Energies(ps, |sig|, fs), betaThresh)
  {
    var e := Energies(ps, |sig|, fs);
    RatiosScaleEnergies(sig, fs, ps);
    ScaleKeepsCalmAndFocus(e, 1.0 / (e.Total() + Epsilon), alphaThresh, betaThresh);
  }

  lemma ScaleKeepsOrder(c: real, x: real, y: real)
    requires c > 0.0
    ensures c * x > c * y <==> x > y
  {
    if x > y {
      RealArith.MulStrict(c, y, x);
    } else {
      RealArith.MulMono(c, x, y);
    }
  }

  /** The label strings of the four moods are pairwise distinct. */
  lemma LabelsDistinct(m: Mood, n: Mood)
    requires m != n
    ensures m.Label() != n.Label()
  {
  }

  /** Concrete outcomes with the default thresholds. The last three sit
      exactly on a boundary (a == 1.2b; b == 1.2a; b + 0.8g == 1.25a with
      g == 0.5), where the strict comparisons do not fire. */
  lemma DefaultThresholdExamples()
    ensures Classify(ZeroBands, DefaultAlphaThresh, DefaultBetaThresh) == Unknown
    ensures Classify(BandVector(0.6, 0.2, 0.2), DefaultAlphaThresh, DefaultBetaThresh) == Calm
    ensures Classify(BandVector(0.2, 0.6, 0.2), DefaultAlphaThresh, DefaultBetaThresh) == Focus
    ensures Classify(BandVector(0.2, 0.2, 0.6), DefaultAlphaThresh, DefaultBetaThresh) == Focus
    ensures Classify(BandVector(0.34, 0.33, 0.33), DefaultAlphaThresh, DefaultBetaThresh) == Focus
    ensures Classify(BandVector(0.6, 0.0, 0.6), DefaultAlphaThresh, DefaultBetaThresh) == Stress
    ensures Classify(BandVector(0.6, 0.5, 0.0), DefaultAlphaThresh, DefaultBetaThresh) == Unknown
    ensures Classify(BandVector(0.5, 0.6, 0.0), DefaultAlphaThresh, DefaultBetaThresh) == Unknown
    ensures Classify(BandVector(0.4, 0.1, 0.5), DefaultAlphaThresh, DefaultBetaThresh) == Unknown
  {
  }
}
