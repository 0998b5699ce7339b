/** The temporal smoother `LocalSmoother` of app.py: an exponential moving
    average over feature vectors that holds no state until its first update. */
module Smoothing {
  import opened RealArith

  /** Mixing coefficient used when the smoother is built with no argument. */
  const DefaultAlpha: real := 0.35

  datatype Option<T> = None | Some(value: T)

  /** `ema` is None until the first update, then the retained average. */
  datatype Smoother = Smoother(alpha: real, ema: Option<seq<real>>)

  function NewSmoother(alpha: real): (s: Smoother)
    ensures s.alpha == alpha && s.ema.None?
  {
    Smoother(alpha, None)
  }

  /** The observation fits the retained average element by element. */
  predicate Compatible(s: Smoother, vec: seq<real>) {
    s.ema.Some? ==> |s.ema.value| == |vec|
  }

  /** Element-wise `alpha * vec + (1 - alpha) * ema`. */
  function Blend(alpha: real, vec: seq<real>, ema: seq<real>): (r: seq<real>)
    requires |vec| == |ema|
    ensures |r| == |vec|
    ensures forall i :: 0 <= i < |vec| ==> r[i] - vec[i] == (1.0 - alpha) * (ema[i] - vec[i])
    ensures forall i :: 0 <= i < |vec| ==> r[i] - ema[i] == alpha * (vec[i] - ema[i])
  {
    seq(|vec|, i requires 0 <= i < |vec| => alpha * vec[i] + (1.0 - alpha) * ema[i])
  }

  /** The state `update` leaves behind. */
  function Step(s: Smoother, vec: seq<real>): (r: Smoother)
    requires Compatible(s, vec)
    ensures r.alpha == s.alpha
    ensures r.ema.Some? && |r.ema.value| == |vec|
  {
    match s.ema
    case None => Smoother(s.alpha, Some(vec))
    case Some(ema) => Smoother(s.alpha, Some(Blend(s.alpha, vec, ema)))
  }

  /** One call of `update`: the new smoother and the vector it returns. The
      returned vector is the retained average; the first call keeps the
      observation verbatim, later calls move each component toward the
      observation by the fraction `alpha` of the gap. */
  function Update(s: Smoother, vec: seq<real>): (r: (Smoother, seq<real>))
    requires Compatible(s, vec)
    ensures r.0 == Smoother(s.alpha, Some(r.1))
    ensures |r.1| == |vec|
    ensures s.ema.None? ==> r.1 == vec
    ensures s.ema.Some? && 0.0 <= s.alpha <= 1.0 ==>
              forall i :: 0 <= i < |vec| ==> Between(s.ema.value[i], vec[i], r.1[i])
    ensures s.ema.Some? ==>
              forall i :: 0 <= i < |vec| ==>
                r.1[i] - vec[i] == (1.0 - s.alpha) * (s.ema.value[i] - vec[i])
  {
    var next := Step(s, vec);
    assert s.ema.Some? ==> forall i :: 0 <= i < |vec| ==>
             StepFacts(s.alpha, s.ema.value[i], vec[i], next.ema.value[i]) by {
      if s.ema.Some? {
        var ema := s.ema.value;
        assert next.ema.value == Blend(s.alpha, vec, ema);
        forall i | 0 <= i < |vec|
          ensures StepFacts(s.alpha, ema[i], vec[i], next.ema.value[i])
        {
          StepLemma(s.alpha, ema[i], vec[i], next.ema.value[i]);
        }
      }
    }
    (next, next.ema.value)
  }

  /** What one blending step does to one component: for alpha in [0,1] the
      new value z lies between the old average e and the observation v. */
  predicate StepFacts(alpha: real, e: real, v: real, z: real) {
    0.0 <= alpha <= 1.0 ==> Between(e, v, z)
  }

  lemma StepLemma(alpha: real, e: real, v: real, z: real)
    requires z - e == alpha * (v - e)
    ensures StepFacts(alpha, e, v, z)
  {
    if 0.0 <= alpha <= 1.0 {
      ScaleBetween(alpha, v - e);
    }
  }

  /** The size of a component's gap after an update of a primed smoother is
      the old size scaled by |1 - alpha|, whatever alpha is. */
  lemma UpdateGapSize(s: Smoother, vec: seq<real>, i: nat)
    requires s.ema.Some? && |s.ema.value| == |vec|
    requires i < |vec|
    ensures Abs(Update(s, vec).1[i] - vec[i]) == Abs(1.0 - s.alpha) * Abs(s.ema.value[i] - vec[i])
  {
    AbsMul(1.0 - s.alpha, s.ema.value[i] - vec[i]);
  }

  /** A fraction a in [0,1] of d lies between 0 and d. */
  lemma ScaleBetween(a: real, d: real)
    requires 0.0 <= a <= 1.0
    ensures Between(0.0, d, a * d)
  {
    if d >= 0.0 {
      MulMono(d, 0.0, a);
      MulMono(d, a, 1.0);
    } else {
      MulMono(-d, 0.0, a);
      MulMono(-d, a, 1.0);
    }
  }

  /** The gap of one component after one step of a primed smoother. */
  lemma StepGap(s: Smoother, v: seq<real>, i: nat)
    requires s.ema.Some? && |s.ema.value| == |v|
    requires i < |v|
    ensures Step(s, v).ema.value[i] - v[i] == (1.0 - s.alpha) * (s.ema.value[i] - v[i])
  {
  }

  /** Feed the same observation `v` to the smoother `k` times. */
  function Feed(s: Smoother, v: seq<real>, k: nat): (r: Smoother)
    requires Compatible(s, v)
    ensures r.alpha == s.alpha
    ensures Compatible(r, v)
    ensures k > 0 ==> r.ema.Some?
    decreases k
  {
    if k == 0 then s else Feed(Step(s, v), v, k - 1)
  }

  /** A fresh smoother that is fed `v` holds exactly `v` from then on. */
  lemma {:induction false} FeedFresh(s: Smoother, v: seq<real>, k: nat)
    requires s.ema.None? || s.ema == Some(v)
    requires k > 0
    ensures Feed(s, v, k).ema == Some(v)
    decreases k
  {
    var s1 := Step(s, v);
    if s.ema.Some? {
      var b := Blend(s.alpha, v, v);
      assert b == v by {
        forall i | 0 <= i < |v| ensures b[i] == v[i] {
          assert b[i] - v[i] == (1.0 - s.alpha) * (v[i] - v[i]);
        }
      }
    }
    assert s1.ema == Some(v);
    if k > 1 {
      FeedFresh(s1, v, k - 1);
    }
  }

  /** Every gap to a constant observation is scaled by exactly (1 - alpha)
      per step. */
  lemma {:induction false} FeedGap(s: Smoother, v: seq<real>, k: nat, i: nat)
    requires s.ema.Some? && |s.ema.value| == |v|
    requires i < |v|
    ensures Feed(s, v, k).ema.Some?
    ensures |Feed(s, v, k).ema.value| == |v|
    ensures Feed(s, v, k).ema.value[i] - v[i] == Pow(1.0 - s.alpha, k) * (s.ema.value[i] - v[i])
    decreases k
  {
    if k > 0 {
      var s1 := Step(s, v);
      StepGap(s, v, i);
      FeedGap(s1, v, k - 1, i);
      assert Feed(s, v, k) == Feed(s1, v, k - 1);
      MulRegroup(Pow(1.0 - s.alpha, k - 1), 1.0 - s.alpha, s.ema.value[i] - v[i]);
    }
  }

  /** For alpha in [0,1] the gap to a constant observation never grows; for
      alpha in (0,1] a nonzero gap strictly shrinks at every step. */
  lemma GapShrinks(s: Smoother, v: seq<real>, i: nat)
    requires s.ema.Some? && |s.ema.value| == |v|
    requires i < |v|
    requires 0.0 <= s.alpha <= 1.0
    ensures Abs(Update(s, v).1[i] - v[i]) <= Abs(s.ema.value[i] - v[i])
    ensures 0.0 < s.alpha && s.ema.value[i] != v[i] ==>
              Abs(Update(s, v).1[i] - v[i]) < Abs(s.ema.value[i] - v[i])
  {
    var g := Abs(s.ema.value[i] - v[i]);
    assert Abs(Update(s, v).1[i] - v[i]) == (1.0 - s.alpha) * g;
    assert (1.0 - s.alpha) * g <= 1.0 * g;
    if 0.0 < s.alpha && s.ema.value[i] != v[i] {
      assert g > 0.0;
      assert (1.0 - s.alpha) * g < 1.0 * g;
    }
  }

  /** Convergence with an explicit rate: after k steps on a constant
      observation the gap is at most the first gap divided by (1 + k*alpha). */
  lemma FeedConverges(s: Smoother, v: seq<real>, k: nat, i: nat)
    requires s.ema.Some? && |s.ema.value| == |v|
    requires i < |v|
    requires 0.0 <= s.alpha <= 1.0
    ensures Feed(s, v, k).ema.Some? && |Feed(s, v, k).ema.value| == |v|
    ensures Abs(Feed(s, v, k).ema.value[i] - v[i]) * (1.0 + (k as real) * s.alpha)
              <= Abs(s.ema.value[i] - v[i])
  {
    FeedGap(s, v, k, i);
    DecayBound(Feed(s, v, k).ema.value[i] - v[i], s.ema.value[i] - v[i], s.alpha, k);
  }

  /** A gap scaled by (1 - a)^k, times (1 + k*a), is at most the original gap. */
  lemma DecayBound(x: real, g: real, a: real, k: nat)
    requires 0.0 <= a <= 1.0
    requires x == Pow(1.0 - a, k) * g
    ensures Abs(x) * (1.0 + (k as real) * a) <= Abs(g)
  {
    var p := Pow(1.0 - a, k);
    var c := 1.0 + (k as real) * a;
    PowUnit(1.0 - a, k);
    PowDecay(a, k);
    MulNonNeg(k as real, a);
    AbsMul(p, g);
    assert Abs(p) == p;
    MulRegroup(Abs(g), c, p);
    MulMono(Abs(g), p * c, 1.0);
  }

  /** Any tolerance is eventually met: once k*alpha*tol reaches the first
      gap, the k-th average lies strictly within tol of the observation. */
  lemma FeedWithinTolerance(s: Smoother, v: seq<real>, k: nat, i: nat, tol: real)
    requires s.ema.Some? && |s.ema.value| == |v|
    requires i < |v|
    requires 0.0 < s.alpha <= 1.0 && tol > 0.0
    requires (k as real) * s.alpha * tol >= Abs(s.ema.value[i] - v[i])
    ensures Feed(s, v, k).ema.Some? && |Feed(s, v, k).ema.value| == |v|
    ensures Abs(Feed(s, v, k).ema.value[i] - v[i]) < tol
  {
    FeedConverges(s, v, k, i);
    var gk := Abs(Feed(s, v, k).ema.value[i] - v[i]);
    var ka := (k as real) * s.alpha;
    assert ka >= 0.0;
    BelowTolerance(gk, Abs(s.ema.value[i] - v[i]), ka, tol);
  }

  /** gk*(1+ka) <= g0 <= ka*tol forces gk < tol. */
  lemma BelowTolerance(gk: real, g0: real, ka: real, tol: real)
    requires gk >= 0.0 && ka >= 0.0 && tol > 0.0
    requires gk * (1.0 + ka) <= g0 <= ka * tol
    ensures gk < tol
  {
  }
}
