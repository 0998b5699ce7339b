/** Exact real-number helpers shared by the signal-to-mood model: absolute
    value, powers, Python's `int()` truncation and sequence sums. */
module RealArith {

  function Abs(x: real): (r: real)
    ensures r >= 0.0
    ensures r == x || r == -x
  {
    if x < 0.0 then -x else x
  }

  lemma AbsMul(x: real, y: real)
    ensures Abs(x * y) == Abs(x) * Abs(y)
  {
    if x < 0.0 && y >= 0.0 {
      assert x * y <= 0.0;
      assert Abs(x * y) == -(x * y) == (-x) * y;
    } else if x >= 0.0 && y < 0.0 {
      assert x * y <= 0.0;
      assert Abs(x * y) == -(x * y) == x * (-y);
    } else if x < 0.0 && y < 0.0 {
      assert x * y > 0.0;
      assert (-x) * (-y) == x * y;
    } else {
      assert x * y >= 0.0;
    }
  }

  lemma MulNonNeg(x: real, y: real)
    requires x >= 0.0 && y >= 0.0
    ensures x * y >= 0.0
  {
  }

  /** Multiplying both sides of x <= y by c >= 0 keeps the order. */
  lemma MulMono(c: real, x: real, y: real)
    requires c >= 0.0 && x <= y
    ensures c * x <= c * y
  {
  }

  lemma MulStrict(c: real, x: real, y: real)
    requires c > 0.0 && x < y
    ensures c * x < c * y
  {
  }

  /** Regrouping a triple product while swapping its first two factors. */
  lemma MulRegroup(p: real, q: real, g: real)
    ensures p * (q * g) == (q * p) * g
  {
  }

  /** z lies on the closed segment joining x and y (in either order). */
  predicate Between(x: real, y: real, z: real) {
    (x <= z <= y) || (y <= z <= x)
  }

  function Pow(x: real, k: nat): real {
    if k == 0 then 1.0 else x * Pow(x, k - 1)
  }

  lemma {:induction false} PowUnit(q: real, k: nat)
    requires 0.0 <= q <= 1.0
    ensures 0.0 <= Pow(q, k) <= 1.0
  {
    if k > 0 {
      PowUnit(q, k - 1);
      var p := Pow(q, k - 1);
      assert q * p <= 1.0 * p by {
        assert (1.0 - q) * p >= 0.0;
      }
      assert q * p >= 0.0;
    }
  }

  /** Bernoulli-style decay bound: (1 - a)^k <= 1 / (1 + k*a) for a in [0,1]. */
  lemma {:induction false} PowDecay(a: real, k: nat)
    requires 0.0 <= a <= 1.0
    ensures Pow(1.0 - a, k) * (1.0 + (k as real) * a) <= 1.0
  {
    if k > 0 {
      var q := 1.0 - a;
      var p := Pow(q, k - 1);
      var m := (k - 1) as real;
      PowDecay(a, k - 1);
      PowUnit(q, k - 1);
      assert p * (1.0 + m * a) <= 1.0;
      calc {
        Pow(q, k) * (1.0 + (k as real) * a);
      ==
        q * p * (1.0 + m * a + a);
      ==
        q * (p * (1.0 + m * a)) + q * a * p;
      <= { assert q >= 0.0; assert q * (p * (1.0 + m * a)) <= q * 1.0; }
        q + q * a * p;
      <= { assert q * a >= 0.0; assert q * a * p <= q * a * 1.0; }
        q + q * a;
      ==
        1.0 - a * a;
      <=
        1.0;
      }
    }
  }

  /** Python's `int()` applied to a float: truncation toward zero. */
  function Trunc(x: real): (r: int)
    ensures x >= 0.0 ==> 0 <= r && r as real <= x < r as real + 1.0
    ensures x < 0.0 ==> r <= 0 && r as real - 1.0 < x <= r as real
  {
    if x >= 0.0 then x.Floor else -((-x).Floor)
  }

  function Sum(s: seq<real>): real
  {
    if |s| == 0 then 0.0 else Sum(s[..|s| - 1]) + s[|s| - 1]
  }

  predicate NonNegative(s: seq<real>) {
    forall i :: 0 <= i < |s| ==> s[i] >= 0.0
  }
}
