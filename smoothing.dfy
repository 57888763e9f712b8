/**
  Exponential smoothing of the attitude readouts (app/page.js:41-44):
  every sample moves the displayed value a tenth of the way toward it.
 */
module Smoothing {
  import opened Numeric

  /**
    One update `prev + (sample - prev) * 0.1`; the gain 0.1 is written as a
    literal, as in the source, so that the solver sees linear arithmetic.
   */
  function Smooth(prev: real, sample: real): (v: real)
    // the new value lies between the old value and the sample: no overshoot
    ensures Min(prev, sample) <= v <= Max(prev, sample)
    // the gap to the sample shrinks by the factor 0.9
    ensures Abs(sample - v) == 0.9 * Abs(sample - prev)
    // and so strictly, unless the value already equals the sample
    ensures prev != sample ==> Abs(sample - v) < Abs(sample - prev)
    ensures v == sample <==> prev == sample
  {
    prev + (sample - prev) * 0.1
  }

  /** The displayed value after `n` frames that all carry the same sample. */
  function Iterate(v: real, sample: real, n: nat): real {
    if n == 0 then v else Smooth(Iterate(v, sample, n - 1), sample)
  }

  function Pow(b: real, n: nat): real {
    if n == 0 then 1.0 else b * Pow(b, n - 1)
  }

  /**
    Under a constant sample the signed gap after `n` frames is `0.9^n`
    times the initial gap.
   */
  lemma {:induction false} IterateGap(v: real, sample: real, n: nat)
    ensures sample - Iterate(v, sample, n) == Pow(0.9, n) * (sample - v)
  {
    if n > 0 {
      IterateGap(v, sample, n - 1);
      var w := Iterate(v, sample, n - 1);
      var p := Pow(0.9, n - 1);
      assert sample - Smooth(w, sample) == 0.9 * (sample - w);
      assert 0.9 * (p * (sample - v)) == (0.9 * p) * (sample - v);
    }
  }

  /** Under a constant sample the value never leaves the interval between its start and the sample. */
  lemma {:induction false} IterateNoOvershoot(v: real, sample: real, n: nat)
    ensures Min(v, sample) <= Iterate(v, sample, n) <= Max(v, sample)
  {
    if n > 0 {
      IterateNoOvershoot(v, sample, n - 1);
    }
  }

  /** Each further frame with the same sample strictly reduces the gap, unless it is already closed. */
  lemma MonotoneApproach(v: real, sample: real, n: nat)
    requires v != sample
    ensures Abs(sample - Iterate(v, sample, n + 1)) < Abs(sample - Iterate(v, sample, n))
  {
    IterateGap(v, sample, n);
    PowPositive(0.9, n);
    ProductNonZero(Pow(0.9, n), sample - v);
  }

  lemma ProductNonZero(p: real, x: real)
    requires p > 0.0 && x != 0.0
    ensures p * x != 0.0
  {
  }

  lemma AbsMul(p: real, x: real)
    requires p >= 0.0
    ensures Abs(p * x) == p * Abs(x)
  {
    if x < 0.0 {
      assert p * x == -(p * -x);
      MulLe(0.0, -x, p);
    } else {
      MulLe(0.0, x, p);
    }
  }

  lemma {:induction false} PowPositive(b: real, n: nat)
    requires b > 0.0
    ensures Pow(b, n) > 0.0
  {
    if n > 0 {
      PowPositive(b, n - 1);
    }
  }

  /** Bernoulli's inequality in the form `0.9^n * (9 + n) <= 9`. */
  lemma {:induction false} PowBound(n: nat)
    ensures 0.0 <= Pow(0.9, n)
    ensures Pow(0.9, n) * (9.0 + n as real) <= 9.0
  {
    if n > 0 {
      PowBound(n - 1);
      var p := Pow(0.9, n - 1);
      assert Pow(0.9, n) == 0.9 * p;
      assert p * (8.0 + n as real) <= 9.0;
      calc {
        Pow(0.9, n) * (9.0 + n as real);
        p * (8.1 + 0.9 * n as real);
        == p * (8.0 + n as real) - p * (0.1 * n as real - 0.1);
        <= { MulLe(0.0, 0.1 * n as real - 0.1, p); }
        p * (8.0 + n as real);
      }
    }
  }

  /**
    Convergence: a constant sample is approached to within any `eps > 0`
    once `n` frames have arrived with `n * eps >= 9 * |sample - v|`.
   */
  lemma Converges(v: real, sample: real, eps: real, n: nat)
    requires eps > 0.0
    requires n as real * eps >= 9.0 * Abs(sample - v)
    ensures Abs(sample - Iterate(v, sample, n)) < eps
  {
    IterateGap(v, sample, n);
    PowBound(n);
    AbsMul(Pow(0.9, n), sample - v);
    ShrunkBelow(Pow(0.9, n), Abs(sample - v), n as real, eps);
  }

  /** If `p * (9 + m) <= 9` and `m * eps >= 9 * d`, then `p * d < eps`. */
  lemma ShrunkBelow(p: real, d: real, m: real, eps: real)
    requires p >= 0.0 && d >= 0.0 && m >= 0.0 && eps > 0.0
    requires p * (9.0 + m) <= 9.0
    requires m * eps >= 9.0 * d
    ensures p * d < eps
  {
    var g, k := p * d, 9.0 + m;
    assert g * k == (p * k) * d;
    MulLe(p * k, 9.0, d);
    assert k * eps == 9.0 * eps + m * eps;
    assert g * k < k * eps;
    if g >= eps {
      MulLe(eps, g, k);
    }
  }

  lemma MulLe(a: real, b: real, c: real)
    requires a <= b && c >= 0.0
    ensures a * c <= b * c
  {
  }
}
