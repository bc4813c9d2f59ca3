/** Exponential smoothing of one head-position axis (app.js, `animate`).

    Every frame each smoothed axis moves the fixed fraction `Factor` of the
    way toward its target.  The lemmas give the closed form after `n`
    frames, the absence of overshoot, strict approach and convergence. */
module Smoothing {
  import opened Numerics

  /** The `smoothing` constant of `animate`. */
  const Factor: real := 0.08

  /** The fraction of the remaining gap that survives one step. */
  const Retain: real := 1.0 - Factor

  /** One smoothing step: `current += (target - current) * smoothing`. */
  function Step(current: real, target: real): real {
    current + (target - current) * Factor
  }

  /** One step never overshoots, keeps exactly `Retain` of the gap and
      reaches the target only if it started there. */
  lemma StepContracts(current: real, target: real)
    ensures Min(current, target) <= Step(current, target) <= Max(current, target)
    ensures target - Step(current, target) == Retain * (target - current)
    ensures Step(current, target) == target <==> current == target
  {
  }

  /** The value of an axis after `n` frames with the target held fixed. */
  function Smooth(current: real, target: real, n: nat): real {
    if n == 0 then current else Step(Smooth(current, target, n - 1), target)
  }

  /** However many frames pass, the smoothed value stays between its
      starting point and the target. */
  lemma {:induction false} SmoothBetween(current: real, target: real, n: nat)
    ensures Min(current, target) <= Smooth(current, target, n) <= Max(current, target)
  {
    if n > 0 {
      SmoothBetween(current, target, n - 1);
      StepContracts(Smooth(current, target, n - 1), target);
    }
  }

  /** After `n` frames the gap to a fixed target is `Retain^n` times the
      starting gap. */
  lemma {:induction false} SmoothGap(current: real, target: real, n: nat)
    ensures target - Smooth(current, target, n) == Pow(Retain, n) * (target - current)
  {
    if n == 0 {
      assert Pow(Retain, n) * (target - current) == target - current;
    } else {
      StepContracts(Smooth(current, target, n - 1), target);
      assert Pow(Retain, n) == Retain * Pow(Retain, n - 1);
      SmoothGap(current, target, n - 1);
      ScaledGap(target - Smooth(current, target, n), target - Smooth(current, target, n - 1),
                Pow(Retain, n - 1), target - current, Pow(Retain, n));
    }
  }

  /** One more factor of `Retain` on a gap that is already `p * g`. */
  lemma ScaledGap(next: real, prev: real, p: real, g: real, q: real)
    requires next == Retain * prev && prev == p * g && q == Retain * p
    ensures next == q * g
  {
  }

  lemma AbsScale(p: real, g: real)
    requires 0.0 <= p
    ensures Abs(p * g) == p * Abs(g)
  {
    if g < 0.0 {
      assert p * g <= 0.0;
      assert -(p * g) == p * (-g);
    }
  }

  lemma {:induction false} PowRetainBounds(n: nat)
    ensures 0.0 < Pow(Retain, n) <= 1.0
    ensures n > 0 ==> Pow(Retain, n) < 1.0
  {
    if n > 0 {
      PowRetainBounds(n - 1);
    }
  }

  /** The gap never closes and strictly shrinks every frame: the smoothed
      value moves monotonically toward the target without reaching it. */
  lemma StrictApproach(current: real, target: real, n: nat)
    requires current != target
    ensures Smooth(current, target, n) != target
    ensures Abs(target - Smooth(current, target, n + 1)) < Abs(target - Smooth(current, target, n))
    ensures current < target ==> Smooth(current, target, n) < Smooth(current, target, n + 1) < target
    ensures target < current ==> target < Smooth(current, target, n + 1) < Smooth(current, target, n)
  {
    SmoothGap(current, target, n);
    PowRetainBounds(n);
    SignOfProduct(Pow(Retain, n), target - current, target - Smooth(current, target, n));
    assert Smooth(current, target, n + 1) == Step(Smooth(current, target, n), target);
    StepContracts(Smooth(current, target, n), target);
    RetainShrinks(target - Smooth(current, target, n), target - Smooth(current, target, n + 1));
  }

  lemma SignOfProduct(p: real, g: real, d: real)
    requires 0.0 < p && d == p * g
    ensures 0.0 < g ==> 0.0 < d
    ensures g < 0.0 ==> d < 0.0
  {
  }

  lemma RetainShrinks(d: real, e: real)
    requires d != 0.0 && e == Retain * d
    ensures Abs(e) < Abs(d)
    ensures 0.0 < d ==> 0.0 < e < d
    ensures d < 0.0 ==> d < e < 0.0
  {
  }

  /** Bernoulli's inequality for the retained fraction:
      `Retain^n <= 1 / (1 + Factor * n)`. */
  lemma {:induction false} RetainBernoulli(n: nat)
    ensures Pow(Retain, n) * (1.0 + Factor * n as real) <= 1.0
  {
    if n > 0 {
      RetainBernoulli(n - 1);
      PowRetainBounds(n - 1);
      BernoulliStep(Pow(Retain, n - 1), (n - 1) as real, Pow(Retain, n), n as real);
    }
  }

  /** The inductive step of `RetainBernoulli` on plain reals. */
  lemma BernoulliStep(a: real, k: real, p: real, k1: real)
    requires 0.0 < a <= 1.0 && 0.0 <= k && a * (1.0 + 0.08 * k) <= 1.0
    requires p == 0.92 * a && k1 == k + 1.0
    ensures p * (1.0 + 0.08 * k1) <= 1.0
  {
    assert p * (1.0 + 0.08 * k1) == 0.92 * (a * (1.0 + 0.08 * k)) + 0.0736 * a;
  }

  lemma {:induction false} PowRetainAntitone(m: nat, n: nat)
    requires m <= n
    ensures Pow(Retain, n) <= Pow(Retain, m)
    decreases n - m
  {
    if m < n {
      PowRetainAntitone(m + 1, n);
      PowRetainBounds(m);
    }
  }

  /** Some frame count brings `Retain^k` below any positive tolerance. */
  lemma RetainBelow(eps: real) returns (k: nat)
    requires 0.0 < eps
    ensures Pow(Retain, k) <= eps
  {
    k := (12.5 / eps).Floor as nat + 1;
    RetainBernoulli(k);
    PowRetainBounds(k);
    assert 12.5 / eps < k as real;
    BelowTolerance(Pow(Retain, k), 1.0 + Factor * k as real, eps, k as real);
  }

  /** From `p * q <= 1` and `q > 1 / eps` follows `p <= eps`. */
  lemma BelowTolerance(p: real, q: real, eps: real, k: real)
    requires 0.0 < eps && 0.0 < p
    requires q == 1.0 + 0.08 * k && 12.5 / eps < k
    requires p * q <= 1.0
    ensures p <= eps
  {
    ToleranceProduct(eps, k, q);
    MulLt(1.0, eps * q, p);
    assert (eps * q) * p == eps * (p * q);
  }

  lemma ToleranceProduct(eps: real, k: real, q: real)
    requires 0.0 < eps && q == 1.0 + 0.08 * k && 12.5 / eps < k
    ensures 1.0 < eps * q
  {
    MulLt(12.5 / eps, k, eps);
    assert (12.5 / eps) * eps == 12.5;
    assert eps * q == eps + 0.08 * (k * eps);
    Linear(eps, k * eps, eps * q);
  }

  lemma Linear(eps: real, m: real, e: real)
    requires 0.0 < eps && 12.5 < m && e == eps + 0.08 * m
    ensures 1.0 < e
  {
  }

  /** A gap already scaled by at most `eps` stays within `eps` times the
      starting gap. */
  lemma GapWithin(current: real, target: real, n: nat, eps: real)
    requires Pow(Retain, n) <= eps
    ensures Abs(target - Smooth(current, target, n)) <= eps * Abs(target - current)
  {
    SmoothGap(current, target, n);
    PowRetainBounds(n);
    ScaledAbs(target - Smooth(current, target, n), Pow(Retain, n), target - current, eps);
  }

  lemma ScaledAbs(x: real, p: real, g: real, eps: real)
    requires x == p * g && 0.0 <= p <= eps
    ensures Abs(x) <= eps * Abs(g)
  {
    AbsScale(p, g);
    MulLe(p, eps, Abs(g));
  }

  lemma MulLt(p: real, q: real, a: real)
    requires p < q && 0.0 < a
    ensures p * a < q * a
  {
  }

  lemma MulLe(p: real, q: real, a: real)
    requires p <= q && 0.0 <= a
    ensures p * a <= q * a
  {
  }

  /** Convergence: for every tolerance `eps` there is a frame count after
      which the gap stays within `eps` times the starting gap. */
  lemma Converges(current: real, target: real, eps: real) returns (k: nat)
    requires 0.0 < eps
    ensures forall n: nat :: k <= n ==>
      Abs(target - Smooth(current, target, n)) <= eps * Abs(target - current)
  {
    k := RetainBelow(eps);
    forall n: nat | k <= n
      ensures Abs(target - Smooth(current, target, n)) <= eps * Abs(target - current)
    {
      PowRetainAntitone(k, n);
      GapWithin(current, target, n, eps);
    }
  }

  lemma {:induction false} PowAdd(b: real, m: nat, n: nat)
    ensures Pow(b, m + n) == Pow(b, m) * Pow(b, n)
  {
    if m > 0 {
      PowAdd(b, m - 1, n);
    }
  }

  lemma {:induction false} PowMonotoneBase(a: real, b: real, n: nat)
    requires 0.0 <= a <= b
    ensures 0.0 <= Pow(a, n) <= Pow(b, n)
  {
    if n > 0 {
      PowMonotoneBase(a, b, n - 1);
    }
  }

  /** With a unit step, fifty frames bring the value within 2% of the
      target (0.92^50 is about 0.0155). */
  lemma FiftyFramesWithinTwoPercent(current: real, target: real)
    ensures Abs(target - Smooth(current, target, 50)) <= 0.02 * Abs(target - current)
  {
    RetainPow50();
    GapWithin(current, target, 50, 0.02);
  }

  lemma RetainPow50()
    ensures Pow(Retain, 50) < 0.02
  {
    assert Pow(Retain, 1) == 0.92;
    assert Pow(Retain, 2) == 0.8464;
    PowAdd(Retain, 2, 2);
    assert Pow(Retain, 4) == 0.71639296;
    PowAdd(Retain, 4, 4);
    assert Pow(Retain, 8) < 0.5133;
    PowAdd(Retain, 8, 2);
    assert Pow(Retain, 10) < 0.44;
    PowRetainBounds(10);
    PowMonotoneBase(Pow(Retain, 10), 0.44, 5);
    assert Pow(0.44, 5) < 0.02;
    PowPow(Retain, 10, 5);
  }

  lemma {:induction false} PowPow(b: real, m: nat, n: nat)
    ensures Pow(b, m * n) == Pow(Pow(b, m), n)
  {
    if n > 0 {
      PowPow(b, m, n - 1);
      PowAdd(b, m, m * (n - 1));
      assert m * n == m + m * (n - 1);
    }
  }
}
