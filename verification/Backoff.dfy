/** dispatcher.go, computeBackoff: exponential, clamped, jittered delays, over the reals. */
module Backoff {
  import opened Basics
  import opened Jobs

  function Pow(x: real, n: nat): real {
    if n == 0 then 1.0 else x * Pow(x, n - 1)
  }

  /** The delay after n growth steps, before clamp and jitter. */
  function Grown(p: RetryPolicy, n: nat): real { p.initialBackoff as real * Pow(p.multiplier, n) }

  /** The delay before jitter. */
  function Base(p: RetryPolicy, attempt: int): real {
    var grown := Grown(p, Max(attempt, 1) - 1);
    if grown > p.maxBackoff as real then p.maxBackoff as real else grown
  }

  /** The integer next to `x` on the side of zero. */
  predicate TowardZero(d: int, x: real) {
    if x >= 0.0 then d as real <= x < d as real + 1.0 else d as real - 1.0 < x <= d as real
  }

  /** The conversion to an integer number of nanoseconds drops the fraction. */
  function Trunc(x: real): (d: int)
    ensures TowardZero(d, x)
  {
    if x >= 0.0 then x.Floor else -((-x).Floor)
  }

  function ComputeBackoff(p: RetryPolicy, attempt: int, jitter: real): int {
    Trunc(Base(p, attempt) * jitter)
  }

  /** The policies that the defaults and sensible options produce. */
  predicate Growing(p: RetryPolicy) {
    p.initialBackoff > 0 && p.maxBackoff > 0 && p.multiplier >= 1.0
  }

  predicate Jitter(j: real) { 0.5 <= j < 1.5 }

  lemma {:induction false} PowAtLeastOne(x: real, n: nat)
    requires x >= 1.0
    ensures Pow(x, n) >= 1.0
  {
    if n > 0 {
      PowAtLeastOne(x, n - 1);
      ScaleUp(x, 1.0, Pow(x, n - 1));
    }
  }

  lemma ScaleUp(x: real, a: real, b: real)
    requires x >= 0.0 && a <= b
    ensures x * a <= x * b
  {
    assert x * (b - a) >= 0.0;
  }

  lemma {:induction false} PowGrows(x: real, m: nat, n: nat)
    requires x >= 1.0 && m <= n
    ensures Pow(x, m) <= Pow(x, n)
    decreases n
  {
    if m < n {
      PowGrows(x, m, n - 1);
      PowAtLeastOne(x, n - 1);
      assert (x - 1.0) * Pow(x, n - 1) >= 0.0;
    }
  }

  /** The base delay never decreases from one attempt to the next and never exceeds the cap. */
  lemma BaseGrowsToCap(p: RetryPolicy, a: int, b: int)
    requires Growing(p) && a <= b
    ensures 0.0 < Base(p, a) <= Base(p, b) <= p.maxBackoff as real
  {
    var m, n := Max(a, 1) - 1, Max(b, 1) - 1;
    PowGrows(p.multiplier, m, n);
    PowAtLeastOne(p.multiplier, m);
    ScaleUp(p.initialBackoff as real, Pow(p.multiplier, m), Pow(p.multiplier, n));
    ScaleUp(p.initialBackoff as real, 1.0, Pow(p.multiplier, m));
  }

  /** The delays start at the initial one and each is the multiplier times the one before, up to the cap. */
  lemma BaseRecurrence(p: RetryPolicy, attempt: int)
    requires Growing(p) && attempt >= 1
    ensures Base(p, 1) == RealMin(p.initialBackoff as real, p.maxBackoff as real)
    ensures Base(p, attempt + 1) == RealMin(p.multiplier * Base(p, attempt), p.maxBackoff as real)
  {
    FirstBase(p);
    NextBase(p, attempt);
  }

  lemma FirstBase(p: RetryPolicy)
    requires Growing(p)
    ensures Base(p, 1) == RealMin(p.initialBackoff as real, p.maxBackoff as real)
  {
    assert Pow(p.multiplier, 0) == 1.0;
    BaseIsCapped(p, 1);
  }

  lemma NextBase(p: RetryPolicy, attempt: int)
    requires Growing(p) && attempt >= 1
    ensures Base(p, attempt + 1) == RealMin(p.multiplier * Base(p, attempt), p.maxBackoff as real)
  {
    BaseIsCapped(p, attempt);
    BaseIsCapped(p, attempt + 1);
    NextCapped(p, attempt - 1);
  }

  lemma NextCapped(p: RetryPolicy, n: nat)
    requires Growing(p)
    ensures var cap := p.maxBackoff as real;
            RealMin(Grown(p, n + 1), cap) == RealMin(p.multiplier * RealMin(Grown(p, n), cap), cap)
  {
    GrownStep(p, n);
    CapStep(p.multiplier, Grown(p, n), p.maxBackoff as real);
  }

  lemma BaseIsCapped(p: RetryPolicy, attempt: int)
    requires Growing(p) && attempt >= 1
    ensures Base(p, attempt) == RealMin(Grown(p, attempt - 1), p.maxBackoff as real)
  {
  }

  /** Capping before or after multiplying gives the same capped value. */
  lemma CapStep(m: real, g: real, cap: real)
    requires m >= 1.0 && cap > 0.0
    ensures RealMin(m * RealMin(g, cap), cap) == RealMin(m * g, cap)
  {
    if g >= cap { OverStaysOver(m, g, cap); }
  }

  function RealMin(a: real, b: real): real { if a < b then a else b }

  lemma GrownStep(p: RetryPolicy, n: nat)
    ensures Grown(p, n + 1) == p.multiplier * Grown(p, n)
  {
    var i, m, w := p.initialBackoff as real, p.multiplier, Pow(p.multiplier, n);
    assert i * (m * w) == m * (i * w);
  }

  lemma OverStaysOver(m: real, g: real, cap: real)
    requires m >= 1.0 && g >= cap > 0.0
    ensures m * g >= cap && m * cap >= cap
  {
    assert (m - 1.0) * g >= 0.0;
    assert (m - 1.0) * cap >= 0.0;
  }

  /** Bernoulli's inequality. */
  lemma {:induction false} Bernoulli(x: real, n: nat)
    requires x >= 0.0
    ensures Pow(1.0 + x, n) >= 1.0 + n as real * x
  {
    if n > 0 {
      Bernoulli(x, n - 1);
      var k := (n - 1) as real;
      ScaleUp(1.0 + x, 1.0 + k * x, Pow(1.0 + x, n - 1));
      assert (1.0 + x) * (1.0 + k * x) == 1.0 + (k + 1.0) * x + k * x * x;
      assert k * x >= 0.0;
      assert (k * x) * x >= 0.0;
    }
  }

  /** How many linear growth steps of the first delay make up the cap. */
  function StepsToCap(p: RetryPolicy): (q: real)
    requires Growing(p) && p.multiplier > 1.0
    ensures q > 0.0 && q * (p.initialBackoff as real * (p.multiplier - 1.0)) == p.maxBackoff as real
  {
    var step := p.initialBackoff as real * (p.multiplier - 1.0);
    assert step > 0.0;
    p.maxBackoff as real / step
  }

  /** From this attempt on the base delay is the cap. */
  function CapAttempt(p: RetryPolicy): nat
    requires Growing(p) && p.multiplier > 1.0
  {
    StepsToCap(p).Floor + 2
  }

  lemma CapReached(p: RetryPolicy, attempt: int)
    requires Growing(p) && p.multiplier > 1.0 && attempt >= CapAttempt(p)
    ensures Base(p, attempt) == p.maxBackoff as real
  {
    GrownOverCap(p, attempt - 1);
  }

  lemma GrownOverCap(p: RetryPolicy, n: nat)
    requires Growing(p) && p.multiplier > 1.0 && n >= StepsToCap(p).Floor + 1
    ensures Grown(p, n) > p.maxBackoff as real
  {
    var x, r := p.multiplier - 1.0, n as real;
    assert r >= StepsToCap(p);
    Bernoulli(x, n);
    OverCap(p.initialBackoff as real, x, StepsToCap(p), r, Pow(p.multiplier, n));
  }

  lemma OverCap(init: real, x: real, q: real, r: real, pow: real)
    requires init > 0.0 && x > 0.0 && q <= r && pow >= 1.0 + r * x
    ensures init * pow > q * (init * x)
  {
    ScaleUp(init, 1.0 + r * x, pow);
    ScaleUp(init * x, q, r);
    assert init * (1.0 + r * x) == init + (init * x) * r;
  }

  /** Every delay lies within half of the base around it, up to the dropped fraction. */
  lemma DelayInBand(p: RetryPolicy, attempt: int, jitter: real)
    requires Growing(p) && Jitter(jitter)
    ensures var delay, base := Base(p, attempt) * jitter, Base(p, attempt);
            && 0.5 * base <= delay < 1.5 * base
            && 0 <= ComputeBackoff(p, attempt, jitter)
            && delay - 1.0 < ComputeBackoff(p, attempt, jitter) as real <= delay
  {
    BaseGrowsToCap(p, attempt, attempt);
    var base := Base(p, attempt);
    ScaleUp(base, 0.5, jitter);
    assert base * (1.5 - jitter) > 0.0;
  }

  /** The waits of a whole streak: one before each attempt but the first. */
  function TotalDelay(p: RetryPolicy, jitters: seq<real>): int {
    if jitters == [] then 0
    else TotalDelay(p, jitters[..|jitters| - 1]) + ComputeBackoff(p, |jitters|, jitters[|jitters| - 1])
  }

  /** 1 + q + ... + q^(n-1). */
  function Geometric(q: real, n: nat): real {
    if n == 0 then 0.0 else Geometric(q, n - 1) + Pow(q, n - 1)
  }

  lemma {:induction false} GeometricClosed(q: real, n: nat)
    ensures Geometric(q, n) * (q - 1.0) == Pow(q, n) - 1.0
  {
    if n > 0 {
      GeometricClosed(q, n - 1);
      var g, w := Geometric(q, n - 1), Pow(q, n - 1);
      assert (g + w) * (q - 1.0) == g * (q - 1.0) + w * (q - 1.0);
    }
  }

  /** The sum of the first n delays without clamp and jitter. */
  function Unclamped(p: RetryPolicy, n: nat): real {
    if n == 0 then 0.0 else Unclamped(p, n - 1) + Grown(p, n - 1)
  }

  /** Without clamp and jitter a streak waits initial * (1 + m + ... + m^(n-1)), in closed form initial * (m^n - 1)
      over m - 1. */
  lemma {:induction false} UnclampedIsGeometric(p: RetryPolicy, n: nat)
    ensures Unclamped(p, n) == p.initialBackoff as real * Geometric(p.multiplier, n)
    ensures Unclamped(p, n) * (p.multiplier - 1.0) == p.initialBackoff as real * (Pow(p.multiplier, n) - 1.0)
  {
    UnclampedSum(p, n);
    GeometricClosed(p.multiplier, n);
    Associate(p.initialBackoff as real, Geometric(p.multiplier, n), p.multiplier - 1.0);
  }

  lemma Associate(a: real, x: real, y: real)
    ensures a * x * y == a * (x * y)
  {
  }

  lemma {:induction false} UnclampedSum(p: RetryPolicy, n: nat)
    ensures Unclamped(p, n) == p.initialBackoff as real * Geometric(p.multiplier, n)
  {
    if n > 0 {
      UnclampedSum(p, n - 1);
      Spread(p.initialBackoff as real, Geometric(p.multiplier, n - 1), Pow(p.multiplier, n - 1));
    }
  }

  lemma Spread(a: real, x: real, y: real)
    ensures a * (x + y) == a * x + a * y
  {
  }

  predicate Jitters(js: seq<real>) { forall i :: 0 <= i < |js| ==> Jitter(js[i]) }

  /** A streak of k retries waits at most 1.5 * k * maxBackoff in total. */
  lemma {:induction false} StreakDelayCapped(p: RetryPolicy, jitters: seq<real>)
    requires Growing(p) && Jitters(jitters)
    ensures 0 <= 2 * TotalDelay(p, jitters) <= 3 * (|jitters| * p.maxBackoff)
  {
    var k := |jitters|;
    if k > 0 {
      StreakDelayCapped(p, jitters[..k - 1]);
      LastDelayBounded(p, k, jitters[k - 1]);
      assert k * p.maxBackoff == (k - 1) * p.maxBackoff + p.maxBackoff;
    }
  }

  /** It also waits at most one and a half times the geometric sum of the unclamped delays. */
  lemma {:induction false} StreakDelayGeometric(p: RetryPolicy, jitters: seq<real>)
    requires Growing(p) && Jitters(jitters)
    ensures TotalDelay(p, jitters) as real <= 1.5 * Unclamped(p, |jitters|)
  {
    var k := |jitters|;
    if k > 0 {
      StreakDelayGeometric(p, jitters[..k - 1]);
      LastDelayBounded(p, k, jitters[k - 1]);
    }
  }

  lemma LastDelayBounded(p: RetryPolicy, k: nat, jitter: real)
    requires Growing(p) && Jitter(jitter) && k > 0
    ensures 0 <= 2 * ComputeBackoff(p, k, jitter) <= 3 * p.maxBackoff
    ensures ComputeBackoff(p, k, jitter) as real <= 1.5 * Grown(p, k - 1)
  {
    DelayInBand(p, k, jitter);
    BaseGrowsToCap(p, k, k);
    var d := ComputeBackoff(p, k, jitter) as real;
    assert d <= Base(p, k) * jitter;
    assert d <= 1.5 * Base(p, k);
    assert Base(p, k) <= p.maxBackoff as real;
  }
}
