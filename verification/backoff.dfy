/** The backoff schedule of `pkg/protorun/retry.go` over exact reals: durations are real
    numbers of nanoseconds, and the random draw of the jitter is a parameter in [0, 1). */
module Backoff {

  datatype Policy = Policy(initial: real, max: real, multiplier: real, maxAttempts: int, jitter: real)

  /** `withDefaults`. A zero jitter stays zero. */
  function WithDefaults(p: Policy): Policy {
    Policy(
      if p.initial <= 0.0 then 100_000_000.0 else p.initial,
      if p.max <= 0.0 then 30_000_000_000.0 else p.max,
      if p.multiplier <= 1.0 then 2.0 else p.multiplier,
      p.maxAttempts,
      if p.jitter < 0.0 then 0.0 else if p.jitter > 1.0 then 1.0 else p.jitter)
  }

  ghost predicate Usable(p: Policy) {
    p.initial > 0.0 && p.max > 0.0 && p.multiplier > 1.0 && 0.0 <= p.jitter <= 1.0
  }

  lemma DefaultsAreUsable(p: Policy)
    ensures Usable(WithDefaults(p))
    ensures Usable(p) ==> WithDefaults(p) == p
  {
  }

  /** Each setting is kept if it makes sense and replaced on its own otherwise: 100ms, 30s and
      a factor of 2, in nanoseconds where it is a time; jitter is clamped to [0, 1]. */
  lemma DefaultsAreDocumented(p: Policy)
    ensures var q := WithDefaults(p);
            && (p.initial > 0.0 ==> q.initial == p.initial) && (p.initial <= 0.0 ==> q.initial == 100_000_000.0)
            && (p.max > 0.0 ==> q.max == p.max) && (p.max <= 0.0 ==> q.max == 30_000_000_000.0)
            && (p.multiplier > 1.0 ==> q.multiplier == p.multiplier) && (p.multiplier <= 1.0 ==> q.multiplier == 2.0)
            && (0.0 <= p.jitter <= 1.0 ==> q.jitter == p.jitter)
            && (p.jitter < 0.0 ==> q.jitter == 0.0) && (p.jitter > 1.0 ==> q.jitter == 1.0)
            && q.maxAttempts == p.maxAttempts
  {
  }

  function Pow(x: real, n: nat): real {
    if n == 0 then 1.0 else x * Pow(x, n - 1)
  }

  function Min(a: real, b: real): real {
    if a <= b then a else b
  }

  /** The delay before jitter: exponential growth, capped. */
  function Base(p: Policy, attempt: nat): real {
    Min(p.initial * Pow(p.multiplier, attempt), p.max)
  }

  /** The jitter factor, between 1 - j/2 and 1 + j/2. */
  function Factor(j: real, draw: real): real {
    1.0 - j / 2.0 + draw * j
  }

  function NextDelay(p: Policy, attempt: nat, draw: real): real {
    if p.jitter > 0.0 then Base(p, attempt) * Factor(p.jitter, draw) else Base(p, attempt)
  }

  lemma MulMono(a: real, b: real, c: real)
    requires a <= b && c >= 0.0
    ensures a * c <= b * c
  {
    assert b * c - a * c == (b - a) * c;
  }

  lemma MulCommutes(a: real, b: real)
    ensures a * b == b * a
  {
  }

  lemma ProductMono(a: real, b: real, x: real, y: real)
    requires 0.0 <= a <= b && 0.0 <= x <= y
    ensures a * x <= b * y
  {
    calc <= {
      a * x;
      { MulMono(a, b, x); }
      b * x;
      { MulCommutes(b, x); }
      x * b;
      { MulMono(x, y, b); }
      y * b;
      { MulCommutes(y, b); }
      b * y;
    }
  }

  lemma Bernoulli(m: real, d: real, power: real)
    requires m >= 0.0 && d > 0.0 && power >= 1.0 + m * d
    ensures (1.0 + d) * power >= 1.0 + (m + 1.0) * d
    ensures (1.0 + d) * power >= power >= 1.0
  {
    var md := m * d;
    MulMono(0.0, m, d);
    MulMono(1.0, power, d);
    calc {
      (1.0 + d) * power;
      power + d * power;
      { MulCommutes(d, power); }
      power + power * d;
    }
    assert (m + 1.0) * d == md + d;
  }

  /** Bernoulli's inequality: powers of a factor above one outgrow every linear bound. */
  lemma {:induction false} PowGrows(x: real, n: nat)
    requires x > 1.0
    ensures Pow(x, n) >= 1.0 + n as real * (x - 1.0)
    ensures Pow(x, n + 1) >= Pow(x, n) >= 1.0
  {
    if n == 0 {
      assert Pow(x, 1) == x * Pow(x, 0);
    } else {
      PowGrows(x, n - 1);
      var d := x - 1.0;
      Bernoulli((n - 1) as real, d, Pow(x, n - 1));
      assert 1.0 + d == x && (n - 1) as real + 1.0 == n as real;
      assert Pow(x, n) == (1.0 + d) * Pow(x, n - 1);
      Bernoulli(n as real, d, Pow(x, n));
      assert Pow(x, n + 1) == (1.0 + d) * Pow(x, n);
    }
  }

  lemma PowRises(x: real, n: nat)
    requires x > 1.0
    ensures Pow(x, n + 1) >= Pow(x, n) >= 1.0
  {
    PowGrows(x, n);
  }

  lemma MinMono(x: real, y: real, m: real)
    requires x <= y
    ensures Min(x, m) <= Min(y, m) <= m
  {
  }

  lemma ScaledMin(initial: real, max: real, a: real, b: real)
    requires initial > 0.0 && 1.0 <= a <= b
    ensures Min(initial, max) <= Min(initial * a, max) <= Min(initial * b, max) <= max
  {
    ProductMono(initial, initial, 1.0, a);
    ProductMono(initial, initial, a, b);
    MinMono(initial, initial * a, max);
    MinMono(initial * a, initial * b, max);
  }

  /** The capped schedule never falls, starts at min(initial, max) and never exceeds max. */
  lemma BaseGrows(p: Policy, attempt: nat)
    requires Usable(p)
    ensures Min(p.initial, p.max) <= Base(p, attempt) <= Base(p, attempt + 1) <= p.max
  {
    PowRises(p.multiplier, attempt);
    ScaledMin(p.initial, p.max, Pow(p.multiplier, attempt), Pow(p.multiplier, attempt + 1));
  }

  lemma {:induction false} BaseMonotone(p: Policy, a: nat, b: nat)
    requires Usable(p) && a <= b
    ensures Base(p, a) <= Base(p, b) <= p.max
    decreases b
  {
    if a == b {
    } else {
      BaseMonotone(p, a, b - 1);
      BaseGrows(p, b - 1);
    }
  }

  /** After finitely many attempts the schedule reaches max, and it stays there. */
  lemma BaseReachesMax(p: Policy) returns (n: nat)
    requires Usable(p)
    ensures forall attempt: nat :: attempt >= n ==> Base(p, attempt) == p.max
  {
    n := Enough(p.initial, p.max, p.multiplier - 1.0);
    PowGrows(p.multiplier, n);
    ProductMono(p.initial, p.initial, n as real * (p.multiplier - 1.0), Pow(p.multiplier, n));
    forall attempt: nat | attempt >= n ensures Base(p, attempt) == p.max {
      BaseMonotone(p, n, attempt);
    }
  }

  lemma Enough(initial: real, max: real, d: real) returns (n: nat)
    requires initial > 0.0 && max > 0.0 && d > 0.0
    ensures initial * (n as real * d) >= max
  {
    var ratio := max / initial;
    assert ratio > 0.0 && initial * ratio == max;
    var need := ratio / d;
    assert need > 0.0 && need * d == ratio;
    n := need.Floor + 1;
    ProductMono(need, n as real, d, d);
    ProductMono(initial, initial, ratio, n as real * d);
  }

  lemma FactorBounds(j: real, draw: real)
    requires 0.0 <= j <= 1.0 && 0.0 <= draw < 1.0
    ensures 0.0 <= 1.0 - j / 2.0 <= Factor(j, draw) <= 1.0 + j / 2.0
  {
    MulMono(0.0, draw, j);
    MulMono(draw, 1.0, j);
  }

  /** The delay is the capped schedule times a factor within half the jitter of one. */
  lemma DelayIsScaled(p: Policy, attempt: nat, draw: real) returns (factor: real)
    requires Usable(p) && 0.0 <= draw < 1.0
    ensures NextDelay(p, attempt, draw) == Base(p, attempt) * factor
    ensures 0.0 <= 1.0 - p.jitter / 2.0 <= factor <= 1.0 + p.jitter / 2.0
  {
    FactorBounds(p.jitter, draw);
    factor := if p.jitter > 0.0 then Factor(p.jitter, draw) else 1.0;
  }

  lemma ScaledBounds(least: real, base: real, max: real, j: real, factor: real)
    requires 0.0 <= least <= base <= max && 0.0 <= 1.0 - j / 2.0 <= factor <= 1.0 + j / 2.0
    ensures least * (1.0 - j / 2.0) <= base * factor <= max * (1.0 + j / 2.0)
  {
    ProductMono(least, base, 1.0 - j / 2.0, factor);
    ProductMono(base, max, factor, 1.0 + j / 2.0);
  }

  /** The schedule and the factor that make up a delay. */
  lemma DelayParts(p: Policy, attempt: nat, draw: real) returns (base: real, factor: real)
    requires Usable(p) && 0.0 <= draw < 1.0
    ensures NextDelay(p, attempt, draw) == base * factor
    ensures 0.0 <= Min(p.initial, p.max) <= base <= p.max
    ensures 0.0 <= 1.0 - p.jitter / 2.0 <= factor <= 1.0 + p.jitter / 2.0
  {
    base := Base(p, attempt);
    factor := DelayIsScaled(p, attempt, draw);
    BaseGrows(p, attempt);
  }

  /** The jittered ends of the capped schedule. */
  function Least(p: Policy): real {
    Min(p.initial, p.max) * (1.0 - p.jitter / 2.0)
  }

  function Most(p: Policy): real {
    p.max * (1.0 + p.jitter / 2.0)
  }

  lemma UsableDelayBounds(p: Policy, attempt: nat, draw: real)
    requires Usable(p) && 0.0 <= draw < 1.0
    ensures 0.0 <= Least(p) <= NextDelay(p, attempt, draw) <= Most(p)
  {
    var base, factor := DelayParts(p, attempt, draw);
    ScaledBounds(Min(p.initial, p.max), base, p.max, p.jitter, factor);
    ProductMono(0.0, Min(p.initial, p.max), 0.0, 1.0 - p.jitter / 2.0);
  }

  /** The duration handed to the timer: `time.Duration` truncates to whole nanoseconds. */
  function Nanoseconds(p: Policy, attempt: nat, draw: real): int {
    NextDelay(p, attempt, draw).Floor
  }

  lemma FloorBetween(lo: real, x: real, hi: real)
    requires 0.0 <= lo <= x <= hi
    ensures 0 <= x.Floor && lo < x.Floor as real + 1.0 && x.Floor as real <= hi
  {
  }

  /** Every delay lies between the jittered ends of the capped schedule, and truncation to
      whole nanoseconds takes less than one nanosecond off it. */
  lemma DelayBounds(p: Policy, attempt: nat, draw: real)
    requires 0.0 <= draw < 1.0
    ensures var q := WithDefaults(p);
            && Least(q) <= NextDelay(q, attempt, draw) <= Most(q)
            && 0 <= Nanoseconds(q, attempt, draw)
            && 0.0 <= NextDelay(q, attempt, draw) - Nanoseconds(q, attempt, draw) as real < 1.0
            && Least(q) < Nanoseconds(q, attempt, draw) as real + 1.0
            && Nanoseconds(q, attempt, draw) as real <= Most(q)
  {
    DefaultsAreUsable(p);
    var q := WithDefaults(p);
    UsableDelayBounds(q, attempt, draw);
    FloorBetween(Least(q), NextDelay(q, attempt, draw), Most(q));
  }

  /** The delay stays below the top of the jitter range of its own attempt. */
  lemma DelayBelowTop(p: Policy, attempt: nat, draw: real)
    requires Usable(p) && 0.0 <= draw < 1.0
    ensures NextDelay(p, attempt, draw) <= Base(p, attempt) * (1.0 + p.jitter / 2.0)
  {
    BaseGrows(p, attempt);
    var factor := DelayIsScaled(p, attempt, draw);
    ProductMono(Base(p, attempt), Base(p, attempt), factor, 1.0 + p.jitter / 2.0);
  }

  lemma DelayOverCap(p: Policy, attempt: nat) returns (draw: real)
    requires Usable(p) && Base(p, attempt) * (1.0 + p.jitter / 2.0) > p.max
    ensures 0.0 <= draw < 1.0 && NextDelay(p, attempt, draw) > p.max
  {
    BaseGrows(p, attempt);
    NothingToSpread(Base(p, attempt), p.jitter);
    draw := OverCap(Base(p, attempt), p.jitter, p.max);
  }

  lemma NothingToSpread(base: real, j: real)
    ensures j == 0.0 ==> base * (1.0 + j / 2.0) == base
  {
  }

  /** The documented cap on any single delay holds for every draw exactly when the jittered
      top of the schedule stays below it; jitter is applied after the cap. */
  lemma CapCondition(p: Policy, attempt: nat)
    requires Usable(p)
    ensures (forall draw :: 0.0 <= draw < 1.0 ==> NextDelay(p, attempt, draw) <= p.max)
       <==> Base(p, attempt) * (1.0 + p.jitter / 2.0) <= p.max
  {
    var top := Base(p, attempt) * (1.0 + p.jitter / 2.0);
    if top <= p.max {
      forall draw | 0.0 <= draw < 1.0 ensures NextDelay(p, attempt, draw) <= p.max {
        DelayBelowTop(p, attempt, draw);
      }
    } else {
      var draw := DelayOverCap(p, attempt);
      assert NextDelay(p, attempt, draw) > p.max;
    }
  }

  /** A draw close enough to one carries the delay over the cap. */
  lemma OverCap(base: real, j: real, max: real) returns (draw: real)
    requires 0.0 < base <= max && 0.0 < j <= 1.0 && base * (1.0 + j / 2.0) > max
    ensures 0.0 <= draw < 1.0 && base * Factor(j, draw) > max
  {
    var span := base * j;
    assert span > 0.0;
    var gap := base * (1.0 + j / 2.0) - max;
    assert base * (1.0 + j / 2.0) == base + span / 2.0;
    var slack := gap / (2.0 * span);
    assert slack * span == gap / 2.0;
    assert slack > 0.0;
    assert slack < 1.0 by {
      if slack >= 1.0 { MulMono(1.0, slack, span); }
    }
    draw := 1.0 - slack;
    assert base * Factor(j, draw) == base + span / 2.0 - slack * span;
  }

  // --- the schedule itself ------------------------------------------------------------------------

  /** The policy without its jitter. */
  function Steady(p: Policy): Policy {
    p.(jitter := 0.0)
  }

  /** The first delay is the initial one, or the cap if that is less. */
  lemma ScheduleStarts(p: Policy, draw: real)
    requires Usable(p)
    ensures NextDelay(Steady(p), 0, draw) == Min(p.initial, p.max)
  {
  }

  lemma CapThenScale(x: real, m: real, max: real)
    requires m > 1.0 && max > 0.0
    ensures Min(m * x, max) == Min(m * Min(x, max), max)
  {
    if x > max {
      MulMono(1.0, m, max);
      ProductMono(m, m, max, x);
    }
  }

  /** Every further delay is the one before times the multiplier, up to the cap. */
  lemma ScheduleGoesOn(p: Policy, attempt: nat, draw: real)
    requires Usable(p)
    ensures NextDelay(Steady(p), attempt + 1, draw) == Min(p.multiplier * NextDelay(Steady(p), attempt, draw), p.max)
  {
    var power := Pow(p.multiplier, attempt);
    Reorder(p.initial, p.multiplier, power);
    CapThenScale(p.initial * power, p.multiplier, p.max);
  }

  lemma Reorder(a: real, b: real, c: real)
    ensures a * (b * c) == b * (a * c)
  {
  }

  /** Jitter takes the steady delay down by half the jitter and up again in proportion to the
      draw. */
  lemma JitterSpreads(p: Policy, attempt: nat, draw: real)
    requires Usable(p)
    ensures var steady := NextDelay(Steady(p), attempt, draw);
            NextDelay(p, attempt, draw) == steady * (1.0 - p.jitter / 2.0 + draw * p.jitter)
  {
    Unjittered(p, draw);
  }

  lemma Unjittered(p: Policy, draw: real)
    ensures p.jitter == 0.0 ==> 1.0 - p.jitter / 2.0 + draw * p.jitter == 1.0
  {
  }
}
