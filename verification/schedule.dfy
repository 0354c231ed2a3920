/** The interval formula of ExponentialBackoff: growth, capping and jitter,
    as pure functions over exact reals. Wherever the Ruby code calls `rand`,
    the value it returned is an explicit `draw` parameter. */
module Schedule {

  /** The four numbers `interval_at` reads from the object: the minimal
      interval, the maximum elapsed time, the multiplier and the
      randomize factor. */
  datatype Config = Config(minimal: real, maximum: real, multiplier: real, randomizeFactor: real)

  // ---------------------------------------------------------------------------
  // Powers

  /** `base ** exponent` for a natural exponent. */
  function Pow(base: real, exponent: nat): real
  {
    if exponent == 0 then 1.0 else base * Pow(base, exponent - 1)
  }

  // Small facts of real arithmetic, each proved in a context of its own.

  lemma MulNonNegative(a: real, b: real)
    requires a >= 0.0 && b >= 0.0
    ensures a * b >= 0.0
  {
  }

  lemma MulMonotone(a: real, x: real, y: real)
    requires a >= 0.0 && x <= y
    ensures a * x <= a * y
  {
    MulNonNegative(a, y - x);
    assert a * (y - x) == a * y - a * x;
  }

  lemma AddBound(s: real, y: real, m: real, x: real)
    requires s <= m * x && y <= x
    ensures s + y <= (m + 1.0) * x
  {
    assert m * x + x == (m + 1.0) * x;
  }

  lemma MulStrictMonotone(a: real, x: real, y: real)
    requires a > 0.0 && x < y
    ensures a * x < a * y
  {
    assert a * (y - x) == a * y - a * x;
  }

  /** `d * q < d * x` read with the factors of the right side swapped. */
  lemma ProductOrder(d: real, q: real, x: real, t: real)
    requires d * q < d * x && q * d == t
    ensures x * d > t
  {
    assert x * d == d * x;
    assert q * d == d * q;
  }

  lemma {:induction false} PowNonNegative(m: real, n: nat)
    requires m >= 0.0
    ensures Pow(m, n) >= 0.0
  {
    if n > 0 {
      PowNonNegative(m, n - 1);
      MulNonNegative(m, Pow(m, n - 1));
    }
  }

  lemma {:induction false} PowAtLeastOne(m: real, n: nat)
    requires m >= 1.0
    ensures Pow(m, n) >= 1.0
  {
    if n > 0 {
      PowAtLeastOne(m, n - 1);
      MulMonotone(Pow(m, n - 1), 1.0, m);
    }
  }

  /** A multiplier of at least one never makes the power shrink. */
  lemma {:induction false} PowMonotone(m: real, i: nat, j: nat)
    requires m >= 1.0 && i <= j
    ensures 1.0 <= Pow(m, i) <= Pow(m, j)
    decreases j
  {
    if i == j {
      PowAtLeastOne(m, i);
    } else {
      PowMonotone(m, i, j - 1);
      MulMonotone(Pow(m, j - 1), 1.0, m);
    }
  }

  /** Bernoulli's inequality: the power grows at least linearly. */
  lemma {:induction false} Bernoulli(m: real, n: nat)
    requires m >= 1.0
    ensures Pow(m, n) >= 1.0 + (n as real) * (m - 1.0)
  {
    if n > 0 {
      Bernoulli(m, n - 1);
      var p := Pow(m, n - 1);
      var k := (n - 1) as real;
      var d := m - 1.0;
      var kd := k * d;
      MulMonotone(m, 1.0 + kd, p);
      assert Pow(m, n) == m * p;
      MulNonNegative(k, d);
      MulNonNegative(kd, d);
      assert m * (1.0 + kd) == 1.0 + d + kd + kd * d;
      assert (n as real) * d == kd + d;
    }
  }

  // ---------------------------------------------------------------------------
  // The three steps of `interval_at`

  /** `regular_interval`: `initial * multiplier ** iteration`. */
  function RegularInterval(initial: real, multiplier: real, iteration: nat): (r: real)
    ensures initial >= 0.0 && multiplier >= 0.0 ==> r >= 0.0
    ensures initial >= 0.0 && multiplier >= 1.0 ==> r >= initial
  {
    ScaledPowBounds(initial, multiplier, iteration);
    initial * Pow(multiplier, iteration)
  }

  lemma ScaledPowBounds(a: real, m: real, n: nat)
    ensures a >= 0.0 && m >= 0.0 ==> a * Pow(m, n) >= 0.0
    ensures a >= 0.0 && m >= 1.0 ==> a * Pow(m, n) >= a
  {
    if a >= 0.0 && m >= 0.0 {
      PowNonNegative(m, n);
      MulNonNegative(a, Pow(m, n));
    }
    if a >= 0.0 && m >= 1.0 {
      PowAtLeastOne(m, n);
      MulMonotone(a, 1.0, Pow(m, n));
    }
  }

  /** `capped_interval`: the smaller of the maximum and the interval. */
  function CappedInterval(maximum: real, interval: real): (r: real)
    ensures r <= maximum && r <= interval
    ensures r == maximum || r == interval
  {
    if maximum <= interval then maximum else interval
  }

  /** The two ends of the jitter window around `interval`. */
  function JitterLow(factor: real, interval: real): real
  {
    (1.0 - factor) * interval
  }

  function JitterHigh(factor: real, interval: real): real
  {
    (1.0 + factor) * interval
  }

  /** `randomized_interval`: with no randomize factor the interval is
      returned unchanged; otherwise the result is `rand(max - min) + min`,
      where `draw` is the value that `rand(max - min)` returned. */
  function RandomizedInterval(factor: real, interval: real, draw: real): (r: real)
    ensures factor == 0.0 ==> r == interval
    ensures factor != 0.0 && draw >= 0.0 ==> r >= JitterLow(factor, interval)
    ensures 0.0 <= factor <= 1.0 && interval >= 0.0 && draw >= 0.0 ==> r >= 0.0
  {
    assert 0.0 <= factor <= 1.0 && interval >= 0.0 ==> JitterLow(factor, interval) >= 0.0 by {
      if 0.0 <= factor <= 1.0 && interval >= 0.0 {
        MulNonNegative(1.0 - factor, interval);
      }
    }
    if factor == 0.0 then interval
    else draw + JitterLow(factor, interval)
  }

  /** `interval_at` before jitter: the regular interval capped at the maximum. */
  function CappedAt(c: Config, iteration: nat): (r: real)
    ensures r <= c.maximum
  {
    CappedInterval(c.maximum, RegularInterval(c.minimal, c.multiplier, iteration))
  }

  /** `interval_at(iteration)`, with `draw` standing for the jitter draw. */
  function IntervalAt(c: Config, iteration: nat, draw: real): (r: real)
    ensures c.randomizeFactor == 0.0 ==> r <= c.maximum
  {
    RandomizedInterval(c.randomizeFactor, CappedAt(c, iteration), draw)
  }

  /** `intervals_for(range)`: `interval_at` mapped over the iterations, in
      order; the k-th element uses the k-th draw. */
  function IntervalsFor(c: Config, iterations: seq<nat>, draws: nat -> real): (r: seq<real>)
    ensures |r| == |iterations|
    ensures forall k :: 0 <= k < |r| ==> r[k] == IntervalAt(c, iterations[k], draws(k))
  {
    if iterations == [] then []
    else
      var n := |iterations| - 1;
      IntervalsFor(c, iterations[..n], draws) + [IntervalAt(c, iterations[n], draws(n))]
  }

  // ---------------------------------------------------------------------------
  // Properties of the formula without jitter

  /** Without jitter, `interval_at(i)` is `min(maximum, minimal * multiplier ** i)`,
      whatever the draw. */
  lemma UnjitteredIntervalAt(c: Config, i: nat, draw: real)
    requires c.randomizeFactor == 0.0
    ensures IntervalAt(c, i, draw) == CappedAt(c, i)
    ensures IntervalAt(c, i, draw) <= c.maximum
    ensures IntervalAt(c, i, draw) <= c.minimal * Pow(c.multiplier, i)
    ensures IntervalAt(c, i, draw) == c.maximum || IntervalAt(c, i, draw) == c.minimal * Pow(c.multiplier, i)
  {
  }

  /** The first interval is the minimal interval, when it lies under the cap. */
  lemma FirstIntervalIsMinimal(c: Config, draw: real)
    requires c.randomizeFactor == 0.0 && c.minimal <= c.maximum
    ensures IntervalAt(c, 0, draw) == c.minimal
  {
  }

  /** Without jitter, the schedule never decreases. */
  lemma IntervalAtMonotone(c: Config, i: nat, j: nat, u: real, v: real)
    requires c.randomizeFactor == 0.0 && c.minimal >= 0.0 && c.multiplier >= 1.0
    requires i <= j
    ensures IntervalAt(c, i, u) <= IntervalAt(c, j, v)
  {
    PowMonotone(c.multiplier, i, j);
    var pi, pj := Pow(c.multiplier, i), Pow(c.multiplier, j);
    assert c.minimal * pj - c.minimal * pi == c.minimal * (pj - pi);
    assert c.minimal * (pj - pi) >= 0.0;
  }

  /** With non-negative bounds and multiplier, a randomize factor in `[0, 1]`
      and a non-negative draw, no interval is negative, so `sleep` never
      rejects one. */
  lemma IntervalAtNonNegative(c: Config, i: nat, draw: real)
    requires c.minimal >= 0.0 && c.maximum >= 0.0 && c.multiplier >= 0.0
    requires 0.0 <= c.randomizeFactor <= 1.0 && draw >= 0.0
    ensures IntervalAt(c, i, draw) >= 0.0
  {
    assert CappedAt(c, i) >= 0.0;
  }

  /** Once the schedule has reached the cap it stays there. */
  lemma CapIsAbsorbing(c: Config, i: nat, j: nat, u: real, v: real)
    requires c.randomizeFactor == 0.0 && c.minimal >= 0.0 && c.multiplier >= 1.0
    requires i <= j && IntervalAt(c, i, u) == c.maximum
    ensures IntervalAt(c, j, v) == c.maximum
  {
    IntervalAtMonotone(c, i, j, u, v);
  }

  /** How far the maximum lies above the minimal interval, in steps of
      `multiplier - 1` relative to the minimal interval. */
  function CapDistance(c: Config): (q: real)
    requires 0.0 < c.minimal < c.maximum && c.multiplier > 1.0
    ensures q > 0.0
    ensures q * (c.multiplier - 1.0) == c.maximum / c.minimal - 1.0
  {
    var ratio := c.maximum / c.minimal;
    assert ratio * c.minimal == c.maximum;
    assert ratio > 1.0 by {
      if ratio <= 1.0 {
        MulMonotone(c.minimal, ratio, 1.0);
      }
    }
    (ratio - 1.0) / (c.multiplier - 1.0)
  }

  /** An iteration at which a growing schedule has certainly reached the cap. */
  function StepsToCap(c: Config): nat
    requires c.minimal > 0.0 && c.multiplier > 1.0
  {
    if c.maximum <= c.minimal then 0 else CapDistance(c).Floor + 1
  }

  lemma BeyondRatio(a: real, b: real, p: real)
    requires a > 0.0 && p > b / a
    ensures a * p > b
  {
    MulStrictMonotone(a, b / a, p);
    assert a * (b / a) == b;
  }

  /** After `StepsToCap` steps the power of the multiplier exceeds the ratio
      of the maximum to the minimal interval. */
  lemma PowBeyondRatio(c: Config)
    requires 0.0 < c.minimal < c.maximum && c.multiplier > 1.0
    ensures Pow(c.multiplier, StepsToCap(c)) > c.maximum / c.minimal
  {
    var n := StepsToCap(c);
    var d := c.multiplier - 1.0;
    var q := CapDistance(c);
    var ratio := c.maximum / c.minimal;
    var nr := n as real;
    assert nr > q;
    MulStrictMonotone(d, q, nr);
    assert nr * d > ratio - 1.0 by {
      ProductOrder(d, q, nr, ratio - 1.0);
    }
    Bernoulli(c.multiplier, n);
  }

  /** With a positive minimal interval and a multiplier above one, the
      schedule reaches the cap, at `StepsToCap` at the latest. */
  lemma ReachesCap(c: Config, draw: real)
    requires c.randomizeFactor == 0.0 && c.minimal > 0.0 && c.multiplier > 1.0
    ensures IntervalAt(c, StepsToCap(c), draw) == c.maximum
  {
    var n := StepsToCap(c);
    if c.maximum > c.minimal {
      var p := Pow(c.multiplier, n);
      PowBeyondRatio(c);
      BeyondRatio(c.minimal, c.maximum, p);
      assert RegularInterval(c.minimal, c.multiplier, n) == c.minimal * p;
    }
    assert CappedAt(c, n) == c.maximum;
  }

  /** With a minimal interval of at least one and a multiplier of at least
      two, the k-th regular interval is at least k + 1. */
  lemma RegularAtLeastSucc(c: Config, k: nat)
    requires c.minimal >= 1.0 && c.multiplier >= 2.0
    ensures RegularInterval(c.minimal, c.multiplier, k) >= (k + 1) as real
  {
    Bernoulli(c.multiplier, k);
    var p := Pow(c.multiplier, k);
    MulMonotone(k as real, 1.0, c.multiplier - 1.0);
    PowAtLeastOne(c.multiplier, k);
    MulMonotone(p, 1.0, c.minimal);
    var kr := k as real;
    assert kr * 1.0 <= kr * (c.multiplier - 1.0);
    assert p >= 1.0 + kr;
    assert p * 1.0 <= p * c.minimal;
    assert c.minimal * p >= 1.0 + kr;
  }

  // ---------------------------------------------------------------------------
  // Jitter

  /** A draw as the jitter formula intends it: uniform on `[0, span)`. */
  predicate UniformDraw(span: real, draw: real)
  {
    0.0 <= draw < span
  }

  /** With a non-zero randomize factor and a draw in `[0, max - min)`, the
      randomized interval lies in the window `[(1 - r) c, (1 + r) c)`. */
  lemma JitterWindow(factor: real, interval: real, draw: real)
    requires factor != 0.0
    requires UniformDraw(JitterHigh(factor, interval) - JitterLow(factor, interval), draw)
    ensures RandomizedInterval(factor, interval, draw) == JitterLow(factor, interval) + draw
    ensures JitterLow(factor, interval) <= RandomizedInterval(factor, interval, draw) < JitterHigh(factor, interval)
  {
  }

  /** With jitter, `interval_at` may exceed the maximum, but by no more than
      the randomize factor allows: it stays below `(1 + r) * maximum`. */
  lemma JitteredIntervalBound(c: Config, i: nat, draw: real)
    requires 0.0 < c.randomizeFactor <= 1.0
    requires UniformDraw(JitterHigh(c.randomizeFactor, CappedAt(c, i)) - JitterLow(c.randomizeFactor, CappedAt(c, i)), draw)
    ensures JitterLow(c.randomizeFactor, CappedAt(c, i)) <= IntervalAt(c, i, draw)
    ensures IntervalAt(c, i, draw) < JitterHigh(c.randomizeFactor, c.maximum)
  {
    var r, x := c.randomizeFactor, CappedAt(c, i);
    JitterWindow(r, x, draw);
    assert (1.0 + r) * c.maximum - (1.0 + r) * x == (1.0 + r) * (c.maximum - x);
    assert (1.0 + r) * (c.maximum - x) >= 0.0;
  }

  // ---------------------------------------------------------------------------
  // What `rand(max - min)` actually returns

  /** Float#to_i: truncation toward zero. */
  function Truncate(x: real): int
  {
    if x >= 0.0 then x.Floor else -((-x).Floor)
  }

  /** The values Kernel#rand(max) can return: when `max.to_i.abs` is zero, a
      float in `[0, 1)`; otherwise an integer in `[0, max.to_i.abs)`. A Float
      argument is truncated first, so `rand(0.5)` behaves as `rand(0)` and
      `rand(2.5)` as `rand(2)`. */
  predicate KernelRandDraw(max: real, draw: real)
  {
    var bound := if Truncate(max) < 0 then -Truncate(max) else Truncate(max);
    if bound == 0 then 0.0 <= draw < 1.0
    else draw.Floor as real == draw && 0.0 <= draw < bound as real
  }

  /** As written, interval 1 with randomize factor 0.25 calls `rand(0.5)`,
      which may return 0.9: the result 1.65 leaves the window [0.75, 1.25),
      and with bounds (1, 1) it exceeds `(1 + r) * maximum`. */
  lemma KernelRandLeavesWindow()
    ensures KernelRandDraw(JitterHigh(0.25, 1.0) - JitterLow(0.25, 1.0), 0.9)
    ensures RandomizedInterval(0.25, 1.0, 0.9) == 1.65
    ensures RandomizedInterval(0.25, 1.0, 0.9) >= JitterHigh(0.25, 1.0)
    ensures IntervalAt(Config(1.0, 1.0, 2.0, 0.25), 0, 0.9) > JitterHigh(0.25, 1.0)
  {
    assert JitterHigh(0.25, 1.0) - JitterLow(0.25, 1.0) == 0.5;
    assert Truncate(0.5) == 0;
  }

  /** As written, interval 5 with randomize factor 0.25 calls `rand(2.5)`,
      which returns 0 or 1, so only 3.75 and 4.75 ever come out of the
      window [3.75, 6.25). */
  lemma KernelRandTwoOutcomes(draw: real)
    requires KernelRandDraw(JitterHigh(0.25, 5.0) - JitterLow(0.25, 5.0), draw)
    ensures RandomizedInterval(0.25, 5.0, draw) == 3.75 || RandomizedInterval(0.25, 5.0, draw) == 4.75
  {
    assert JitterHigh(0.25, 5.0) - JitterLow(0.25, 5.0) == 2.5;
    assert Truncate(2.5) == 2;
    assert draw.Floor == 0 || draw.Floor == 1;
  }

  // ---------------------------------------------------------------------------
  // Sums of sleeps

  /** The sum of a list of intervals. */
  function Total(s: seq<real>): real
  {
    if s == [] then 0.0 else Total(s[..|s| - 1]) + s[|s| - 1]
  }

  /** `interval_at(0) + ... + interval_at(n - 1)`, the k-th with the k-th draw. */
  function ScheduleTotal(c: Config, n: nat, draws: nat -> real): real
  {
    if n == 0 then 0.0 else ScheduleTotal(c, n - 1, draws) + IntervalAt(c, n - 1, draws(n - 1))
  }

  /** A list whose k-th element is `interval_at(k)` adds up to the schedule's
      running total. */
  lemma {:induction false} TotalOfSchedule(c: Config, s: seq<real>, draws: nat -> real)
    requires forall k :: 0 <= k < |s| ==> s[k] == IntervalAt(c, k, draws(k))
    ensures Total(s) == ScheduleTotal(c, |s|, draws)
  {
    if s != [] {
      var n := |s| - 1;
      TotalOfSchedule(c, s[..n], draws);
    }
  }

  /** Without jitter, n waits never add up to more than n times the maximum. */
  lemma {:induction false} ScheduleTotalBound(c: Config, n: nat, draws: nat -> real)
    requires c.randomizeFactor == 0.0
    ensures ScheduleTotal(c, n, draws) <= (n as real) * c.maximum
  {
    if n > 0 {
      ScheduleTotalBound(c, n - 1, draws);
      var m := (n - 1) as real;
      var previous, last := ScheduleTotal(c, n - 1, draws), IntervalAt(c, n - 1, draws(n - 1));
      assert ScheduleTotal(c, n, draws) == previous + last;
      assert previous + last <= (m + 1.0) * c.maximum by {
        AddBound(previous, last, m, c.maximum);
      }
      assert (m + 1.0) * c.maximum == (n as real) * c.maximum by {
        assert m + 1.0 == n as real;
      }
    }
  }

  // ---------------------------------------------------------------------------
  // Concrete schedules

  /** Bounds (1, 5) give 1, 2, 4, 5 for iterations 0..3 and 2, 4, 5, 5 for
      1..4; bounds (30, 90) give 30, 60, 90, 90; bounds (1, 512) with
      multiplier 4 give 4, 16, 64, 256 for 1..4. */
  lemma ScheduleExamples(draws: nat -> real)
    ensures IntervalsFor(Config(1.0, 5.0, 2.0, 0.0), [0, 1, 2, 3], draws) == [1.0, 2.0, 4.0, 5.0]
    ensures IntervalsFor(Config(1.0, 5.0, 2.0, 0.0), [1, 2, 3, 4], draws) == [2.0, 4.0, 5.0, 5.0]
    ensures IntervalsFor(Config(30.0, 90.0, 2.0, 0.0), [0, 1, 2, 3], draws) == [30.0, 60.0, 90.0, 90.0]
    ensures IntervalsFor(Config(1.0, 512.0, 4.0, 0.0), [1, 2, 3, 4], draws) == [4.0, 16.0, 64.0, 256.0]
  {
    assert Pow(2.0, 3) == 8.0 && Pow(2.0, 4) == 16.0;
    assert Pow(4.0, 3) == 64.0 && Pow(4.0, 4) == 256.0;
  }
}
