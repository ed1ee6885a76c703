/** The persisted retry backoff: exponential doubling up to a cap, then jitter.
    Durations are int64 nanoseconds; every product wraps as Go's does. */
module Backoff {
  const TWO63: int := 0x8000_0000_0000_0000
  const TWO64: int := 0x1_0000_0000_0000_0000

  /** One millisecond in nanoseconds. */
  const MS: int := 1_000_000

  /** The retry settings handed to RecordOutboxFailure. */
  datatype Policy = Policy(base: int, max: int, jitterPercent: int, quarantineAfter: int)

  /** The settings Validate and the clamps of recordOutboxFailure look at. */
  datatype Settings = Settings(baseMs: int, maxMs: int, jitterPct: int, quarantineAfter: int)

  function Wrap64(x: int): (r: int)
    ensures -TWO63 <= r < TWO63
    ensures -TWO63 <= x < TWO63 ==> r == x
    ensures TWO63 <= x < TWO64 ==> r == x - TWO64
  {
    (x + TWO63) % TWO64 - TWO63
  }

  /** Go's integer division truncates toward zero. */
  function TruncDiv(a: int, b: int): int
    requires b > 0
  {
    if a >= 0 then a / b else -((-a) / b)
  }

  function Max(a: int, b: int): int {
    if a > b then a else b
  }

  predicate Validated(c: Settings) {
    c.baseMs > 0 && c.maxMs > 0 && c.baseMs <= c.maxMs && c.quarantineAfter > 0
  }

  function PolicyOf(c: Settings): Policy {
    Policy(Wrap64(Max(50, c.baseMs) * MS), Wrap64(Max(200, c.maxMs) * MS), Max(0, c.jitterPct), Max(1, c.quarantineAfter))
  }

  /** A validated configuration gives the configured durations, in order, exactly when its cap
      fits in an int64 of nanoseconds. */
  lemma ValidatedPolicy(c: Settings)
    requires Validated(c)
    ensures var p := PolicyOf(c);
            && (p.base == Max(50, c.baseMs) * MS && p.max == Max(200, c.maxMs) * MS <==> Max(200, c.maxMs) * MS < TWO63)
            && (Max(200, c.maxMs) * MS < TWO63 ==> 50 * MS <= p.base <= p.max)
            && p.jitterPercent >= 0 && p.quarantineAfter == c.quarantineAfter
  {
    assert Max(50, c.baseMs) <= Max(200, c.maxMs);
  }

  /** What the doubling loop leaves after `steps` further rounds. */
  function WaitFrom(wait: int, max: int, steps: nat): int
    decreases steps
  {
    if steps == 0 then wait else
    var w := Wrap64(wait * 2);
    if w >= max then max else WaitFrom(w, max, steps - 1)
  }

  method ExponentialWait(base: int, max: int, retryCount: nat) returns (wait: int)
    requires retryCount >= 1
    ensures wait == WaitFrom(base, max, retryCount - 1)
  {
    wait := base;
    var i := 1;
    while i < retryCount
      invariant 1 <= i <= retryCount
      invariant WaitFrom(base, max, retryCount - 1) == WaitFrom(wait, max, retryCount - i)
    {
      wait := Wrap64(wait * 2);
      if wait >= max {
        wait := max;
        break;
      }
      i := i + 1;
    }
  }

  function Pow2(n: nat): nat {
    if n == 0 then 1 else 2 * Pow2(n - 1)
  }

  /** The documented schedule: base doubled n-1 times, capped. */
  function Schedule(base: int, max: int, n: nat): int
    requires n >= 1
  {
    var w := base * Pow2(n - 1);
    if w >= max then max else w
  }

  /** The first doubled wait that reaches the cap; the loop computes it before capping. */
  function FirstReach(base: int, max: int): int
    requires base >= 1
    decreases max - base
  {
    if 2 * base >= max then 2 * base else FirstReach(2 * base, max)
  }

  lemma {:induction false} ScheduleShift(base: int, max: int, n: nat)
    requires n >= 2
    ensures Schedule(base, max, n) == Schedule(2 * base, max, n - 1)
  {
    assert base * Pow2(n - 1) == 2 * base * Pow2(n - 2);
  }

  lemma {:induction false} Pow2Grows(base: int, k: nat)
    requires base >= 1
    ensures base * Pow2(k) >= base
  {
    if k > 0 {
      Pow2Grows(base, k - 1);
      assert base * Pow2(k) == 2 * (base * Pow2(k - 1));
    }
  }

  lemma {:induction false} LoopMeetsSchedule(base: int, max: int, n: nat)
    requires 1 <= base <= max < TWO63 && n >= 1 && FirstReach(base, max) < TWO63
    ensures WaitFrom(base, max, n - 1) == Schedule(base, max, n)
    decreases n
  {
    if n >= 2 {
      ScheduleShift(base, max, n);
      if 2 * base >= max {
        Pow2Grows(2 * base, n - 2);
      } else {
        LoopMeetsSchedule(2 * base, max, n - 1);
      }
    }
  }

  /** Where the doubling overflows, some retry count gets a negative wait. */
  lemma {:induction false} OverflowShows(base: int, max: int) returns (n: nat)
    requires 1 <= base <= max < TWO63 && FirstReach(base, max) >= TWO63
    ensures n >= 2 && WaitFrom(base, max, n - 1) < 0 && Schedule(base, max, n) > 0
    decreases max - base
  {
    if 2 * base >= max {
      n := 2;
      assert WaitFrom(base, max, 1) == Wrap64(base * 2);
      assert Pow2(1) == 2;
    } else {
      var m := OverflowShows(2 * base, max);
      n := m + 1;
      ScheduleShift(base, max, n);
    }
  }

  ghost predicate FollowsSchedule(base: int, max: int) {
    forall n: nat :: n >= 1 ==> WaitFrom(base, max, n - 1) == Schedule(base, max, n)
  }

  /** The loop follows the documented schedule for every retry count exactly
      when the first wait to reach the cap still fits in an int64. */
  lemma BackoffExact(base: int, max: int)
    requires 1 <= base <= max < TWO63
    ensures FollowsSchedule(base, max) <==> FirstReach(base, max) < TWO63
  {
    if FirstReach(base, max) < TWO63 {
      forall n: nat | n >= 1 ensures WaitFrom(base, max, n - 1) == Schedule(base, max, n) {
        LoopMeetsSchedule(base, max, n);
      }
    } else {
      var n := OverflowShows(base, max);
      assert WaitFrom(base, max, n - 1) != Schedule(base, max, n);
    }
  }

  lemma {:induction false} FirstReachBelow(base: int, max: int)
    requires 1 <= base <= max
    ensures FirstReach(base, max) <= 2 * max
    decreases max - base
  {
    if 2 * base < max { FirstReachBelow(2 * base, max); }
  }

  /** A cap under 2^62 ns (about 146 years) always fits. */
  lemma SmallCapFits(base: int, max: int)
    requires 1 <= base <= max && 2 * max < TWO63
    ensures FollowsSchedule(base, max)
  {
    FirstReachBelow(base, max);
    BackoffExact(base, max);
  }

  lemma {:induction false} Pow2Monotone(m: nat, n: nat)
    requires m <= n
    ensures Pow2(m) <= Pow2(n)
  {
    if m < n { Pow2Monotone(m, n - 1); }
  }

  /** Later retries never wait less, before jitter. */
  lemma ScheduleMonotone(base: int, max: int, m: nat, n: nat)
    requires 1 <= base <= max && 1 <= m <= n
    ensures base <= Schedule(base, max, m) <= Schedule(base, max, n) <= max
  {
    Pow2Monotone(m - 1, n - 1);
    Pow2Grows(base, m - 1);
    assert base * Pow2(m - 1) <= base * Pow2(n - 1);
  }

  /** The jitter step; `draw` stands for the value of the random source. */
  function Jittered(wait: int, jitterPercent: int, draw: nat): int {
    if jitterPercent <= 0 then wait else
    var range := TruncDiv(Wrap64(TruncDiv(wait, MS) * jitterPercent), 100);
    if range <= 0 then wait else
    var delta := draw % (range * 2 + 1) - range;
    var w := Wrap64(wait + Wrap64(delta * MS));
    if w < 10 * MS then 10 * MS else w
  }

  function FailureWait(p: Policy, retryCount: nat, draw: nat): int
    requires retryCount >= 1
  {
    Jittered(WaitFrom(p.base, p.max, retryCount - 1), p.jitterPercent, draw)
  }

  /** Milliseconds added to the clock for the next attempt. */
  function WaitMs(p: Policy, retryCount: nat, draw: nat): int
    requires retryCount >= 1
  {
    TruncDiv(FailureWait(p, retryCount, draw), MS)
  }

  lemma MulMono(a: int, b: int, k: int)
    requires a <= b && k >= 0
    ensures a * k <= b * k
  {
  }

  lemma WrapBelow(x: int)
    requires x >= 0
    ensures Wrap64(x) <= x
  {
  }

  /** The jitter range never exceeds the percentage of the wait, overflow or not. */
  lemma RangeBound(wait: int, pct: int)
    requires 0 <= wait && 0 <= pct
    ensures var range := TruncDiv(Wrap64(TruncDiv(wait, MS) * pct), 100);
            100 * (range * MS) <= wait * pct
  {
    var ms := wait / MS;
    MulMono(0, pct, ms);
    WrapBelow(ms * pct);
    var range := TruncDiv(Wrap64(ms * pct), 100);
    assert 100 * range <= ms * pct;
    MulMono(100 * range, ms * pct, MS);
    MulMono(ms * MS, wait, pct);
    assert (ms * pct) * MS == (ms * MS) * pct;
  }

  /** Adding a wrapped jitter to an int64 wait stays under the wait plus the unwrapped jitter range. */
  lemma ShiftBound(wait: int, range: int, delta: int)
    requires 0 <= wait < TWO63 && 0 <= range && -range <= delta <= range
    ensures Wrap64(wait + Wrap64(delta * MS)) <= wait + range * MS
  {
    var d := Wrap64(delta * MS);
    if delta >= 0 {
      WrapBelow(delta * MS);
    } else if -TWO63 <= delta * MS {
      assert d == delta * MS;
    } else {
      assert range * MS >= TWO63;
    }
    if wait + d >= 0 { WrapBelow(wait + d); }
  }

  /** Jitter moves a wait by at most its own percentage and never below 10 ms. */
  lemma JitterBound(wait: int, cap: int, pct: int, draw: nat)
    requires 10 * MS <= wait <= cap < TWO63 && pct >= 0
    ensures 10 * MS <= Jittered(wait, pct, draw)
    ensures 100 * Jittered(wait, pct, draw) <= cap * (100 + pct)
  {
    MulMono(wait, cap, 100 + pct);
    assert wait * (100 + pct) == 100 * wait + wait * pct;
    MulMono(0, pct, wait);
    var range := TruncDiv(Wrap64(TruncDiv(wait, MS) * pct), 100);
    if pct > 0 && range > 0 {
      RangeBound(wait, pct);
      var delta := draw % (range * 2 + 1) - range;
      ShiftBound(wait, range, delta);
    }
  }

  /** The final wait lies between 10 ms and the cap plus its jitter percentage. */
  predicate WithinJitter(p: Policy, n: nat, draw: nat)
    requires n >= 1
  {
    10 * MS <= FailureWait(p, n, draw) && 100 * FailureWait(p, n, draw) <= p.max * (100 + p.jitterPercent)
  }

  /** For every retry count, jitter percentage and draw the final wait keeps its bounds, exactly
      when the first wait to reach the cap still fits in an int64. */
  lemma FinalWaitExact(base: int, max: int, limit: int)
    requires 10 * MS <= base <= max < TWO63
    ensures (forall pct: nat, n: nat, draw: nat :: n >= 1 ==> WithinJitter(Policy(base, max, pct, limit), n, draw))
            <==> FirstReach(base, max) < TWO63
  {
    if FirstReach(base, max) < TWO63 {
      forall pct: nat, n: nat, draw: nat | n >= 1 ensures WithinJitter(Policy(base, max, pct, limit), n, draw) {
        LoopMeetsSchedule(base, max, n);
        ScheduleMonotone(base, max, n, n);
        JitterBound(Schedule(base, max, n), max, pct, draw);
      }
    } else {
      var n := OverflowShows(base, max);
      assert !WithinJitter(Policy(base, max, 0, limit), n, 0);
    }
  }

  lemma {:induction false} WaitFits(wait: int, max: int, steps: nat)
    requires steps >= 1 && max < TWO63
    ensures WaitFrom(wait, max, steps) < TWO63
    decreases steps
  {
    var w := Wrap64(wait * 2);
    if w < max && steps > 1 { WaitFits(w, max, steps - 1); }
  }

  lemma {:induction false} Pow2Above(n: nat)
    ensures Pow2(n) > n
  {
    if n > 0 { Pow2Above(n - 1); }
  }

  /** Some retry count reaches the cap of the schedule. */
  lemma CapReached(base: int, max: int) returns (n: nat)
    requires 1 <= base <= max
    ensures n >= 2 && Schedule(base, max, n) == max
  {
    n := max + 1;
    Pow2Above(max);
    MulMono(1, base, Pow2(max));
  }

  /** The configured schedule and bounds hold at a retry count and draw: the settings in nanoseconds, not
      what the duration arithmetic makes of them. */
  predicate AsConfigured(c: Settings, n: nat, draw: nat)
    requires n >= 1
  {
    var p, base, max := PolicyOf(c), Max(50, c.baseMs) * MS, Max(200, c.maxMs) * MS;
    && WaitFrom(p.base, p.max, n - 1) == Schedule(base, max, n)
    && 10 * MS <= FailureWait(p, n, draw) && 100 * FailureWait(p, n, draw) <= max * (100 + p.jitterPercent)
  }

  /** The cap and the first wait that reaches it fit in an int64 of nanoseconds. */
  predicate Fits(c: Settings) {
    var base, max := Max(50, c.baseMs) * MS, Max(200, c.maxMs) * MS;
    max < TWO63 && FirstReach(base, max) < TWO63
  }

  lemma FittingConfigured(c: Settings, n: nat, draw: nat)
    requires Validated(c) && Fits(c) && n >= 1
    ensures AsConfigured(c, n, draw)
  {
    var p := PolicyOf(c);
    ValidatedPolicy(c);
    LoopMeetsSchedule(p.base, p.max, n);
    ScheduleMonotone(p.base, p.max, n, n);
    JitterBound(Schedule(p.base, p.max, n), p.max, p.jitterPercent, draw);
  }

  /** A configuration that does not fit misses its schedule at some retry count. */
  lemma UnfittingShows(c: Settings) returns (n: nat)
    requires Validated(c) && !Fits(c)
    ensures n >= 1 && forall draw: nat :: !AsConfigured(c, n, draw)
  {
    var p, base, max := PolicyOf(c), Max(50, c.baseMs) * MS, Max(200, c.maxMs) * MS;
    ValidatedPolicy(c);
    assert 1 <= base <= max;
    if max >= TWO63 {
      n := CapReached(base, max);
      WaitFits(p.base, p.max, n - 1);
    } else {
      n := OverflowShows(base, max);
    }
  }

  /** For every validated configuration: all retry counts and draws keep the configured schedule and
      bounds if and only if the cap and the first wait that reaches it fit in an int64. */
  lemma BackoffBound(c: Settings)
    requires Validated(c)
    ensures (forall n: nat, draw: nat :: n >= 1 ==> AsConfigured(c, n, draw)) <==> Fits(c)
  {
    if Fits(c) {
      forall n: nat, draw: nat | n >= 1 ensures AsConfigured(c, n, draw) {
        FittingConfigured(c, n, draw);
      }
    } else {
      var n := UnfittingShows(c);
      assert !AsConfigured(c, n, 0);
    }
  }

  // ---------- in milliseconds ----------

  /** The settings of the schedule in milliseconds. */
  function BaseMs(c: Settings): int { Max(50, c.baseMs) }

  function CapMs(c: Settings): int { Max(200, c.maxMs) }

  lemma ScheduleScales(base: int, max: int, n: nat)
    requires n >= 1
    ensures Schedule(base * MS, max * MS, n) == Schedule(base, max, n) * MS
  {
    assert base * MS * Pow2(n - 1) == base * Pow2(n - 1) * MS;
  }

  /** A wait of so many milliseconds fits the schedule at retry count n: it is the scheduled wait without
      jitter, and between 10 ms and the scheduled wait plus its percentage with it. */
  predicate OnSchedule(c: Settings, n: nat, wait: int)
    requires n >= 1
  {
    var scheduled := Schedule(BaseMs(c), CapMs(c), n);
    && (c.jitterPct <= 0 ==> wait == scheduled)
    && 10 <= wait && 100 * wait <= scheduled * (100 + Max(0, c.jitterPct)) <= CapMs(c) * (100 + Max(0, c.jitterPct))
  }

  lemma TruncExact(x: int)
    requires x >= 0
    ensures TruncDiv(x * MS, MS) == x
  {
  }

  lemma TruncBetween(w: int, s: int, pct: int)
    requires 10 * MS <= w && 100 * w <= s * MS * (100 + pct)
    ensures 10 <= TruncDiv(w, MS) && 100 * TruncDiv(w, MS) <= s * (100 + pct)
  {
    var q := TruncDiv(w, MS);
    assert q * MS <= w;
    assert s * MS * (100 + pct) == s * (100 + pct) * MS;
    assert 100 * q * MS <= s * (100 + pct) * MS;
  }

  /** For every validated configuration that fits, what is added to the clock is on schedule. */
  lemma WaitOnSchedule(c: Settings, n: nat, draw: nat)
    requires Validated(c) && Fits(c) && n >= 1
    ensures OnSchedule(c, n, WaitMs(PolicyOf(c), n, draw))
  {
    var p, s := PolicyOf(c), Schedule(BaseMs(c), CapMs(c), n);
    ValidatedPolicy(c);
    LoopMeetsSchedule(p.base, p.max, n);
    ScheduleMonotone(BaseMs(c), CapMs(c), n, n);
    ScheduleScales(BaseMs(c), CapMs(c), n);
    JitterBound(s * MS, s * MS, p.jitterPercent, draw);
    TruncBetween(FailureWait(p, n, draw), s, p.jitterPercent);
    TruncExact(s);
    MulMono(s, CapMs(c), 100 + p.jitterPercent);
  }

  /** The jitter range of a wait of s milliseconds. */
  lemma RangeOf(s: int, pct: int)
    requires 0 <= s && 0 <= pct && s * pct < TWO63
    ensures TruncDiv(Wrap64(TruncDiv(s * MS, MS) * pct), 100) == s * pct / 100
  {
    TruncExact(s);
    MulMono(0, pct, s);
  }

  lemma ShiftExact(s: int, range: int, d: int)
    requires 0 <= s && 0 <= range && (s + range) * MS < TWO63 && -range <= d <= range
    ensures Wrap64(s * MS + Wrap64(d * MS)) == (s + d) * MS
  {
  }

  lemma DrawOf(range: int, d: int)
    requires 0 <= range && -range <= d <= range
    ensures (d + range) % (range * 2 + 1) - range == d
  {
  }

  /** Every shift of the wait by whole milliseconds within its percentage is reached by some draw. */
  lemma JitterReaches(s: int, pct: int, range: int, d: int) returns (draw: nat)
    requires 10 <= s && 0 < pct && s * pct < TWO63 && range == s * pct / 100 && 0 < range && (s + range) * MS < TWO63
    requires -range <= d <= range
    ensures Jittered(s * MS, pct, draw) == Max(10, s + d) * MS
  {
    RangeOf(s, pct);
    ShiftExact(s, range, d);
    DrawOf(range, d);
    draw := d + range;
  }

  /** A configuration that passes validation and whose second retry is due in the past. */
  lemma ValidatedOverflow()
    ensures var c := Settings(4_611_686_018_428, 4_611_686_018_428, 0, 5);
            Validated(c) && FailureWait(PolicyOf(c), 2, 0) < 0 && WaitMs(PolicyOf(c), 2, 0) < 0
  {
    var c := Settings(4_611_686_018_428, 4_611_686_018_428, 0, 5);
    var p := PolicyOf(c);
    assert p.base == p.max == 4_611_686_018_428_000_000;
    assert Wrap64(p.base * 2) == 2 * p.base - TWO64;
    assert WaitFrom(p.base, p.max, 1) == 2 * p.base - TWO64;
  }
}
