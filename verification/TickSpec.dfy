/**
 * The tick specification shared by BusyWaitTimer, FreeWaitTimer and WorstCaseTimer: which deadline
 * follows which, and where the n-th deadline lies.
 */
module TickSpec {
  import opened TimeArithmetic

  const MAX_FREQUENCY: nat := 100
  const REBASE: nat := 0x80_0000

  /** start_time_, sleep_counter_, sleep_time_ns_ and original_sleep_time_ps_ of a running timer. */
  datatype Tick = Tick(start: Timespec, counter: U64, sleepNs: U64, periodPs: U64)

  /** PS_TO_NS(original_sleep_time_ps_ * sleep_counter_) + 1 */
  function SleepFor(periodPs: U64, counter: U64): U64 {
    Add(PsToNs(Mul(periodPs, counter)), 1)
  }

  function FirstTick(start: Timespec, periodPs: U64): Tick {
    Tick(start, 1, SleepFor(periodPs, 1), periodPs)
  }

  /** The state after a tick, with the re-basing every 2^23 ticks. */
  function NextTick(t: Tick): Tick {
    var start := if t.counter == REBASE then AddNs(t.start, t.sleepNs) else t.start;
    var counter := Add(if t.counter == REBASE then 0 else t.counter, 1);
    Tick(start, counter, SleepFor(t.periodPs, counter), t.periodPs)
  }

  function TickAfter(t: Tick, n: nat): Tick {
    if n == 0 then t else NextTick(TickAfter(t, n - 1))
  }

  /** The instant the timer sleeps up to. */
  function Deadline(t: Tick): int {
    Ns(t.start) + t.sleepNs
  }

  /** original_sleep_time_ps_ for a frequency. */
  function Period(frequency: nat): U64
    requires 1 <= frequency <= MAX_FREQUENCY
  {
    PS_PER_SEC / frequency
  }

  /** A running timer whose arithmetic has not overflowed. */
  predicate GoodTick(t: Tick) {
    && Normal(t.start)
    && 1 <= t.counter <= REBASE
    && 0 < t.periodPs <= PS_PER_SEC
    && t.sleepNs == t.periodPs * t.counter / 1000 + 1
  }

  // ---------------------------------------------------------------- 64-bit soundness

  /** The product of the period and the counter fits in 64 bits up to the re-base. */
  lemma ProductFits(p: U64, c: U64)
    requires p <= PS_PER_SEC && c <= REBASE
    ensures 0 <= p * c <= PS_PER_SEC * REBASE < TWO64
    ensures SleepFor(p, c) == p * c / 1000 + 1 < 0x20_0000_0000_0000
  {
    ProductMonotone(p, c, PS_PER_SEC, REBASE);
    SmallSleep(p * c);
    hide Wrap, Add, PsToNs;
  }

  lemma SmallSleep(x: nat)
    requires x <= PS_PER_SEC * REBASE
    ensures x < TWO64 && Add(PsToNs(Wrap(x)), 1) == x / 1000 + 1 < 0x20_0000_0000_0000
  {
    WrapId(x);
    WrapId(x / 1000 + 1);
  }

  lemma ProductMonotone(a: nat, b: nat, c: nat, d: nat)
    requires a <= c && b <= d
    ensures 0 <= a * b <= c * d
  {
    assert a * b <= c * b;
    assert c * b <= c * d;
  }

  lemma FirstTickGood(start: Timespec, p: U64)
    requires Normal(start) && 0 < p <= PS_PER_SEC
    ensures GoodTick(FirstTick(start, p))
  {
    ProductFits(p, 1);
  }

  lemma RebaseTickGood(t: Tick)
    requires GoodTick(t) && t.counter == REBASE
    ensures GoodTick(NextTick(t)) && Ns(NextTick(t).start) == Deadline(t) && NextTick(t).counter == 1
  {
    ProductFits(t.periodPs, t.counter);
    hide SleepFor;
    AddExact(t.start, t.sleepNs);
    FirstTickGood(AddNs(t.start, t.sleepNs), t.periodPs);
  }

  lemma PlainTickGood(t: Tick)
    requires GoodTick(t) && t.counter < REBASE
    ensures GoodTick(NextTick(t)) && NextTick(t).start == t.start && NextTick(t).counter == t.counter + 1
  {
    hide SleepFor;
    ProductFits(t.periodPs, t.counter + 1);
  }

  /** A tick keeps the counter in 1..2^23 and no operation of it wraps. */
  lemma NextTickGood(t: Tick)
    requires GoodTick(t)
    ensures GoodTick(NextTick(t))
    ensures t.counter < REBASE ==> NextTick(t).start == t.start && NextTick(t).counter == t.counter + 1
    ensures t.counter == REBASE ==> Ns(NextTick(t).start) == Deadline(t) && NextTick(t).counter == 1
  {
    hide GoodTick, NextTick, Deadline;
    CounterRange(t);
    if t.counter == REBASE {
      RebaseTickGood(t);
    } else {
      PlainTickGood(t);
    }
  }

  lemma CounterRange(t: Tick)
    requires GoodTick(t)
    ensures t.counter <= REBASE
  {
  }

  // ---------------------------------------------------------------- closed form

  /** What a whole re-base period adds to start_time_. */
  function RebaseNs(p: nat): nat {
    p * REBASE / 1000 + 1
  }

  /** The n-th deadline, relative to the start of the timer. */
  function T(p: nat, n: nat): nat
    requires n >= 1
  {
    (n - 1) / REBASE * RebaseNs(p) + p * ((n - 1) % REBASE + 1) / 1000 + 1
  }

  /** Up to the first re-base, at tick 8388608, the n-th deadline is n periods rounded down, plus 1 ns. */
  lemma FirstDeadlines(p: nat, n: nat)
    requires n >= 1
    ensures n <= 8388608 ==> T(p, n) == p * n / 1000 + 1
    ensures n == 8388609 ==> T(p, n) == T(p, 8388608) + p / 1000 + 1
  {
    DivStep(n);
    if n == 8388609 {
      assert RebaseNs(p) == T(p, 8388608);
    }
  }

  /** Splitting off the last tick count. */
  lemma DivStep(n: nat)
    requires n >= 1
    ensures (n - 1) % REBASE + 1 < REBASE ==> n / REBASE == (n - 1) / REBASE && n % REBASE == (n - 1) % REBASE + 1
    ensures (n - 1) % REBASE + 1 == REBASE ==> n / REBASE == (n - 1) / REBASE + 1 && n % REBASE == 0
  {
  }

  /**
   * The stateful timer is the closed form: after n ticks the deadline it sleeps to is T(n + 1)
   * after the start, whatever number of re-bases lies between.
   */
  lemma {:induction false} ClosedForm(start: Timespec, p: U64, n: nat)
    requires Normal(start) && 0 < p <= PS_PER_SEC
    ensures var t := TickAfter(FirstTick(start, p), n);
            && GoodTick(t) && t.periodPs == p
            && t.counter == n % REBASE + 1
            && Ns(t.start) == Ns(start) + n / REBASE * RebaseNs(p)
            && Deadline(t) == Ns(start) + T(p, n + 1)
  {
    if n == 0 {
      FirstTickGood(start, p);
    } else {
      ClosedForm(start, p, n - 1);
      NextTickGood(TickAfter(FirstTick(start, p), n - 1));
      DivStep(n);
      RebaseSum(p, (n - 1) / REBASE);
    }
  }

  lemma RebaseSum(p: nat, q: nat)
    ensures (q + 1) * RebaseNs(p) == q * RebaseNs(p) + RebaseNs(p)
  {
  }

  /** Consecutive deadlines are one period apart, rounded down or up, also across a re-base. */
  lemma DeadlineGap(p: nat, n: nat)
    requires n >= 1
    ensures p / 1000 <= T(p, n + 1) - T(p, n) <= p / 1000 + 1
  {
    DivStep(n);
    RebaseSum(p, (n - 1) / REBASE);
    var r := (n - 1) % REBASE + 1;
    if r < REBASE {
      assert p * (r + 1) == p * r + p;
      FloorSum(p * r, p);
    }
  }

  lemma FloorSum(a: nat, b: nat)
    ensures a / 1000 + b / 1000 <= (a + b) / 1000 <= a / 1000 + b / 1000 + 1
  {
  }

  // ---------------------------------------------------------------- drift

  /** n periods of p, in pieces of whole re-bases and a rest. */
  lemma PeriodsSplit(p: nat, n: nat)
    requires n >= 1
    ensures p * n == (n - 1) / REBASE * (p * REBASE) + p * ((n - 1) % REBASE + 1)
  {
    var q, r := (n - 1) / REBASE, (n - 1) % REBASE + 1;
    assert n == q * REBASE + r;
    assert p * (q * REBASE + r) == p * (q * REBASE) + p * r;
    assert p * (q * REBASE) == q * (p * REBASE);
  }

  /** T(n) in thousandths of a nanosecond lies within one re-base error of n periods. */
  lemma PicoBounds(p: nat, n: nat)
    requires n >= 1
    ensures p * n < 1000 * T(p, n) <= p * n + 1000 * ((n - 1) / REBASE + 1)
  {
    var q, r := (n - 1) / REBASE, (n - 1) % REBASE + 1;
    PeriodsSplit(p, n);
    var whole := p * REBASE;
    assert 1000 * (whole / 1000) <= whole < 1000 * (whole / 1000) + 1000;
    QuotientBounds(q, whole);
  }

  lemma QuotientBounds(q: nat, whole: nat)
    ensures q * whole <= 1000 * (q * (whole / 1000 + 1)) <= q * whole + 1000 * q
  {
    var d := whole / 1000;
    assert q * whole <= q * (1000 * (d + 1));
    assert q * (1000 * d) <= q * whole;
    assert q * (1000 * (d + 1)) == 1000 * (q * (d + 1));
    assert q * (1000 * d) + 1000 * q == 1000 * (q * (d + 1));
  }

  /**
   * Bounded drift. Multiplied out by 1000 f: the n-th deadline lies in
   *   n * 10^9 / f - n / 1000 < T(n) <= n * 10^9 / f + q + 1   with q = (n - 1) div 2^23,
   * so each re-base costs at most 1 ns, and each tick gains less than 1 ps.
   */
  lemma DriftBound(f: nat, n: nat)
    requires 1 <= f <= 100 && n >= 1
    ensures n * 1_000_000_000_000 - n * f < 1000 * f * T(Period(f), n)
    ensures 1000 * f * T(Period(f), n) <= n * 1_000_000_000_000 + 1000 * f * ((n - 1) / 8388608 + 1)
  {
    var p, t, q := Period(f), T(Period(f), n), (n - 1) / REBASE;
    assert PS_PER_SEC - f < f * p <= PS_PER_SEC;
    PicoBounds(p, n);
    LowerDrift(f, n, p, t);
    UpperDrift(f, n, p, t, q);
  }

  lemma LowerDrift(f: nat, n: nat, p: nat, t: nat)
    requires f >= 1 && n >= 1 && PS_PER_SEC - f < f * p && p * n < 1000 * t
    ensures n * PS_PER_SEC - n * f < 1000 * f * t
  {
    ScaleLess(n, PS_PER_SEC - f, f * p);
    ScaleLess(f, p * n, 1000 * t);
    assert n * (f * p) == f * (p * n);
    assert n * (PS_PER_SEC - f) == n * PS_PER_SEC - n * f;
  }

  lemma UpperDrift(f: nat, n: nat, p: nat, t: nat, q: nat)
    requires f * p <= PS_PER_SEC && 1000 * t <= p * n + 1000 * (q + 1)
    ensures 1000 * f * t <= n * PS_PER_SEC + 1000 * f * (q + 1)
  {
    ScaleAtMost(f, 1000 * t, p * n + 1000 * (q + 1));
    ScaleAtMost(n, f * p, PS_PER_SEC);
    assert f * (p * n + 1000 * (q + 1)) == n * (f * p) + 1000 * f * (q + 1);
  }

  lemma ScaleLess(k: nat, a: int, b: int)
    requires a < b && k > 0
    ensures k * a < k * b
  {
  }

  lemma ScaleAtMost(k: nat, a: int, b: int)
    requires a <= b
    ensures k * a <= k * b
  {
  }

  // ---------------------------------------------------------------- exactness of the re-base error

  /** The deadline lies exactly q + 1 ns behind n periods. */
  predicate OneNsPerRebase(f: nat, n: nat)
    requires 1 <= f <= MAX_FREQUENCY && n >= 1
  {
    f * T(Period(f), n) == n * NS_PER_SEC + f * ((n - 1) / REBASE + 1)
  }

  lemma WholePeriod(f: nat)
    requires 1 <= f <= MAX_FREQUENCY && NS_PER_SEC % f == 0
    ensures Period(f) == 1000 * (NS_PER_SEC / f) && f * (NS_PER_SEC / f) == NS_PER_SEC
  {
    var d := NS_PER_SEC / f;
    assert f * d == NS_PER_SEC;
    assert f * (1000 * d) == PS_PER_SEC;
    QuotientUnique(PS_PER_SEC, f, 1000 * d);
  }

  lemma QuotientUnique(a: nat, f: nat, k: nat)
    requires f >= 1 && f * k == a
    ensures a / f == k && a % f == 0
  {
    var d, m := a / f, a % f;
    assert a == f * d + m;
    assert f * (k - d) == m;
    if k - d >= 1 {
      ScaleAtMost(f, 1, k - d);
    } else if k - d <= -1 {
      ScaleAtMost(f, k - d, -1);
    }
  }

  lemma WholeDeadline(f: nat, n: nat)
    requires 1 <= f <= MAX_FREQUENCY && NS_PER_SEC % f == 0 && n >= 1
    ensures OneNsPerRebase(f, n)
  {
    WholePeriod(f);
    var d, q, r := NS_PER_SEC / f, (n - 1) / REBASE, (n - 1) % REBASE + 1;
    assert 1000 * d * REBASE / 1000 == d * REBASE;
    assert 1000 * d * r / 1000 == d * r;
    assert T(Period(f), n) == q * (d * REBASE + 1) + d * r + 1;
    PeriodsSplit(d, n);
    assert q * (d * REBASE + 1) == q * (d * REBASE) + q;
    assert T(Period(f), n) == d * n + q + 1;
    assert f * (d * n + (q + 1)) == f * d * n + f * (q + 1);
  }

  /**
   * The comment "1 ns per 2^23 ticks" is exact for every deadline if and only if the period is a
   * whole number of nanoseconds.
   */
  lemma RebaseErrorIff(f: nat)
    requires 1 <= f <= 100
    ensures (forall n: nat :: n >= 1 ==> OneNsPerRebase(f, n)) <==> 1_000_000_000 % f == 0
  {
    if NS_PER_SEC % f == 0 {
      forall n: nat | n >= 1 ensures OneNsPerRebase(f, n) {
        WholeDeadline(f, n);
      }
    } else {
      var t := T(Period(f), 1);
      if OneNsPerRebase(f, 1) {
        assert f * (t - 1) == NS_PER_SEC;
        QuotientUnique(NS_PER_SEC, f, t - 1);
      }
    }
  }
}
