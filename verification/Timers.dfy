/** The three timers, as classes over one tick specification. */
module Timers {
  import opened TimeArithmetic
  import opened TickSpec
  import opened Clock

  const FREQUENCY_ERROR: nat := 65535

  // ---------------------------------------------------------------- one specification

  /**
   * What sleep_to_next_tick does to the timer state `t`, given the instant `entry` of its first
   * clock reading and the instant `now` when it returns.
   */
  predicate TickOutcome(t: Tick, t': Tick, entry: int, now: int, ok: bool) {
    && (ok <==> Wrap(entry - Ns(t.start)) <= t.sleepNs)
    && (if ok then t' == NextTick(t) && now >= Deadline(t) && now >= entry else t' == t)
  }

  /** Within 2^64 ns (584 years) of start_time_, the call fails exactly when it comes too late. */
  lemma OutcomeExact(t: Tick, t': Tick, entry: int, now: int, ok: bool)
    requires TickOutcome(t, t', entry, now, ok) && 0 <= entry - Ns(t.start) < TWO64
    ensures ok <==> entry <= Deadline(t)
  {
    WrapId(entry - Ns(t.start));
  }

  /** Call k took the timer from ticks[k] to ticks[k + 1], first reading the clock at entries[k]. */
  predicate Calls(ticks: seq<Tick>, entries: seq<int>, nows: seq<int>, oks: seq<bool>) {
    && |entries| == |nows| == |oks| && |ticks| == |entries| + 1
    && forall k :: 0 <= k < |entries| ==> TickOutcome(ticks[k], ticks[k + 1], entries[k], nows[k], oks[k])
  }

  /** Lateness is absorbing: after a failed call every later call fails, until a restart. */
  lemma {:induction false} LateForever(ticks: seq<Tick>, entries: seq<int>, nows: seq<int>, oks: seq<bool>, n: nat)
    requires Calls(ticks, entries, nows, oks) && n < |entries| && !oks[0]
    requires Ns(ticks[0].start) <= entries[0]
    requires forall k :: 0 <= k < |entries| ==> entries[0] <= entries[k] < Ns(ticks[0].start) + TWO64
    ensures !oks[n] && ticks[n + 1] == ticks[0]
  {
    WrapId(entries[0] - Ns(ticks[0].start));
    assert TickOutcome(ticks[0], ticks[1], entries[0], nows[0], oks[0]);
    if n > 0 {
      LateForever(ticks, entries, nows, oks, n - 1);
      WrapId(entries[n] - Ns(ticks[n].start));
      assert TickOutcome(ticks[n], ticks[n + 1], entries[n], nows[n], oks[n]);
    }
  }

  /**
   * Any two timers that start from the same state and whose clocks read the same at the entry of each
   * call succeed and fail together and pass through the same states, whatever their kinds.
   */
  lemma {:induction false} TimersAgree(a: seq<Tick>, b: seq<Tick>, entries: seq<int>, aNows: seq<int>, bNows: seq<int>,
      aOks: seq<bool>, bOks: seq<bool>, n: nat)
    requires Calls(a, entries, aNows, aOks) && Calls(b, entries, bNows, bOks) && a[0] == b[0]
    requires n <= |entries|
    ensures a[n] == b[n] && aOks[..n] == bOks[..n]
  {
    if n > 0 {
      TimersAgree(a, b, entries, aNows, bNows, aOks, bOks, n - 1);
      assert TickOutcome(a[n - 1], a[n - 1 + 1], entries[n - 1], aNows[n - 1], aOks[n - 1]);
      assert TickOutcome(b[n - 1], b[n - 1 + 1], entries[n - 1], bNows[n - 1], bOks[n - 1]);
      assert aOks[..n] == aOks[..n - 1] + [aOks[n - 1]];
      assert bOks[..n] == bOks[..n - 1] + [bOks[n - 1]];
    }
  }

  /**
   * A run of any timer against the closed form: if the first n calls succeeded, call n succeeds if and
   * only if its first reading is at most T(n + 1) after the start, and it then returns at or after it.
   */
  lemma {:induction false} CallsFollowDeadlines(start: Timespec, p: U64, ticks: seq<Tick>, entries: seq<int>,
      nows: seq<int>, oks: seq<bool>, n: nat)
    requires Normal(start) && 0 < p <= PS_PER_SEC
    requires Calls(ticks, entries, nows, oks) && ticks[0] == FirstTick(start, p) && n < |entries|
    requires forall k :: 0 <= k < n ==> oks[k]
    requires forall k :: 0 <= k < |entries| ==> Ns(ticks[k].start) <= entries[k] < Ns(ticks[k].start) + TWO64
    ensures ticks[n] == TickAfter(FirstTick(start, p), n)
    ensures oks[n] <==> entries[n] <= Ns(start) + T(p, n + 1)
    ensures oks[n] ==> nows[n] >= Ns(start) + T(p, n + 1)
  {
    hide T, GoodTick, NextTick, FirstTick, SleepFor;
    if n > 0 {
      CallsFollowDeadlines(start, p, ticks, entries, nows, oks, n - 1);
      assert TickOutcome(ticks[n - 1], ticks[n - 1 + 1], entries[n - 1], nows[n - 1], oks[n - 1]);
    }
    ClosedForm(start, p, n);
    assert TickOutcome(ticks[n], ticks[n + 1], entries[n], nows[n], oks[n]);
    OutcomeExact(ticks[n], ticks[n + 1], entries[n], nows[n], oks[n]);
  }

  /** A tick's sleep is far below the longest gap between two readings. */
  lemma GoodSleep(t: Tick)
    requires GoodTick(t)
    ensures t.sleepNs < GAP
  {
    ProductFits(t.periodPs, t.counter);
  }

  /** The next deadline is ahead of this one, and its base is not in the future. */
  lemma NextBase(t: Tick, now: int)
    requires GoodTick(t) && Ns(t.start) <= now && now >= Deadline(t)
    ensures GoodTick(NextTick(t)) && Ns(NextTick(t).start) <= now
  {
    NextTickGood(t);
  }

  // ---------------------------------------------------------------- how a tick is waited for

  /** What is left of the tick at a reading; negative when the tick has passed. */
  function Left(t: Tick, reading: int): int {
    t.sleepNs - Wrap(reading - Ns(t.start))
  }

  /** Within 2^64 ns of start_time_, that is the time to the deadline. */
  lemma LeftExact(t: Tick, reading: int)
    requires 0 <= reading - Ns(t.start) < TWO64
    ensures Left(t, reading) == Deadline(t) - reading
  {
    WrapId(reading - Ns(t.start));
  }

  /** From reading `from` on, the clock is read again only before the tick. */
  ghost predicate Spun(t: Tick, readings: seq<nat>, from: nat) {
    forall k :: from <= k < |readings| - 1 ==> Left(t, readings[k]) > 0
  }

  /** The readings up to the end of a blocking sleep: one at its start, one more, and one after each nap. */
  function SleepEnd(entry: nat, napsWere: seq<Nap>, naps: seq<Nap>): int {
    entry + 3 + |naps| - |napsWere|
  }

  /**
   * After the reading at index `entry`, the timer blocked for `duration`: each nap asked for exactly what
   * was then left of it.
   */
  ghost predicate Blocked(readings: seq<nat>, entry: nat, napsWere: seq<Nap>, naps: seq<Nap>, duration: int) {
    && napsWere <= naps && SleepEnd(entry, napsWere, naps) <= |readings|
    && ExactNaps(naps, |napsWere|, readings[entry + 1], duration)
  }

  /**
   * A timer that blocks for what was left of the tick, less `slack`, asks in every nap for the instant that
   * lies `slack` before the deadline, moved only by the time between its first two readings.
   */
  lemma NapsAimAtDeadline(t: Tick, slack: nat, readings: seq<nat>, entry: nat, napsWere: seq<Nap>, naps: seq<Nap>,
      k: nat)
    requires entry + 1 < |readings| && 0 <= readings[entry] - Ns(t.start) < TWO64
    requires Blocked(readings, entry, napsWere, naps, Left(t, readings[entry]) - slack) && |napsWere| <= k < |naps|
    ensures 0 < Ns(naps[k].request) <= Deadline(t) - slack - readings[entry]
    ensures naps[k].at + Ns(naps[k].request) == Deadline(t) - slack + readings[entry + 1] - readings[entry]
  {
    LeftExact(t, readings[entry]);
    hide Left;
  }

  /** The blocking sleep of a timer with `left` to its tick that spins for the last `delay`. */
  function BlockingRest(left: int, delay: nat): seq<Entry> {
    if left < delay then [] else [Slept(left - delay)]
  }

  /** Blocked for what was left of the tick; a tick that had passed costs one reading and no sleep. */
  ghost predicate BlockedOnly(t: Tick, was: seq<nat>, readings: seq<nat>, napsWere: seq<Nap>, naps: seq<Nap>)
    requires was < readings
  {
    var left := Left(t, readings[|was|]);
    if left < 0 then
      naps == napsWere && |readings| == |was| + 1
    else
      Blocked(readings, |was|, napsWere, naps, left) && |readings| == SleepEnd(|was|, napsWere, naps)
  }

  /** Blocked for what was left of the tick less `delay`, if as much was left, and then spun to the tick. */
  ghost predicate BlockedThenSpun(t: Tick, delay: nat, was: seq<nat>, readings: seq<nat>, napsWere: seq<Nap>,
      naps: seq<Nap>)
    requires was < readings
  {
    var left := Left(t, readings[|was|]);
    if left < delay then
      naps == napsWere && Spun(t, readings, |was|)
    else
      && Blocked(readings, |was|, napsWere, naps, left - delay)
      && Spun(t, readings, SleepEnd(|was|, napsWere, naps))
      && (left == 0 ==> |readings| == SleepEnd(|was|, napsWere, naps))
  }

  // ---------------------------------------------------------------- busy waiting

  /** The elapsed time shown by a reading. */
  lemma ElapsedGrows(start: Timespec, one: Timespec, two: Timespec)
    requires Ns(start) <= Ns(one) <= Ns(two) < Ns(one) + GAP
    requires DiffNs(start, one) < GAP
    ensures DiffNs(start, two) == DiffNs(start, one) + (Ns(two) - Ns(one))
  {
    hide DiffNs, Wrap;
    DiffExact(start, one);
    DiffExact(start, two);
    var a, k := Ns(one) - Ns(start), Ns(two) - Ns(one);
    WrapSum(a, k);
    assert a + k == Ns(two) - Ns(start);
    WrapId(Wrap(a) + k);
  }

  /** A wrapped elapsed time is at most the true one. */
  lemma ElapsedAtMost(start: Timespec, t: Timespec)
    requires Ns(start) <= Ns(t)
    ensures DiffNs(start, t) <= Ns(t) - Ns(start)
  {
    DiffExact(start, t);
  }

  /** A subtraction that does not wrap. */
  lemma SubExact(a: U64, b: U64)
    requires b <= a
    ensures Sub(a, b) == a - b
  {
  }

  /** After `first`, the clock was read again only as long as less than `sleepNs` had passed since `start`. */
  ghost predicate SpinReads(start: Timespec, sleepNs: U64, first: int, was: seq<nat>, readings: seq<nat>) {
    && (readings != was ==> Wrap(first - Ns(start)) < sleepNs)
    && forall k :: |was| <= k < |readings| - 1 ==> Wrap(readings[k] - Ns(start)) < sleepNs
  }

  /** A spin that follows the entry reading. */
  lemma SpunAfterEntry(t: Tick, entry: nat, was: seq<nat>, readings: seq<nat>)
    requires was + [entry] <= readings && SpinReads(t.start, t.sleepNs, entry, was + [entry], readings)
    ensures Spun(t, readings, |was|)
  {
    hide Wrap;
  }

  /** while(TIMESPEC_DIFF_NS(start, current) < sleep) clock_gettime(&current) */
  method SpinUntil(clock: MonotonicClock, start: Timespec, first: Timespec, sleepNs: U64)
    requires sleepNs < GAP && Ns(start) <= Ns(first) <= clock.now
    modifies clock
    ensures clock.now >= old(clock.now) && clock.now >= Ns(start) + sleepNs
    ensures old(clock.readings) <= clock.readings && clock.diary == old(clock.diary) && clock.naps == old(clock.naps)
    ensures SpinReads(start, sleepNs, Ns(first), old(clock.readings), clock.readings)
  {
    hide DiffNs, Wrap;
    DiffExact(start, first);
    var current := first;
    ghost var stale := true;
    ElapsedAtMost(start, current);
    while DiffNs(start, current) < sleepNs
      invariant clock.now >= old(clock.now) && Ns(start) <= Ns(current) <= clock.now
      invariant !stale ==> Ns(current) == clock.now
      invariant DiffNs(start, current) <= Ns(current) - Ns(start)
      invariant old(clock.readings) <= clock.readings && clock.diary == old(clock.diary)
      invariant clock.naps == old(clock.naps)
      invariant if stale then current == first && clock.readings == old(clock.readings)
                else
                  && Wrap(Ns(first) - Ns(start)) < sleepNs
                  && |clock.readings| > |old(clock.readings)|
                  && Ns(current) == clock.readings[|clock.readings| - 1]
      invariant forall k :: |old(clock.readings)| <= k < |clock.readings| - 1 ==>
                  Wrap(clock.readings[k] - Ns(start)) < sleepNs
      invariant DiffNs(start, current) == Wrap(Ns(current) - Ns(start))
      decreases stale, sleepNs - DiffNs(start, current), clock.stall
    {
      ghost var before := current;
      current := clock.Read();
      if !stale {
        ElapsedGrows(start, before, current);
      }
      ElapsedAtMost(start, current);
      DiffExact(start, current);
      stale := false;
    }
  }

  /** nanoseconds_sleep(sleep - TIMESPEC_DIFF_NS(start, current) - slack): neither subtraction wraps. */
  method SleepRest(clock: MonotonicClock, start: Timespec, current: Timespec, sleepNs: U64, slack: U64)
    requires sleepNs < GAP && Ns(start) <= Ns(current) <= clock.now
    requires DiffNs(start, current) <= sleepNs && slack <= sleepNs - DiffNs(start, current)
    requires |clock.readings| > 0
    modifies clock
    ensures clock.now >= old(clock.now) && old(clock.readings) <= clock.readings
    ensures clock.diary == old(clock.diary) + [Slept(sleepNs - DiffNs(start, current) - slack)]
    ensures clock.now + slack >= Ns(start) + sleepNs
    ensures |clock.readings| == SleepEnd(|old(clock.readings)| - 1, old(clock.naps), clock.naps)
    ensures Blocked(clock.readings, |old(clock.readings)| - 1, old(clock.naps), clock.naps,
                    sleepNs - DiffNs(start, current) - slack)
  {
    hide DiffNs, Sub, ExactNaps;
    SubExact(sleepNs, DiffNs(start, current));
    SubExact(Sub(sleepNs, DiffNs(start, current)), slack);
    ElapsedAtMost(start, current);
    NanosecondsSleep(clock, Sub(Sub(sleepNs, DiffNs(start, current)), slack));
  }

  // ---------------------------------------------------------------- BusyWaitTimer

  class BusyWaitTimer {
    var startTime: Timespec
    var frequency: nat
    var originalSleepTimePs: U64
    var sleepTimeNs: U64
    var timerStarted: bool
    var sleepCounter: U64

    function View(): Tick
      reads this
    {
      Tick(startTime, sleepCounter, sleepTimeNs, originalSleepTimePs)
    }

    constructor ()
      ensures frequency == FREQUENCY_ERROR && !timerStarted
    {
      frequency, timerStarted := FREQUENCY_ERROR, false;
    }

    method Initialize()
      modifies this
      ensures frequency == FREQUENCY_ERROR && !timerStarted && View() == old(View())
    {
      frequency, timerStarted := FREQUENCY_ERROR, false;
    }

    method SetFrequency(f: nat) returns (ok: bool)
      requires f != 0
      modifies this
      ensures ok <==> f <= 100
      ensures timerStarted == old(timerStarted)
      ensures if ok then frequency == f && View() == old(View()).(periodPs := Period(f))
              else frequency == old(frequency) && View() == old(View())
    {
      if f > MAX_FREQUENCY {
        return false;
      }
      frequency := f;
      originalSleepTimePs := PS_PER_SEC / f;
      return true;
    }

    /** Does not test whether a frequency was set. */
    method StartTimer(clock: MonotonicClock) returns (ok: bool)
      modifies this, clock
      ensures ok == !old(timerStarted) && timerStarted && frequency == old(frequency)
      ensures clock.now >= old(clock.now) && clock.diary == old(clock.diary)
      ensures if ok
              then
                && Normal(startTime) && Ns(startTime) == clock.now
                && View() == FirstTick(startTime, old(originalSleepTimePs))
              else View() == old(View())
    {
      if timerStarted {
        return false;
      }
      startTime := clock.Read();
      timerStarted := true;
      sleepCounter := 1;
      sleepTimeNs := Add(PsToNs(Mul(originalSleepTimePs, sleepCounter)), 1);
      return true;
    }

    method StopTimer()
      modifies this
      ensures !timerStarted && frequency == old(frequency) && View() == old(View())
    {
      timerStarted := false;
    }

    method SleepToNextTick(clock: MonotonicClock) returns (ok: bool)
      requires GoodTick(View()) && Ns(startTime) <= clock.now
      modifies this, clock
      ensures old(clock.readings) < clock.readings && clock.now >= old(clock.now) && clock.diary == old(clock.diary)
      ensures old(clock.now) <= clock.readings[|old(clock.readings)|] <= clock.now
      ensures TickOutcome(old(View()), View(), clock.readings[|old(clock.readings)|], clock.now, ok)
      ensures clock.naps == old(clock.naps) && Spun(old(View()), clock.readings, |old(clock.readings)|)
      ensures GoodTick(View()) && Ns(startTime) <= clock.now
      ensures timerStarted == old(timerStarted) && frequency == old(frequency)
    {
      hide DiffNs, SleepFor, GoodTick, NextTick, ExactNaps, Sub, Wrap, SpinReads;
      GoodSleep(View());
      var current := clock.Read();
      DiffExact(startTime, current);
      if DiffNs(startTime, current) > sleepTimeNs {
        return false;
      }
      SpinUntil(clock, startTime, current, sleepTimeNs);
      SpunAfterEntry(View(), Ns(current), old(clock.readings), clock.readings);
      NextBase(View(), clock.now);
      SetNextTick();
      return true;
    }

    /** The re-base, and the time for the next tick. */
    method SetNextTick()
      modifies this
      ensures View() == NextTick(old(View()))
      ensures timerStarted == old(timerStarted) && frequency == old(frequency)
    {
      if sleepCounter == REBASE {
        startTime := AddNs(startTime, sleepTimeNs);
        sleepCounter := 0;
      }
      sleepCounter := Add(sleepCounter, 1);
      sleepTimeNs := Add(PsToNs(Mul(originalSleepTimePs, sleepCounter)), 1);
    }
  }

  // ---------------------------------------------------------------- FreeWaitTimer

  class FreeWaitTimer {
    var startTime: Timespec
    var frequency: nat
    var originalSleepTimePs: U64
    var sleepTimeNs: U64
    var timerStarted: bool
    var sleepCounter: U64

    function View(): Tick
      reads this
    {
      Tick(startTime, sleepCounter, sleepTimeNs, originalSleepTimePs)
    }

    constructor ()
      ensures frequency == FREQUENCY_ERROR && !timerStarted
    {
      frequency, timerStarted := FREQUENCY_ERROR, false;
    }

    method Initialize()
      modifies this
      ensures frequency == FREQUENCY_ERROR && !timerStarted && View() == old(View())
    {
      frequency, timerStarted := FREQUENCY_ERROR, false;
    }

    method SetFrequency(f: nat) returns (ok: bool)
      requires f != 0
      modifies this
      ensures ok <==> f <= 100
      ensures timerStarted == old(timerStarted)
      ensures if ok then frequency == f && View() == old(View()).(periodPs := Period(f))
              else frequency == old(frequency) && View() == old(View())
    {
      if f > MAX_FREQUENCY {
        return false;
      }
      frequency := f;
      originalSleepTimePs := PS_PER_SEC / f;
      return true;
    }

    /** Does not test whether a frequency was set. */
    method StartTimer(clock: MonotonicClock) returns (ok: bool)
      modifies this, clock
      ensures ok == !old(timerStarted) && timerStarted && frequency == old(frequency)
      ensures clock.now >= old(clock.now) && clock.diary == old(clock.diary)
      ensures if ok
              then
                && Normal(startTime) && Ns(startTime) == clock.now
                && View() == FirstTick(startTime, old(originalSleepTimePs))
              else View() == old(View())
    {
      if timerStarted {
        return false;
      }
      startTime := clock.Read();
      timerStarted := true;
      sleepCounter := 1;
      sleepTimeNs := Add(PsToNs(Mul(originalSleepTimePs, sleepCounter)), 1);
      return true;
    }

    method StopTimer()
      modifies this
      ensures !timerStarted && frequency == old(frequency) && View() == old(View())
    {
      timerStarted := false;
    }

    method SleepToNextTick(clock: MonotonicClock) returns (ok: bool)
      requires GoodTick(View()) && Ns(startTime) <= clock.now
      modifies this, clock
      ensures old(clock.readings) < clock.readings && clock.now >= old(clock.now)
      ensures clock.diary == old(clock.diary) +
                BlockingRest(Left(old(View()), clock.readings[|old(clock.readings)|]), 0)
      ensures old(clock.now) <= clock.readings[|old(clock.readings)|] <= clock.now
      ensures TickOutcome(old(View()), View(), clock.readings[|old(clock.readings)|], clock.now, ok)
      ensures BlockedOnly(old(View()), old(clock.readings), clock.readings, old(clock.naps), clock.naps)
      ensures GoodTick(View()) && Ns(startTime) <= clock.now
      ensures timerStarted == old(timerStarted) && frequency == old(frequency)
    {
      hide DiffNs, SleepFor, GoodTick, NextTick, ExactNaps, Sub, Wrap, Blocked;
      GoodSleep(View());
      var current := clock.Read();
      DiffExact(startTime, current);
      if DiffNs(startTime, current) > sleepTimeNs {
        return false;
      }
      SleepRest(clock, startTime, current, sleepTimeNs, 0);
      NextBase(View(), clock.now);
      SetNextTick();
      return true;
    }

    /** The re-base, and the time for the next tick. */
    method SetNextTick()
      modifies this
      ensures View() == NextTick(old(View()))
      ensures timerStarted == old(timerStarted) && frequency == old(frequency)
    {
      if sleepCounter == REBASE {
        startTime := AddNs(startTime, sleepTimeNs);
        sleepCounter := 0;
      }
      sleepCounter := Add(sleepCounter, 1);
      sleepTimeNs := Add(PsToNs(Mul(originalSleepTimePs, sleepCounter)), 1);
    }
  }

  // ---------------------------------------------------------------- WorstCaseTimer

  class WorstCaseTimer {
    var startTime: Timespec
    var frequency: nat
    var originalSleepTimePs: U64
    var sleepTimeNs: U64
    var timerStarted: bool
    var sleepCounter: U64
    const worstTimerDelayNs: U64

    function View(): Tick
      reads this
    {
      Tick(startTime, sleepCounter, sleepTimeNs, originalSleepTimePs)
    }

    constructor (worstTimerDelayUs: U64)
      ensures frequency == FREQUENCY_ERROR && !timerStarted && worstTimerDelayNs == UsToNs(worstTimerDelayUs)
    {
      worstTimerDelayNs := UsToNs(worstTimerDelayUs);
      frequency, timerStarted := FREQUENCY_ERROR, false;
    }

    method Initialize()
      modifies this
      ensures frequency == FREQUENCY_ERROR && !timerStarted && View() == old(View())
    {
      frequency, timerStarted := FREQUENCY_ERROR, false;
    }

    method SetFrequency(f: nat) returns (ok: bool)
      requires f != 0
      modifies this
      ensures ok <==> f <= 100
      ensures timerStarted == old(timerStarted)
      ensures if ok then frequency == f && View() == old(View()).(periodPs := Period(f))
              else frequency == old(frequency) && View() == old(View())
    {
      if f > MAX_FREQUENCY {
        return false;
      }
      frequency := f;
      originalSleepTimePs := PS_PER_SEC / f;
      return true;
    }

    /** Does not test whether a frequency was set. */
    method StartTimer(clock: MonotonicClock) returns (ok: bool)
      modifies this, clock
      ensures ok == !old(timerStarted) && timerStarted && frequency == old(frequency)
      ensures clock.now >= old(clock.now) && clock.diary == old(clock.diary)
      ensures if ok
              then
                && Normal(startTime) && Ns(startTime) == clock.now
                && View() == FirstTick(startTime, old(originalSleepTimePs))
              else View() == old(View())
    {
      if timerStarted {
        return false;
      }
      startTime := clock.Read();
      timerStarted := true;
      sleepCounter := 1;
      sleepTimeNs := Add(PsToNs(Mul(originalSleepTimePs, sleepCounter)), 1);
      return true;
    }

    method StopTimer()
      modifies this
      ensures !timerStarted && frequency == old(frequency) && View() == old(View())
    {
      timerStarted := false;
    }

    /** Spin if less than the worst delay is left, otherwise block for all but it and then spin. */
    method BlockThenSpin(clock: MonotonicClock, current: Timespec)
      requires sleepTimeNs < GAP && Ns(startTime) <= Ns(current) <= clock.now
      requires DiffNs(startTime, current) <= sleepTimeNs
      requires |clock.readings| > 0 && clock.readings[|clock.readings| - 1] == Ns(current)
      modifies clock
      ensures clock.now >= old(clock.now) && old(clock.readings) <= clock.readings
      ensures clock.diary == old(clock.diary) + BlockingRest(Left(View(), Ns(current)), worstTimerDelayNs)
      ensures clock.now >= Ns(startTime) + sleepTimeNs
      ensures clock.readings[..|old(clock.readings)|] == old(clock.readings)
      ensures BlockedThenSpun(View(), worstTimerDelayNs, old(clock.readings[..|clock.readings| - 1]), clock.readings,
                              old(clock.naps), clock.naps)
    {
      hide DiffNs, Sub, Wrap, ExactNaps;
      DiffExact(startTime, current);
      SubExact(sleepTimeNs, DiffNs(startTime, current));
      if Sub(sleepTimeNs, DiffNs(startTime, current)) < worstTimerDelayNs {
        SpinUntil(clock, startTime, current, sleepTimeNs);
      } else {
        SleepRest(clock, startTime, current, sleepTimeNs, worstTimerDelayNs);
        SpinUntil(clock, startTime, current, sleepTimeNs);
      }
    }

    method SleepToNextTick(clock: MonotonicClock) returns (ok: bool)
      requires GoodTick(View()) && Ns(startTime) <= clock.now
      modifies this, clock
      ensures old(clock.readings) < clock.readings && clock.now >= old(clock.now)
      ensures clock.diary == old(clock.diary) +
                BlockingRest(Left(old(View()), clock.readings[|old(clock.readings)|]), worstTimerDelayNs)
      ensures old(clock.now) <= clock.readings[|old(clock.readings)|] <= clock.now
      ensures TickOutcome(old(View()), View(), clock.readings[|old(clock.readings)|], clock.now, ok)
      ensures BlockedThenSpun(old(View()), worstTimerDelayNs, old(clock.readings), clock.readings, old(clock.naps),
                              clock.naps)
      ensures GoodTick(View()) && Ns(startTime) <= clock.now
      ensures timerStarted == old(timerStarted) && frequency == old(frequency)
    {
      hide DiffNs, SleepFor, GoodTick, NextTick, ExactNaps, Sub, Wrap, Blocked;
      GoodSleep(View());
      var current := clock.Read();
      DiffExact(startTime, current);
      if DiffNs(startTime, current) > sleepTimeNs {
        return false;
      }
      BlockThenSpin(clock, current);
      NextBase(View(), clock.now);
      SetNextTick();
      return true;
    }

    /** The re-base, and the time for the next tick. */
    method SetNextTick()
      modifies this
      ensures View() == NextTick(old(View()))
      ensures timerStarted == old(timerStarted) && frequency == old(frequency)
    {
      if sleepCounter == REBASE {
        startTime := AddNs(startTime, sleepTimeNs);
        sleepCounter := 0;
      }
      sleepCounter := Add(sleepCounter, 1);
      sleepTimeNs := Add(PsToNs(Mul(originalSleepTimePs, sleepCounter)), 1);
    }
  }
}
