/** CLOCK_MONOTONIC, nanosleep, and the sleeps built on them (src/timers/timers_utils.cpp). */
module Clock {
  import opened Packets
  import opened TimeArithmetic

  /** No process is stopped for 2^62 ns (146 years) between two readings. */
  const GAP: nat := 0x4000_0000_0000_0000

  /** The longest sleep whose elapsed time cannot wrap between two readings: 2^63 ns. */
  const LONGEST: nat := TWO64 - 2 * GAP

  /**
   * What the system does: its blocking sleeps, its polls of the sender, and its calls of the user function,
   * with what the function was told and what it answered.
   */
  datatype Entry =
    | Slept(ns: nat)
    | Polled(done: bool)
    | Called(seqNo: nat, skipped: bool, delayed: nat, result: PacketList, stopped: bool)

  /** A request to nanosleep, and the instant it was made. */
  datatype Nap = Nap(at: nat, request: Timespec)

  /**
   * A monotone clock. Each reading is at least the one before; `stall` bounds how many readings in
   * a row may show the same instant, so that a busy wait ends.
   */
  class MonotonicClock {
    var now: nat
    var stall: nat
    ghost var readings: seq<nat>
    ghost var naps: seq<Nap>

    /** What nanoseconds_sleep, the polls of is_send_done and the calls of the user function noted. */
    ghost var diary: seq<Entry>

    ghost method Note(entry: Entry)
      modifies this`diary
      ensures diary == old(diary) + [entry]
    {
      diary := diary + [entry];
    }

    /** Time passes, by less than GAP. */
    method Pass(spending: bool)
      modifies this`now, this`stall
      ensures old(now) <= now < old(now) + GAP
      ensures now == old(now) ==> if spending then stall < old(stall) else stall <= old(stall)
    {
      var d: nat := *;
      var s: nat := *;
      d := d % GAP;
      if spending && stall == 0 && d == 0 {
        d := 1;
      }
      if d > 0 {
        now, stall := now + d, s;
      } else if spending {
        stall := stall - 1;
      }
    }

    /** clock_gettime(CLOCK_MONOTONIC, &t) */
    method Read() returns (t: Timespec)
      modifies this
      ensures Normal(t) && Ns(t) == now
      ensures old(now) <= now < old(now) + GAP
      ensures now == old(now) ==> stall < old(stall)
      ensures readings == old(readings) + [now] && naps == old(naps) && diary == old(diary)
    {
      Pass(true);
      t := AtNs(now);
      readings := readings + [now];
    }

    /** nanosleep(&request, NULL): may end early, and late. */
    method Nanosleep(request: Timespec)
      requires Normal(request)
      modifies this
      ensures old(now) <= now < old(now) + GAP
      ensures now == old(now) ==> stall <= old(stall)
      ensures readings == old(readings) && naps == old(naps) + [Nap(old(now), request)] && diary == old(diary)
    {
      naps := naps + [Nap(now, request)];
      Pass(false);
    }
  }

  /** Every request asks for exactly the time that was left of `duration` since `begin`. */
  ghost predicate ExactNaps(naps: seq<Nap>, from: nat, begin: int, duration: int) {
    forall k :: from <= k < |naps| ==>
      && Normal(naps[k].request)
      && begin <= naps[k].at < begin + duration
      && Ns(naps[k].request) == begin + duration - naps[k].at
  }

  /** The request built from the rest of a duration is that rest. */
  lemma RestRequest(duration: U64, slept: U64)
    requires slept < duration
    ensures var rest := Sub(duration, slept);
            var request := Timespec(NsToSec(rest), rest % SecToNs(1));
            Normal(request) && Ns(request) == duration - slept
  {
    var n: U64 := duration - slept;
    WrapId(n);
    assert SecToNs(1) == NS_PER_SEC;
    hide SecToNs, Wrap;
    NsToSecExact(n);
    hide NsToSec;
    SecondsSplit(n);
  }

  /**
   * nanoseconds_sleep: however often nanosleep ends early, the call returns only when the whole
   * duration has passed, and each request is a valid timespec for the time that remains.
   */
  method NanosecondsSleep(clock: MonotonicClock, duration: U64)
    requires duration <= LONGEST
    modifies clock
    ensures clock.now >= old(clock.now) + duration
    ensures old(clock.readings) < clock.readings && old(clock.naps) <= clock.naps
    ensures ExactNaps(clock.naps, |old(clock.naps)|, clock.readings[|old(clock.readings)|], duration)
    ensures |clock.readings| - |old(clock.readings)| == |clock.naps| - |old(clock.naps)| + 2
    ensures clock.diary == old(clock.diary) + [Slept(duration)]
  {
    clock.Note(Slept(duration));
    assert SecToNs(1) == NS_PER_SEC;
    hide DiffNs, Sub, NsToSec, SecToNs;
    var start := clock.Read();
    ghost var begin := clock.now;
    var current := clock.Read();
    DiffExact(start, current);
    var slept := DiffNs(start, current);
    while slept < duration
      invariant clock.now >= begin >= old(clock.now) && slept == clock.now - begin
      invariant old(clock.readings) < clock.readings
      invariant |clock.readings| - |old(clock.readings)| == |clock.naps| - |old(clock.naps)| + 2
      invariant clock.readings[|old(clock.readings)|] == begin == Ns(start)
      invariant clock.diary == old(clock.diary) + [Slept(duration)]
      invariant old(clock.naps) <= clock.naps && ExactNaps(clock.naps, |old(clock.naps)|, begin, duration)
      decreases duration - slept, clock.stall
    {
      var rest := Sub(duration, slept);
      RestRequest(duration, slept);
      clock.Nanosleep(Timespec(NsToSec(rest), rest % SecToNs(1)));
      current := clock.Read();
      DiffExact(start, current);
      slept := DiffNs(start, current);
    }
  }

  lemma MsToNsExact(ms: nat)
    requires ms * 1_000_000 < TWO64
    ensures MsToNs(ms) == ms * 1_000_000
  {
    WrapId(ms * 1000);
    WrapId(ms * 1000 * 1000);
  }

  /** Sleeps for the milliseconds asked for, unless their conversion wraps. */
  method MillisecondsSleep(clock: MonotonicClock, ms: U64)
    requires MsToNs(ms) <= LONGEST
    modifies clock
    ensures clock.now >= old(clock.now) + MsToNs(ms)
    ensures ms * 1_000_000 < TWO64 ==> MsToNs(ms) == ms * 1_000_000
    ensures old(clock.readings) < clock.readings && old(clock.naps) <= clock.naps
    ensures ExactNaps(clock.naps, |old(clock.naps)|, clock.readings[|old(clock.readings)|], MsToNs(ms))
    ensures clock.diary == old(clock.diary) + [Slept(MsToNs(ms))]
  {
    if ms * 1_000_000 < TWO64 {
      MsToNsExact(ms);
    }
    hide MsToNs;
    NanosecondsSleep(clock, MsToNs(ms));
  }

  /** Sleeps for the microseconds asked for, unless their conversion wraps. */
  method MicrosecondsSleep(clock: MonotonicClock, us: U64)
    requires UsToNs(us) <= LONGEST
    modifies clock
    ensures clock.now >= old(clock.now) + UsToNs(us)
    ensures us * 1000 < TWO64 ==> UsToNs(us) == us * 1000
    ensures old(clock.readings) < clock.readings && old(clock.naps) <= clock.naps
    ensures ExactNaps(clock.naps, |old(clock.naps)|, clock.readings[|old(clock.readings)|], UsToNs(us))
    ensures clock.diary == old(clock.diary) + [Slept(UsToNs(us))]
  {
    if us * 1000 < TWO64 {
      WrapId(us * 1000);
    }
    hide UsToNs;
    NanosecondsSleep(clock, UsToNs(us));
  }
}
