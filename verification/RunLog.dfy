/** The calls of the user function during one `run`, and what they add up to. */
module RunLog {
  import opened Packets
  import opened HandOff
  import opened HandOffRuns
  import opened HandOffTheorems
  import opened TimeArithmetic
  import opened TickSpec
  import opened Clock

  /** One call of the user function, and what the slot did with its result. */
  datatype Call = Call(
    seqNo: nat,          // sequence number passed to the user function
    skipped: bool,       // is_skipped_data()
    delayed: nat,        // get_delayed_time_ms()
    naps: nat,           // naps of half a millisecond in the tolerance loop
    turnAt: nat,         // clock when the turn of the loop began
    result: PacketList,  // the list returned
    pending: bool,       // the worker could still copy the list variable when the result was assigned to it
    stopped: bool,       // the user called stop_system()
    accepted: bool,      // the sender accepted the result
    began: nat,          // clock when the call began
    ended: nat,          // clock when it returned
    wire: seq<Byte>      // what was on the wire when the call began
  )

  /** The results handed to the sender, in order. */
  function Delivered(calls: seq<Call>): seq<PacketList> {
    if calls == [] then []
    else
      var c := calls[|calls| - 1];
      Delivered(calls[..|calls| - 1]) + if c.accepted then [c.result] else []
  }

  /** The number of skipped calls at the end of the log. */
  function SkipStreak(calls: seq<Call>): nat {
    if calls == [] || !calls[|calls| - 1].skipped then 0 else 1 + SkipStreak(calls[..|calls| - 1])
  }

  function Skips(calls: seq<Call>): nat {
    if calls == [] then 0 else Skips(calls[..|calls| - 1]) + if calls[|calls| - 1].skipped then 1 else 0
  }

  lemma LogGrows(calls: seq<Call>, c: Call)
    ensures Delivered(calls + [c]) == Delivered(calls) + if c.accepted then [c.result] else []
    ensures SkipStreak(calls + [c]) == if c.skipped then SkipStreak(calls) + 1 else 0
    ensures Skips(calls + [c]) == Skips(calls) + if c.skipped then 1 else 0
  {
    assert (calls + [c])[..|calls|] == calls;
  }

  // ---------------------------------------------------------------- what a turn of the loop does before its call

  const HALF_MS: nat := 500_000

  /** Naps of half a millisecond, each after a poll that found the send unfinished. */
  function Waits(naps: nat): seq<Entry> {
    if naps == 0 then [] else Waits(naps - 1) + [Polled(false), Slept(HALF_MS)]
  }

  /**
   * The naps and polls of one turn: `naps` naps, each after a poll answered false, then polls only.
   * Less than `most` naps end with a poll answered true, and the last poll is answered `done`.
   */
  predicate TurnFits(turn: seq<Entry>, naps: nat, most: nat, done: bool) {
    && naps <= most && |turn| > 2 * naps == |Waits(naps)|
    && turn[..2 * naps] == Waits(naps)
    && (forall k :: 2 * naps <= k < |turn| ==> turn[k].Polled?)
    && (naps < most ==> turn[2 * naps] == Polled(true))
    && turn[|turn| - 1] == Polled(done)
  }

  /** The turns of a run, one after the other. */
  function Flat(turns: seq<seq<Entry>>): seq<Entry> {
    if turns == [] then [] else Flat(turns[..|turns| - 1]) + turns[|turns| - 1]
  }

  /** The call as the diary notes it. */
  function Noted(c: Call): Entry {
    Called(c.seqNo, c.skipped, c.delayed, c.result, c.stopped)
  }

  /** A turn without the sleep to the tick at its end. */
  function UpToCall(turn: seq<Entry>): seq<Entry> {
    if turn != [] && turn[|turn| - 1].Slept? then turn[..|turn| - 1] else turn
  }

  /**
   * A turn with a call: the naps and polls, and then this one call of the user function, skipped
   * exactly if the last poll found the send unfinished; after it at most the timer's sleep.
   */
  predicate CallTurn(turn: seq<Entry>, c: Call, tolerance: nat) {
    var upTo := UpToCall(turn);
    && upTo != [] && upTo[|upTo| - 1] == Noted(c)
    && TurnFits(upTo[..|upTo| - 1], c.naps, 2 * tolerance, !c.skipped)
  }

  /** The timer's sleep, if there is one. */
  predicate TickSleep(rest: seq<Entry>) {
    rest == [] || (|rest| == 1 && rest[0].Slept?)
  }

  lemma CallTurnShape(waits: seq<Entry>, c: Call, rest: seq<Entry>, tolerance: nat)
    requires TurnFits(waits, c.naps, 2 * tolerance, !c.skipped) && TickSleep(rest)
    ensures CallTurn(waits + [Noted(c)] + rest, c, tolerance)
    ensures UpToCall(waits + [Noted(c)] + rest) == waits + [Noted(c)]
  {
    hide TurnFits;
    var upTo := waits + [Noted(c)];
    assert (upTo + rest)[..|upTo|] == upTo;
    assert upTo[..|upTo| - 1] == waits;
    assert rest == [] ==> upTo + rest == upTo;
  }

  /** Each call was made in its turn, and no other. */
  predicate TurnsFit(turns: seq<seq<Entry>>, calls: seq<Call>, tolerance: nat) {
    && |turns| >= |calls|
    && forall n :: 0 <= n < |calls| ==> CallTurn(turns[n], calls[n], tolerance)
  }

  lemma TurnsGrow(turns: seq<seq<Entry>>, turn: seq<Entry>)
    ensures Flat(turns + [turn]) == Flat(turns) + turn
  {
    assert (turns + [turn])[..|turns|] == turns;
  }

  lemma TurnsFitGrows(turns: seq<seq<Entry>>, turn: seq<Entry>, calls: seq<Call>, c: Call, tolerance: nat)
    requires |turns| == |calls| && TurnsFit(turns, calls, tolerance)
    requires CallTurn(turn, c, tolerance)
    ensures TurnsFit(turns + [turn], calls + [c], tolerance)
  {
  }

  /** The nanoseconds slept in a turn. */
  function SleptIn(turn: seq<Entry>): nat {
    if turn == [] then 0
    else SleptIn(turn[..|turn| - 1]) + if turn[|turn| - 1].Slept? then turn[|turn| - 1].ns else 0
  }

  lemma {:induction false} WaitsSleep(naps: nat)
    ensures |Waits(naps)| == 2 * naps && SleptIn(Waits(naps)) == naps * HALF_MS
  {
    if naps > 0 {
      WaitsSleep(naps - 1);
      var w := Waits(naps - 1);
      assert (w + [Polled(false), Slept(HALF_MS)])[..2 * naps - 1] == w + [Polled(false)];
      assert (w + [Polled(false)])[..2 * naps - 2] == w;
    }
  }

  lemma {:induction false} OthersDoNotSleep(turn: seq<Entry>, from: nat)
    requires from <= |turn| && forall k :: from <= k < |turn| ==> !turn[k].Slept?
    ensures SleptIn(turn) == SleptIn(turn[..from])
    decreases |turn|
  {
    if from < |turn| {
      OthersDoNotSleep(turn[..|turn| - 1], from);
      assert turn[..|turn| - 1][..from] == turn[..from];
    } else {
      assert turn[..from] == turn;
    }
  }

  // ---------------------------------------------------------------- what every call satisfies

  /**
   * What every call of the user function satisfies, for a tolerance of `tolerance` ms. The delay it is
   * told is the number of naps, halved if the result is skipped.
   */
  predicate CallFits(c: Call, seqNo: nat, tolerance: nat) {
    && c.seqNo == seqNo && c.began <= c.ended
    && c.naps <= 2 * tolerance && (c.skipped ==> c.naps == 2 * tolerance)
    && c.began >= c.turnAt + c.naps * HALF_MS
    && c.delayed == (if c.skipped then c.naps / 2 else c.naps)
    && (c.accepted ==> !c.skipped && !c.stopped)
    && (c.pending ==> c.skipped)
  }

  /**
   * The delay is documented in milliseconds. It is the milliseconds slept in the turn before the call if
   * and only if the result is skipped or the turn took no nap.
   */
  lemma DelayInMillisecondsIff(c: Call, turn: seq<Entry>, seqNo: nat, tolerance: nat)
    requires CallFits(c, seqNo, tolerance) && CallTurn(turn, c, tolerance)
    ensures SleptIn(UpToCall(turn)) == c.naps * 500_000
    ensures c.delayed * 1_000_000 == SleptIn(UpToCall(turn)) <==> c.skipped || c.naps == 0
  {
    WaitsSleep(c.naps);
    var upTo := UpToCall(turn);
    assert upTo[..2 * c.naps] == upTo[..|upTo| - 1][..2 * c.naps];
    OthersDoNotSleep(upTo, 2 * c.naps);
  }

  /**
   * A turn of one nap whose call is told a delay of 1 after half a millisecond. Its polls are those of a
   * reachable sender: the send is unfinished in `s`, and finished when the worker has moved to `t`.
   */
  lemma HalfMillisecondTold()
    returns (c: Call, turn: seq<Entry>, log: seq<Action>, s: State, longer: seq<Action>, t: State)
    ensures CallFits(c, 1, 1) && CallTurn(turn, c, 1)
    ensures |turn| >= 3 && turn[..3] == [Polled(s.isDone), Slept(HALF_MS), Polled(t.isDone)]
    ensures Reaches(false, log, s) && s.mpc.MIdle? && !s.isDone
    ensures Reaches(false, longer, t) && t.mpc.MIdle? && t.isDone && log <= longer
    ensures forall k :: |log| <= k < |longer| ==> longer[k].W?
    ensures c.delayed == 1 && SleptIn(UpToCall(turn)) == 500_000
  {
    hide Reaches;
    log, s, longer, t := OneIsDelivered();
    c := Call(1, false, 1, 1, 0, [], false, false, true, 500_000, 500_000, []);
    turn := Waits(1) + [Polled(true), Polled(true), Polled(true), Noted(c)];
    WaitsSleep(1);
    assert Waits(1) == [Polled(false), Slept(HALF_MS)];
    assert turn[..|turn| - 1] == Waits(1) + [Polled(true), Polled(true), Polled(true)];
    assert turn[..|turn| - 1][..2] == Waits(1);
    DelayInMillisecondsIff(c, turn, 1, 1);
  }

  /** A call that neither stopped the system nor was refused. */
  predicate Served(c: Call) {
    !c.stopped && c.accepted == !c.skipped
  }

  /**
   * In a log whose calls were all served, the deliveries are exactly the results of the calls that
   * were not skipped: their number is the number of calls less the skips.
   */
  lemma {:induction false} DeliveriesAndSkips(calls: seq<Call>)
    requires forall n :: 0 <= n < |calls| ==> Served(calls[n])
    ensures |Delivered(calls)| + Skips(calls) == |calls|
    ensures SkipStreak(calls) <= Skips(calls)
  {
    if calls != [] {
      DeliveriesAndSkips(calls[..|calls| - 1]);
    }
  }

  /** The streak is made of the last calls of the log, and the call before it was not skipped. */
  lemma {:induction false} StreakIsTail(calls: seq<Call>)
    ensures SkipStreak(calls) <= |calls|
    ensures forall n :: |calls| - SkipStreak(calls) <= n < |calls| ==> calls[n].skipped
    ensures SkipStreak(calls) < |calls| ==> !calls[|calls| - SkipStreak(calls) - 1].skipped
  {
    if calls != [] && calls[|calls| - 1].skipped {
      StreakIsTail(calls[..|calls| - 1]);
    }
  }

  // ---------------------------------------------------------------- when, and what on the wire

  /** The earliest instant of call n, relative to the start of the timer. */
  function SlotStart(p: nat, n: nat): nat {
    if n == 0 then 0 else T(p, n)
  }

  /** Call n carries sequence number n and begins no earlier than the n-th deadline. */
  predicate Placed(calls: seq<Call>, tolerance: nat, t0: nat, p: nat) {
    forall n :: 0 <= n < |calls| ==> CallFits(calls[n], n, tolerance) && calls[n].began >= t0 + SlotStart(p, n)
  }

  /** The first `served` calls returned before the next deadline. */
  predicate OnTime(calls: seq<Call>, served: nat, t0: nat, p: nat)
    requires served <= |calls|
  {
    forall n :: 0 <= n < served ==> calls[n].ended <= t0 + T(p, n + 1)
  }

  /** When a call that is not skipped begins, everything delivered before it is on the wire. */
  predicate WiresComplete(calls: seq<Call>, before: seq<PacketList>) {
    forall n :: 0 <= n < |calls| && !calls[n].skipped ==>
      calls[n].wire == StreamBytes(before + Delivered(calls[..n]))
  }

  /**
   * Slot placement with bounded drift, multiplied out by 1000 f: call n > 0 begins later than
   * n * 10^9 / f - n / 1000 after the start of the timer, and a call on time ends no later than
   * (n + 1) * 10^9 / f + n div 2^23 + 1.
   */
  lemma CallInSlot(calls: seq<Call>, served: nat, n: nat, tolerance: nat, t0: nat, f: nat)
    requires 1 <= f <= MAX_FREQUENCY && served <= |calls| && n < |calls|
    requires Placed(calls, tolerance, t0, Period(f)) && OnTime(calls, served, t0, Period(f))
    ensures n > 0 ==> 1000 * f * (calls[n].began - t0) > n * PS_PER_SEC - n * f
    ensures n < served ==> 1000 * f * (calls[n].ended - t0) <= (n + 1) * PS_PER_SEC + 1000 * f * (n / REBASE + 1)
  {
    var p := Period(f);
    if n > 0 {
      DriftBound(f, n);
      ScaleAtMost(1000 * f, T(p, n), calls[n].began - t0);
    }
    if n < served {
      DriftBound(f, n + 1);
      ScaleAtMost(1000 * f, calls[n].ended - t0, T(p, n + 1));
    }
  }

  /** No result was assigned to the list variable while the worker could still copy it. */
  predicate NonePending(calls: seq<Call>) {
    forall n :: 0 <= n < |calls| ==> !calls[n].pending
  }

  lemma NonePendingSplits(calls: seq<Call>, c: Call)
    ensures NonePending(calls + [c]) <==> NonePending(calls) && !c.pending
  {
    var longer := calls + [c];
    if NonePending(longer) {
      assert !longer[|calls|].pending;
      forall n | 0 <= n < |calls| ensures !calls[n].pending {
        assert longer[n] == calls[n];
      }
    }
  }

  predicate AllServed(calls: seq<Call>) {
    forall n :: 0 <= n < |calls| ==> Served(calls[n])
  }

  lemma ServedGrows(calls: seq<Call>, c: Call)
    requires AllServed(calls) && Served(c)
    ensures AllServed(calls + [c])
  {
  }

  lemma PlacedGrows(calls: seq<Call>, c: Call, tolerance: nat, t0: nat, p: nat)
    requires Placed(calls, tolerance, t0, p)
    requires CallFits(c, |calls|, tolerance) && c.began >= t0 + SlotStart(p, |calls|)
    ensures Placed(calls + [c], tolerance, t0, p)
  {
  }

  lemma WiresGrow(calls: seq<Call>, c: Call, before: seq<PacketList>)
    requires WiresComplete(calls, before)
    requires !c.skipped ==> c.wire == StreamBytes(before + Delivered(calls))
    ensures WiresComplete(calls + [c], before)
  {
    var longer := calls + [c];
    forall n | 0 <= n < |longer| && !longer[n].skipped
      ensures longer[n].wire == StreamBytes(before + Delivered(longer[..n]))
    {
      assert longer[..n] == if n < |calls| then calls[..n] else calls;
      assert calls[..|calls|] == calls;
    }
  }

  /** Before each of these calls the streak of skips was shorter than `limit`. */
  predicate Connected(calls: seq<Call>, limit: nat) {
    forall n :: 0 <= n < |calls| ==> SkipStreak(calls[..n]) < limit
  }

  lemma ConnectedGrows(calls: seq<Call>, c: Call, limit: nat)
    requires Connected(calls, limit) && SkipStreak(calls) < limit
    ensures Connected(calls + [c], limit)
  {
    forall n | 0 <= n < |calls + [c]| ensures SkipStreak((calls + [c])[..n]) < limit {
      assert (calls + [c])[..n] == if n < |calls| then calls[..n] else calls;
    }
  }

  lemma OnTimeGrows(calls: seq<Call>, c: Call, t0: nat, p: nat)
    requires OnTime(calls, |calls|, t0, p) && c.ended <= t0 + T(p, |calls| + 1)
    ensures OnTime(calls + [c], |calls| + 1, t0, p)
  {
  }
}
