/** RealTimeSystem (src/systems/real_time_system.cpp). */
module System {
  import opened Packets
  import opened HandOff
  import opened HandOffInvariant
  import opened HandOffTheorems
  import opened HandOffOverwrite
  import opened HandOffVerdict
  import opened Sender
  import opened TimeArithmetic
  import opened TickSpec
  import opened Clock
  import opened Timers
  import opened RunLog

  /** A Timer* : one of the three implementations. */
  datatype AnyTimer = Busy(busy: BusyWaitTimer) | Free(free: FreeWaitTimer) | Worst(worst: WorstCaseTimer) {

    function Obj(): object {
      match this
      case Busy(t) => t
      case Free(t) => t
      case Worst(t) => t
    }

    function View(): Tick
      reads Obj()
    {
      match this
      case Busy(t) => t.View()
      case Free(t) => t.View()
      case Worst(t) => t.View()
    }

    predicate Started()
      reads Obj()
    {
      match this
      case Busy(t) => t.timerStarted
      case Free(t) => t.timerStarted
      case Worst(t) => t.timerStarted
    }

    method Initialize()
      modifies Obj()
      ensures !Started() && View() == old(View())
    {
      match this
      case Busy(t) => t.Initialize();
      case Free(t) => t.Initialize();
      case Worst(t) => t.Initialize();
    }

    method SetFrequency(f: nat) returns (ok: bool)
      requires f != 0
      modifies Obj()
      ensures (ok <==> f <= 100) && Started() == old(Started())
      ensures ok ==> View().periodPs == Period(f)
      ensures !ok ==> View() == old(View())
    {
      match this
      case Busy(t) => ok := t.SetFrequency(f);
      case Free(t) => ok := t.SetFrequency(f);
      case Worst(t) => ok := t.SetFrequency(f);
    }

    method StartTimer(clock: MonotonicClock) returns (ok: bool)
      modifies Obj(), clock
      ensures ok == !old(Started()) && Started() && clock.now >= old(clock.now) && clock.diary == old(clock.diary)
      ensures ok ==>
                && Normal(View().start) && Ns(View().start) == clock.now
                && View() == FirstTick(View().start, old(View().periodPs))
      ensures !ok ==> View() == old(View())
    {
      match this
      case Busy(t) => ok := t.StartTimer(clock);
      case Free(t) => ok := t.StartTimer(clock);
      case Worst(t) => ok := t.StartTimer(clock);
    }

    /** The blocking sleep of a tick whose first reading is `entry`, if it blocks. */
    function Rest(t: Tick, entry: int): seq<Entry> {
      match this
      case Busy(_) => []
      case Free(_) => BlockingRest(Left(t, entry), 0)
      case Worst(w) => BlockingRest(Left(t, entry), w.worstTimerDelayNs)
    }

    method SleepToNextTick(clock: MonotonicClock) returns (ok: bool, ghost entry: nat)
      requires GoodTick(View()) && Ns(View().start) <= clock.now
      modifies Obj(), clock
      ensures old(clock.now) <= entry <= clock.now
      ensures clock.diary == old(clock.diary) + Rest(old(View()), entry)
      ensures TickOutcome(old(View()), View(), entry, clock.now, ok)
      ensures GoodTick(View()) && Ns(View().start) <= clock.now
      ensures Started() == old(Started())
    {
      ghost var k := |clock.readings|;
      match this
      case Busy(t) => ok := t.SleepToNextTick(clock); entry := clock.readings[k];
      case Free(t) => ok := t.SleepToNextTick(clock); entry := clock.readings[k];
      case Worst(t) => ok := t.SleepToNextTick(clock); entry := clock.readings[k];
    }
  }

  /** How `run` ends. */
  datatype Outcome =
    | NotReady                 // "System not initialized yet."
    | TimerFailed
    | Disconnected             // "The client disconnected."
    | SendTooLong              // "Failed to send the data in the required time"
    | SendRefused(r: SendResult)
    | TickMissed               // "Failed to return from the sender object in the needed time ..."
    | StoppedByUser
    | Torn                     // an assignment cut into a copy: the model ends here
    | StillRunning             // observed for `fuel` slots

  datatype SlotEnd = Continue | Leave(outcome: Outcome)

  /** A sender whose is_done is up has no list waiting, and everything is on the wire. */
  lemma Settle(sender: TcpSender)
    requires sender.Ready() && sender.isDone
    ensures !MayCopy(sender.world)
    ensures !sender.world.overwritten ==> sender.world.wire == StreamBytes(sender.world.posted)
  {
    hide Reaches;
    ReachableInv(sender.zc, sender.log, sender.world);
    DoneState(sender.world);
  }

  /** The sender is shut down: its worker is gone, and it takes no list. */
  predicate ShutDown(sender: TcpSender)
    reads sender
  {
    !sender.initialized && sender.isTerminatedThread
  }

  /** is_send_done, as the run loop and send_before_run ask it. */
  method PollSender(sender: TcpSender, clock: MonotonicClock) returns (done: bool)
    requires sender.Valid()
    modifies sender, clock`diary
    ensures sender.Valid() && Meanwhile(old(sender.world), sender.world) && done == sender.isDone
    ensures sender.initialized == old(sender.initialized) && old(sender.log) <= sender.log
    ensures clock.diary == old(clock.diary) + [Polled(done)]
  {
    hide Inv, Reaches, Meanwhile;
    done := sender.IsSendDone();
    clock.Note(Polled(done));
  }

  /** A list that the worker may still copy is one of the live lists. */
  lemma WaitingIsAlive(sender: TcpSender)
    requires sender.Ready()
    ensures MayCopy(sender.world) ==>
              sender.world.packetsList.Some? && sender.world.packetsList.value in sender.world.heap
  {
    hide Reaches;
    ReachableInv(sender.zc, sender.log, sender.world);
  }

  // -------------------------------------------------------------- pieces of `send_before_run`

  /** Limits up to 292 years: no nap of the waiting loop exceeds LONGEST. */
  const LONGEST_LIMIT_MS: nat := LONGEST / 1_000_000

  /** What is left of the limit t after r rounds of the waiting loop. */
  function Rest(t: nat, r: nat): nat {
    if r == 0 then t
    else if Rest(t, r - 1) == 0 then 0
    else Rest(t, r - 1) - (Rest(t, r - 1) / 2 + 1)
  }

  /** Naps and polls of r rounds, all polls answered false except that the last is answered `done`. */
  function HalvingDiary(t: nat, r: nat, done: bool): seq<Entry> {
    if r == 0 then []
    else HalvingDiary(t, r - 1, false) + [Slept((Rest(t, r - 1) / 2 + 1) * 1_000_000), Polled(done)]
  }

  /** Rounds of the waiting loop when the send never finishes: sleep t / 2 + 1, keep the rest. */
  function Rounds(t: nat): nat {
    if t == 0 then 0 else 1 + Rounds(t - (t / 2 + 1))
  }

  function Log2(n: nat): nat
    requires n >= 1
  {
    if n == 1 then 0 else 1 + Log2(n / 2)
  }

  function Pow2(k: nat): nat {
    if k == 0 then 1 else 2 * Pow2(k - 1)
  }

  /** Log2 is the floor of the binary logarithm. */
  lemma {:induction false} Log2Floor(n: nat)
    requires n >= 1
    ensures Pow2(Log2(n)) <= n < 2 * Pow2(Log2(n))
  {
    if n > 1 {
      Log2Floor(n / 2);
    }
  }

  /** Each round halves t + 1, so there are floor(log2(t + 1)) of them. */
  lemma {:induction false} RoundsAreLogarithmic(t: nat)
    ensures Rounds(t) == Log2(t + 1)
  {
    if t > 0 {
      var rest := t - (t / 2 + 1);
      assert rest + 1 == (t + 1) / 2;
      RoundsAreLogarithmic(rest);
    }
  }

  /** One round: half of the rest and 1 ms more is slept, and then the sender is polled. */
  method HalvingRound(sender: TcpSender, rest: nat, clock: MonotonicClock) returns (done: bool)
    requires sender.Ready() && 0 < rest <= LONGEST_LIMIT_MS
    modifies sender, clock
    ensures sender.Ready() && Meanwhile(old(sender.world), sender.world) && done == sender.isDone
    ensures old(sender.log) <= sender.log && sender.initialized == old(sender.initialized)
    ensures clock.now >= old(clock.now) + (rest / 2 + 1) * 1_000_000
    ensures clock.diary == old(clock.diary) + [Slept((rest / 2 + 1) * 1_000_000), Polled(done)]
  {
    hide Reaches, StartRank;
    var sleeping := rest / 2 + 1;
    MsToNsExact(sleeping);
    MillisecondsSleep(clock, sleeping);
    done := PollSender(sender, clock);
  }

  /** The waiting loop: what was slept and what is left always add up to the limit. */
  method HalvingWait(sender: TcpSender, limit: nat, clock: MonotonicClock)
    returns (rest: nat, ghost rounds: nat, ghost slept: nat, ghost done: bool)
    requires sender.Ready() && limit <= LONGEST_LIMIT_MS
    modifies sender, clock
    ensures sender.Ready() && Meanwhile(old(sender.world), sender.world) && old(sender.log) <= sender.log
    ensures sender.initialized == old(sender.initialized)
    ensures rest == Rest(limit, rounds) && slept + rest == limit && rounds + Rounds(rest) == Rounds(limit)
    ensures (rest > 0 ==> done) && (done ==> sender.isDone)
    ensures clock.now >= old(clock.now) + slept * 1_000_000
    ensures clock.diary == old(clock.diary) + HalvingDiary(limit, rounds, done)
  {
    hide Reaches, Meanwhile, TcpSender.Valid;
    MeanwhileRefl(sender.world);
    rest, rounds, slept, done := limit, 0, 0, false;
    while rest != 0
      invariant sender.Ready() && Meanwhile(old(sender.world), sender.world) && !done
      invariant old(sender.log) <= sender.log && sender.initialized == old(sender.initialized)
      invariant rest == Rest(limit, rounds) && slept + rest == limit && rounds + Rounds(rest) == Rounds(limit)
      invariant clock.now >= old(clock.now) + slept * 1_000_000
      invariant clock.diary == old(clock.diary) + HalvingDiary(limit, rounds, false)
      decreases rest
    {
      ghost var before, noted := sender.world, clock.diary;
      var finished := HalvingRound(sender, rest, clock);
      MeanwhileTrans(old(sender.world), before, sender.world);
      var sleeping := rest / 2 + 1;
      assert sleeping <= rest;  // time_limit_ms -= sleeping_time does not wrap
      slept, rest, rounds := slept + sleeping, rest - sleeping, rounds + 1;
      assert clock.diary == old(clock.diary) + HalvingDiary(limit, rounds, finished);
      if finished {
        done := true;
        break;
      }
    }
  }

  /** send(&list_of_data), with the by-value parameter at `local`. */
  method SendCopy(sender: TcpSender, l: PacketList, local: ListId) returns (sent: SendResult, ghost asked: Asked)
    requires sender.Ready() && local !in sender.world.heap
    modifies sender
    ensures sender.Ready() && sender.world.heap == old(sender.world.heap)[local := l]
    ensures sender.world.posted == old(sender.world.posted) + (if sent.Accepted? then [l] else [])
    ensures sender.world.overwritten == old(sender.world.overwritten)
    ensures sent.Accepted? <==> old(sender.initialized) && asked.Accepts()
    ensures old(sender.log) <= sender.log && sender.initialized == old(sender.initialized)
    ensures old(sender.initialized) ==> asked.During(sender.zc, old(sender.log), sender.log, local)
    ensures old(sender.initialized) && Idle(old(sender.world)) ==> sent.Accepted?
    ensures old(sender.initialized && sender.isTerminatedThread && sender.isDone) ==> sender.isDone && sent.WorkerError?
  {
    hide Reaches, MayCopy, Idle, StartRank, MStep;
    WaitingIsAlive(sender);
    ReadyIsGone(sender);
    ghost var written := sender.Assign(local, l);
    ghost var start := sender.log;
    sent, asked := sender.Send(local);
    if sender.initialized {
      DuringLonger(asked, sender.zc, start, sender.log, local, old(sender.log), sender.log);
    }
  }

  /** send_before_run after its initialized_ test; on failure the sender has been shut down. */
  method SendAndWait(sender: TcpSender, l: PacketList, limit: nat, local: ListId, clock: MonotonicClock)
    returns (ok: bool, ghost sent: SendResult, ghost asked: Asked, ghost rounds: nat, ghost slept: nat)
    requires sender.Ready() && limit <= LONGEST_LIMIT_MS && local !in sender.world.heap
    modifies sender, clock
    ensures sender.Ready() && sender.world.heap == old(sender.world.heap)
    ensures rounds <= Log2(limit + 1) && slept + Rest(limit, rounds) == limit
    ensures !ok ==> rounds == Log2(limit + 1) && slept == limit && ShutDown(sender)
    ensures ok ==> sender.initialized == old(sender.initialized)
    ensures clock.now >= old(clock.now) + slept * 1_000_000
    ensures || clock.diary == old(clock.diary) + HalvingDiary(limit, rounds, false) + [Polled(ok)]
            || (ok && clock.diary == old(clock.diary) + HalvingDiary(limit, rounds, true) + [Polled(true)])
    ensures sender.world.posted == old(sender.world.posted) + (if sent.Accepted? then [l] else [])
    ensures sender.world.overwritten == old(sender.world.overwritten)
    ensures ok ==> sender.isDone
    ensures ok && !sender.world.overwritten ==> sender.world.wire == StreamBytes(sender.world.posted)
    ensures sent.Accepted? <==> old(sender.initialized) && asked.Accepts()
    ensures old(sender.initialized) ==> asked.During(sender.zc, old(sender.log), sender.log, local)
    ensures old(sender.initialized) && Idle(old(sender.world)) ==> sent.Accepted?
    ensures old(sender.initialized && sender.isTerminatedThread && sender.isDone) ==> ok && sent.WorkerError?
  {
    hide Reaches, MayCopy, StreamBytes, Log2, Idle, StartRank, HalvingDiary, MStep, Asked.During;
    var result;
    result, asked := SendCopy(sender, l, local);
    ghost var sentLog := sender.log;
    sent := result;
    var rest;
    ghost var done;
    rest, rounds, slept, done := HalvingWait(sender, limit, clock);
    RoundsAreLogarithmic(limit);
    ok := PollSender(sender, clock);
    if ok {
      Settle(sender);
    } else {
      ghost var cut := sender.EndSender();
    }
    sender.Discard(local);
    if old(sender.initialized) {
      DuringLonger(asked, sender.zc, old(sender.log), sentLog, local, old(sender.log), sender.log);
    }
  }

  /** A ready sender that says is_terminated_thread has no worker. */
  lemma ReadyIsGone(sender: TcpSender)
    requires sender.Ready()
    ensures sender.initialized && sender.isTerminatedThread ==> sender.world.wpc.WGone?
  {
    hide Reaches;
    ReachableInv(sender.zc, sender.log, sender.world);
    if sender.initialized {
      IdleOrGone(sender.world);
    }
  }

  // -------------------------------------------------------------- pieces of `run`

  /**
   * The user function, told what its RealTimeInfo holds: it answers any list and any choice about
   * stopping, after any running time.
   */
  method CallUser(seqNo: nat, skipped: bool, delayed: nat, clock: MonotonicClock)
    returns (result: PacketList, stopped: bool, began: nat, ended: nat)
    modifies clock
    ensures began == old(clock.now) <= ended == clock.now
    ensures clock.diary == old(clock.diary) + [Called(seqNo, skipped, delayed, result, stopped)]
  {
    result := *;
    stopped := *;
    began := clock.now;
    clock.Pass(false);
    ended := clock.now;
    clock.Note(Called(seqNo, skipped, delayed, result, stopped));
  }

  /** microseconds_sleep(500) */
  method NapHalfMs(clock: MonotonicClock)
    modifies clock
    ensures clock.now >= old(clock.now) + HALF_MS && clock.diary == old(clock.diary) + [Slept(HALF_MS)]
  {
    MicrosecondsSleep(clock, 500);
  }

  /** One turn of the tolerance loop: a poll, and half a millisecond's nap if the send is unfinished. */
  method WaitHalfMs(sender: TcpSender, clock: MonotonicClock) returns (done: bool)
    requires sender.Ready()
    modifies sender, clock
    ensures sender.Ready() && Meanwhile(old(sender.world), sender.world) && (done ==> sender.isDone)
    ensures sender.initialized == old(sender.initialized)
    ensures clock.now >= old(clock.now) + if done then 0 else HALF_MS
    ensures clock.diary == old(clock.diary) + if done then [Polled(true)] else [Polled(false), Slept(HALF_MS)]
  {
    hide Reaches, StartRank;
    done := PollSender(sender, clock);
    if !done {
      NapHalfMs(clock);
    }
  }

  /** The tolerance loop: at most two turns for each tolerated millisecond, and none after a finished send. */
  method WaitTolerated(sender: TcpSender, tolerance: nat, clock: MonotonicClock) returns (used: nat)
    requires sender.Ready()
    modifies sender, clock
    ensures sender.Ready() && Meanwhile(old(sender.world), sender.world)
    ensures sender.initialized == old(sender.initialized)
    ensures used <= 2 * tolerance && (used < 2 * tolerance ==> sender.isDone)
    ensures clock.now >= old(clock.now) + used * HALF_MS
    ensures clock.diary == old(clock.diary) + Waits(used) + if used < 2 * tolerance then [Polled(true)] else []
  {
    hide Reaches, Meanwhile, TcpSender.Valid;
    MeanwhileRefl(sender.world);
    used := 0;
    while used < tolerance * 2
      invariant sender.Ready() && Meanwhile(old(sender.world), sender.world)
      invariant sender.initialized == old(sender.initialized)
      invariant used <= 2 * tolerance
      invariant clock.now >= old(clock.now) + used * HALF_MS
      invariant clock.diary == old(clock.diary) + Waits(used)
    {
      ghost var before := sender.world;
      var done := WaitHalfMs(sender, clock);
      MeanwhileTrans(old(sender.world), before, sender.world);
      if done { break; }
      used := used + 1;
      assert clock.diary == old(clock.diary) + Waits(used);
    }
  }

  datatype SlotMode = GiveUp | SkipResult | SendResultOn

  /** A turn made of the tolerance loop and the polls after it. */
  lemma TurnShape(naps: nat, most: nat, polls: seq<Entry>, done: bool)
    requires naps <= most && |polls| > 0 && polls[|polls| - 1] == Polled(done)
    requires forall k :: 0 <= k < |polls| ==> polls[k].Polled?
    requires naps < most ==> polls[0] == Polled(true)
    ensures TurnFits(Waits(naps) + polls, naps, most, done)
  {
    WaitsSleep(naps);
  }

  /** The tolerance loop, and the two tests of is_send_done and skip mode that follow it. */
  method ChooseMode(sender: TcpSender, tolerance: nat, allowSkip: bool, clock: MonotonicClock)
      returns (mode: SlotMode, used: nat, ghost turn: seq<Entry>)
    requires sender.Ready()
    modifies sender, clock
    ensures sender.Ready() && Steady(old(sender.world), sender.world) && clock.now >= old(clock.now) + used * HALF_MS
    ensures sender.initialized == old(sender.initialized)
    ensures clock.diary == old(clock.diary) + turn && TurnFits(turn, used, 2 * tolerance, mode.SendResultOn?)
    ensures used <= 2 * tolerance && sender.isDone == mode.SendResultOn?
    ensures mode.GiveUp? ==> !allowSkip && used == 2 * tolerance
    ensures mode.SkipResult? ==> allowSkip && used == 2 * tolerance
  {
    hide Reaches, StartRank, Waits, TurnFits;
    used := WaitTolerated(sender, tolerance, clock);
    ghost var polls := if used < 2 * tolerance then [Polled(true)] else [];
    var done := PollSender(sender, clock);
    polls := polls + [Polled(done)];
    if !done && !allowSkip {
      TurnShape(used, 2 * tolerance, polls, false);
      return GiveUp, used, Waits(used) + polls;
    }
    done := PollSender(sender, clock);
    polls := polls + [Polled(done)];
    mode := if !done && allowSkip then SkipResult else SendResultOn;
    TurnShape(used, 2 * tolerance, polls, done);
    turn := Waits(used) + polls;
  }

  /** The sender is shut down, and nothing reads the caller's lists any more. */
  predicate Ended(sender: TcpSender)
    reads sender
  {
    ShutDown(sender) && !MayCopy(sender.world)
  }

  /** After a slot the sender is ready, unless the assignment to the list variable tore a copy. */
  ghost predicate ReadyUnless(sender: TcpSender, torn: bool)
    reads sender
  {
    sender.Valid() && sender.world.mpc.MIdle? && !sender.world.freed && sender.world.torn == torn
  }

  /**
   * The call of the user function, and the assignment of its result to the list variable. `pending`: the
   * worker could still copy the list variable when the assignment began.
   */
  method TakeResult(sender: TcpSender, seqNo: nat, skipped: bool, delayed: nat, list: ListId, clock: MonotonicClock)
    returns (result: PacketList, stopped: bool, began: nat, ended: nat, pending: bool)
    requires sender.Ready() && list in sender.world.heap
    modifies sender, clock
    ensures ReadyUnless(sender, sender.world.torn)
    ensures began == old(clock.now) <= ended == clock.now
    ensures clock.diary == old(clock.diary) + [Called(seqNo, skipped, delayed, result, stopped)]
    ensures sender.world.heap == old(sender.world).heap[list := result]
    ensures sender.world.posted == old(sender.world).posted
    ensures old(sender.world).overwritten ==> sender.world.overwritten
    ensures !pending ==> !sender.world.torn && sender.world.overwritten == old(sender.world).overwritten
    ensures old(sender.isDone) ==> sender.isDone && !pending
    ensures sender.initialized == old(sender.initialized)
  {
    hide Reaches, MayCopy, MStep, StartRank, Idle;
    result, stopped, began, ended := CallUser(seqNo, skipped, delayed, clock);
    sender.Interfere();
    if sender.isDone {
      Settle(sender);
    }
    pending := Pending(sender.world, list);
    ghost var written := sender.Assign(list, result);
  }

  /** Why a ready sender, or one that was not ready, refused a list: it keeps the worker's verdict. */
  predicate Refused(sender: TcpSender, r: SendResult, ready: bool)
    reads sender
  {
    if ready
    then
      && r.WorkerError? && sender.isTerminatedThread && sender.isError
      && sender.errorCode == r.code && ErrorCode(sender.zc, r.code)
    else r.NotInitialized?
  }

  /** The timer was asked for its tick before the slot ended this way. */
  predicate Ticks(end: SlotEnd) {
    end.Continue? || end == Leave(TickMissed)
  }

  /** The verdict that a refusal keeps names a failure of the run. */
  lemma RefusalIsCaused(sender: TcpSender, code: Code)
    requires sender.Ready() && Refused(sender, WorkerError(code), true)
    ensures Caused(sender.zc, sender.log, code)
  {
    hide Reaches, Caused;
    TerminatedMeansGone(sender.zc, sender.log, sender.world);
    ReachableInv(sender.zc, sender.log, sender.world);
    NoWorkerNoError(sender.world);
    ErrorIffFailure(sender.zc, sender.log, sender.world, code);
  }

  lemma NoWorkerNoError(s: State)
    requires Inv(s) && s.isError
    ensures !s.wpc.WNone?
  {
  }

  lemma RestIsOneSleep(timer: AnyTimer, t: Tick, entry: int)
    ensures TickSleep(timer.Rest(t, entry))
  {
  }

  /** The end of a slot: the sleep to the tick, and the shutdown of the sender if the tick was missed. */
  method FinishSlot(sender: TcpSender, timer: AnyTimer, clock: MonotonicClock)
    returns (end: SlotEnd, ghost entry: nat, ghost rest: seq<Entry>)
    requires sender.Ready() && GoodTick(timer.View()) && Ns(timer.View().start) <= clock.now
    modifies sender, timer.Obj(), clock
    ensures sender.Ready() && Steady(old(sender.world), sender.world) && timer.Started() == old(timer.Started())
    ensures GoodTick(timer.View()) && Ns(timer.View().start) <= clock.now
    ensures old(clock.now) <= entry <= clock.now
    ensures TickOutcome(old(timer.View()), timer.View(), entry, clock.now, end.Continue?)
    ensures if end.Continue? then sender.initialized == old(sender.initialized)
            else end == Leave(TickMissed) && Ended(sender)
    ensures clock.diary == old(clock.diary) + rest && rest == timer.Rest(old(timer.View()), entry) && TickSleep(rest)
  {
    hide Reaches, MayCopy, GoodTick, TickOutcome, MStep, StartRank, Idle, AnyTimer.Rest;
    ghost var tick := timer.View();
    var ok;
    ok, entry := timer.SleepToNextTick(clock);
    rest := timer.Rest(tick, entry);
    RestIsOneSleep(timer, tick, entry);
    end := Continue;
    if !ok {
      ghost var cut := sender.EndSender();
      end := Leave(TickMissed);
    }
  }

  /** A slot whose result is thrown away. */
  method SkipSlot(sender: TcpSender, timer: AnyTimer, tolerance: nat, seqNo: nat, used: nat, turnAt: nat,
      list: ListId, clock: MonotonicClock)
    returns (end: SlotEnd, call: Call, ghost entry: nat, ghost rest: seq<Entry>)
    requires sender.Ready() && list in sender.world.heap
    requires GoodTick(timer.View()) && Ns(timer.View().start) <= clock.now
    requires used == 2 * tolerance && clock.now >= turnAt + used * HALF_MS
    modifies sender, timer.Obj(), clock
    ensures timer.Started() == old(timer.Started())
    ensures ReadyUnless(sender, end == Leave(Torn)) && list in sender.world.heap
    ensures GoodTick(timer.View()) && Ns(timer.View().start) <= clock.now
    ensures sender.world.posted == old(sender.world).posted
    ensures old(sender.world).overwritten ==> sender.world.overwritten
    ensures !call.pending ==> sender.world.overwritten == old(sender.world).overwritten && end != Leave(Torn)
    ensures sender.world.heap == old(sender.world).heap[list := call.result]
    ensures CallFits(call, seqNo, tolerance) && call.skipped && call.turnAt == turnAt && call.naps == used
    ensures call.began == old(clock.now) <= clock.now && call.wire == old(sender.world).wire
    ensures clock.diary == old(clock.diary) + [Noted(call)] + rest
    ensures rest == if Ticks(end) then timer.Rest(old(timer.View()), entry) else []
    ensures TickSleep(rest)
    ensures end.Continue? ==> sender.initialized == old(sender.initialized)
    ensures end.Continue? ==>
              !call.stopped && call.ended <= entry <= clock.now
              && TickOutcome(old(timer.View()), timer.View(), entry, clock.now, true)
    ensures end.Leave? ==>
              match end.outcome {
                case Torn => true
                case StoppedByUser => call.stopped && Ended(sender)
                case TickMissed =>
                  && !call.stopped && call.ended <= entry <= clock.now && Ended(sender)
                  && TickOutcome(old(timer.View()), timer.View(), entry, clock.now, false)
                case _ => false
              }
  {
    hide Reaches, MayCopy, GoodTick, TickOutcome, MStep, StartRank, AnyTimer.Rest, Left, Caused, Asked.During;
    var wire := sender.world.wire;
    var result, stopped, began, ended, pending := TakeResult(sender, seqNo, true, used / 2, list, clock);
    call := Call(seqNo, true, used / 2, used, turnAt, result, pending, stopped, false, began, ended, wire);
    entry, rest := 0, [];
    if sender.world.torn {
      return Leave(Torn), call, entry, rest;
    }
    if stopped {
      ghost var cut := sender.EndSender();
      return Leave(StoppedByUser), call, entry, rest;
    }
    end, entry, rest := FinishSlot(sender, timer, clock);
  }

  /** A slot whose result is sent. */
  method SendSlot(sender: TcpSender, timer: AnyTimer, tolerance: nat, seqNo: nat, used: nat, turnAt: nat,
      list: ListId, clock: MonotonicClock)
    returns (end: SlotEnd, call: Call, ghost entry: nat, ghost rest: seq<Entry>)
    requires sender.Ready() && list in sender.world.heap && sender.isDone
    requires GoodTick(timer.View()) && Ns(timer.View().start) <= clock.now
    requires used <= 2 * tolerance && clock.now >= turnAt + used * HALF_MS
    modifies sender, timer.Obj(), clock
    ensures timer.Started() == old(timer.Started())
    ensures sender.Ready() && list in sender.world.heap
    ensures GoodTick(timer.View()) && Ns(timer.View().start) <= clock.now
    ensures sender.world.posted == old(sender.world).posted + if call.accepted then [call.result] else []
    ensures sender.world.overwritten == old(sender.world).overwritten
    ensures sender.world.heap == old(sender.world).heap[list := call.result]
    ensures CallFits(call, seqNo, tolerance) && !call.skipped && call.turnAt == turnAt && call.naps == used
    ensures call.began == old(clock.now) <= clock.now && call.wire == old(sender.world).wire
    ensures clock.diary == old(clock.diary) + [Noted(call)] + rest
    ensures rest == if Ticks(end) then timer.Rest(old(timer.View()), entry) else []
    ensures TickSleep(rest)
    ensures end.Continue? ==> sender.initialized == old(sender.initialized)
    ensures end.Continue? ==>
              call.accepted && call.ended <= entry <= clock.now
              && TickOutcome(old(timer.View()), timer.View(), entry, clock.now, true)
    ensures end.Leave? ==>
              Ended(sender)
              && match end.outcome {
                   case StoppedByUser => call.stopped
                   case SendRefused(r) =>
                     !call.stopped && !call.accepted && Refused(sender, r, old(sender.initialized))
                   case TickMissed =>
                     && call.accepted && call.ended <= entry <= clock.now
                     && TickOutcome(old(timer.View()), timer.View(), entry, clock.now, false)
                   case _ => false
                 }
  {
    hide Reaches, MayCopy, GoodTick, TickOutcome, MStep, StartRank, Idle, AnyTimer.Rest, Left, Caused, Asked.During,
        ErrorCode;
    var wire := sender.world.wire;
    var result, stopped, began, ended, pending := TakeResult(sender, seqNo, false, used, list, clock);
    call := Call(seqNo, false, used, used, turnAt, result, pending, stopped, false, began, ended, wire);
    entry, rest := 0, [];
    if stopped {
      ghost var cut := sender.EndSender();
      return Leave(StoppedByUser), call, entry, rest;
    }
    var r;
    ghost var asked;
    r, asked := sender.Send(list);
    if !r.Accepted? {
      ghost var cut := sender.EndSender();
      return Leave(SendRefused(r)), call, entry, rest;
    }
    call := call.(accepted := true);
    end, entry, rest := FinishSlot(sender, timer, clock);
  }

  /** One turn of the loop of `run`, from the tolerance loop on. `turn` lists its naps, its polls and its call. */
  method OneSlot(sender: TcpSender, timer: AnyTimer, tolerance: nat, allowSkip: bool, seqNo: nat, list: ListId,
      clock: MonotonicClock)
    returns (end: SlotEnd, call: Option<Call>, ghost entry: nat, ghost turn: seq<Entry>)
    requires sender.Ready() && list in sender.world.heap
    requires GoodTick(timer.View()) && Ns(timer.View().start) <= clock.now
    modifies sender, timer.Obj(), clock
    ensures timer.Started() == old(timer.Started())
    ensures ReadyUnless(sender, end == Leave(Torn)) && list in sender.world.heap
    ensures sender.world.heap - {list} == old(sender.world).heap - {list}
    ensures clock.now >= old(clock.now) && clock.diary == old(clock.diary) + turn
    ensures GoodTick(timer.View()) && Ns(timer.View().start) <= clock.now
    ensures old(sender.world).overwritten ==> sender.world.overwritten
    ensures call.None? || !call.value.pending ==>
              sender.world.overwritten == old(sender.world).overwritten && end != Leave(Torn)
    ensures sender.world.posted ==
            old(sender.world).posted + if call.Some? && call.value.accepted then [call.value.result] else []
    ensures call.None? <==> end == Leave(SendTooLong)
    ensures call.None? ==>
              !allowSkip && TurnFits(turn, 2 * tolerance, 2 * tolerance, false)
              && clock.now >= old(clock.now) + 2 * tolerance * HALF_MS
    ensures call.Some? ==>
              && CallFits(call.value, seqNo, tolerance) && old(clock.now) == call.value.turnAt <= call.value.began
              && CallTurn(turn, call.value, tolerance)
              && (call.value.skipped || call.value.pending ==> allowSkip)
              && (!call.value.skipped && !sender.world.overwritten ==>
                    call.value.wire == StreamBytes(old(sender.world).posted))
    ensures end.Continue? ==>
              && call.Some? && Served(call.value) && old(clock.now) <= call.value.ended <= entry <= clock.now
              && TickOutcome(old(timer.View()), timer.View(), entry, clock.now, true)
    ensures call.Some? ==> turn == UpToCall(turn) + if Ticks(end) then timer.Rest(old(timer.View()), entry) else []
    ensures end.Continue? ==> sender.initialized == old(sender.initialized)
    ensures end.Leave? ==> LeavesWith(end.outcome, call) && (end.outcome.Torn? || Ended(sender))
    ensures end.Leave? && end.outcome.SendRefused? ==> Refused(sender, end.outcome.r, old(sender.initialized))
    ensures end == Leave(TickMissed) ==>
              && old(clock.now) <= call.value.ended <= entry <= clock.now
              && TickOutcome(old(timer.View()), timer.View(), entry, clock.now, false)
  {
    hide Reaches, MayCopy, GoodTick, TickOutcome, StreamBytes, Meanwhile, TurnFits, CallTurn, UpToCall, AnyTimer.Rest,
        TickSleep, MStep, Waits, Refused;
    var turnAt := clock.now;
    var mode, used;
    mode, used, turn := ChooseMode(sender, tolerance, allowSkip, clock);
    var c;
    ghost var rest;
    match mode {
      case GiveUp =>
        ghost var cut := sender.EndSender();
        return Leave(SendTooLong), None, 0, turn;
      case SkipResult =>
        end, c, entry, rest := SkipSlot(sender, timer, tolerance, seqNo, used, turnAt, list, clock);
      case SendResultOn =>
        Settle(sender);
        end, c, entry, rest := SendSlot(sender, timer, tolerance, seqNo, used, turnAt, list, clock);
    }
    call := Some(c);
    CallTurnShape(turn, c, rest, tolerance);
    turn := turn + [Noted(c)] + rest;
  }

  /** What the loop of `run` knows about its log after any number of slots. */
  predicate LogFits(calls: seq<Call>, before: seq<PacketList>, posted: seq<PacketList>, overwritten: bool,
                    tolerance: nat, t0: nat, p: nat) {
    && Placed(calls, tolerance, t0, p)
    && posted == before + Delivered(calls)
    && (!overwritten ==> WiresComplete(calls, before))
  }

  lemma LogFitsGrows(calls: seq<Call>, c: Call, before: seq<PacketList>, posted: seq<PacketList>,
      posted': seq<PacketList>, overwritten: bool, overwritten': bool, tolerance: nat, t0: nat, p: nat)
    requires LogFits(calls, before, posted, overwritten, tolerance, t0, p)
    requires CallFits(c, |calls|, tolerance) && c.began >= t0 + SlotStart(p, |calls|)
    requires posted' == posted + if c.accepted then [c.result] else []
    requires overwritten ==> overwritten'
    requires !c.skipped && !overwritten' ==> c.wire == StreamBytes(posted)
    ensures LogFits(calls + [c], before, posted', overwritten', tolerance, t0, p)
  {
    PlacedGrows(calls, c, tolerance, t0, p);
    LogGrows(calls, c);
    assert before + (Delivered(calls) + if c.accepted then [c.result] else []) == posted';
    if !overwritten' {
      WiresGrow(calls, c, before);
    }
  }

  /** A successful tick: the timer moves to the next closed-form deadline, and the call was on time. */
  lemma TickTaken(start: Timespec, p: U64, n: nat, t': Tick, entry: int, now: int)
    requires Normal(start) && 0 < p <= PS_PER_SEC
    requires var t := TickAfter(FirstTick(start, p), n); Ns(t.start) <= entry && TickOutcome(t, t', entry, now, true)
    ensures t' == TickAfter(FirstTick(start, p), n + 1)
    ensures now >= Ns(start) + T(p, n + 1)
    ensures entry - Ns(start) < TWO64 ==> entry <= Ns(start) + T(p, n + 1)
  {
    hide T, GoodTick, NextTick, SleepFor;
    ClosedForm(start, p, n);
    var t := TickAfter(FirstTick(start, p), n);
    if entry - Ns(start) < TWO64 {
      OutcomeExact(t, t', entry, now, true);
    }
  }

  /** How the last call of the user function goes with the way `run` ends in its slot. */
  predicate LeavesWith(outcome: Outcome, call: Option<Call>) {
    match outcome
    case SendTooLong => call.None?
    case StoppedByUser => call.Some? && call.value.stopped
    case SendRefused(r) =>
      call.Some? && !call.value.stopped && !call.value.skipped && !call.value.accepted
    case TickMissed => call.Some? && Served(call.value)
    case Torn => call.Some? && call.value.pending
    case _ => false
  }

  /** Everything accepted so far bounds the wire. */
  lemma WireBound(sender: TcpSender)
    requires sender.Ready() && !sender.world.overwritten
    ensures sender.world.wire <= StreamBytes(sender.world.posted)
  {
    hide Reaches;
    StreamFidelity(sender.zc, sender.log, sender.world);
  }

  /** The end of `run` in the slot `call`: user_packets_list goes out of scope. */
  method LeaveRun(sender: TcpSender, local: ListId)
    requires sender.Ready() && local in sender.world.heap && !MayCopy(sender.world)
    modifies sender
    ensures sender.Ready() && sender.world.heap == old(sender.world).heap - {local}
    ensures ShutDown(sender) == old(ShutDown(sender)) && sender.initialized == old(sender.initialized)
    ensures forall r, ready :: Refused(sender, r, ready) == old(Refused(sender, r, ready))
    ensures sender.world.posted == old(sender.world).posted && sender.world.overwritten == old(sender.world).overwritten
  {
    hide Reaches, MayCopy;
    sender.Discard(local);
  }

  /** How `run` ends, in terms of its calls of the user function, `served` of which ended in time. */
  predicate EndsWith(outcome: Outcome, calls: seq<Call>, served: nat, f: nat, allowSkip: bool, fuel: nat) {
    match outcome
    case NotReady => false
    case TimerFailed => false
    case StillRunning => served == |calls| == fuel
    case Disconnected => served == |calls| && SkipStreak(calls) == 3 * f
    case SendTooLong => served == |calls| && !allowSkip
    case _ => served + 1 == |calls| && LeavesWith(outcome, Some(calls[served]))
  }

  /** All calls so far were served in their slots, and `skipped` counts the current streak. */
  predicate SoFar(calls: seq<Call>, skipped: nat, most: nat, allowSkip: bool, t0: nat, p: nat, now: nat) {
    && AllServed(calls) && Connected(calls, most)
    && skipped == SkipStreak(calls) <= most
    && (!allowSkip ==> Skips(calls) == 0)
    && now >= t0 + SlotStart(p, |calls|)
    && (now < t0 + TWO64 ==> OnTime(calls, |calls|, t0, p))
  }

  lemma SoFarGrows(calls: seq<Call>, skipped: nat, most: nat, allowSkip: bool, t0: nat, p: nat, now: nat, c: Call,
      entry: nat, now': nat)
    requires SoFar(calls, skipped, most, allowSkip, t0, p, now) && skipped < most
    requires Served(c) && (c.skipped ==> allowSkip) && c.ended <= entry <= now' && now <= now'
    requires now' >= t0 + T(p, |calls| + 1)
    requires entry - t0 < TWO64 ==> entry <= t0 + T(p, |calls| + 1)
    ensures SoFar(calls + [c], if c.skipped then skipped + 1 else 0, most, allowSkip, t0, p, now')
  {
    hide T, OnTime, Connected, AllServed, SkipStreak, Skips, Served;
    ConnectedGrows(calls, c, most);
    LogGrows(calls, c);
    ServedGrows(calls, c);
    if now' < t0 + TWO64 {
      OnTimeGrows(calls, c, t0, p);
    }
  }

  /** A failed tick came after the closed-form deadline. */
  lemma TickLate(start: Timespec, p: U64, n: nat, t': Tick, entry: int, now: int)
    requires Normal(start) && 0 < p <= PS_PER_SEC
    requires var t := TickAfter(FirstTick(start, p), n); Ns(t.start) <= entry && TickOutcome(t, t', entry, now, false)
    ensures entry - Ns(start) < TWO64 ==> entry > Ns(start) + T(p, n + 1)
  {
    hide T, GoodTick, NextTick, SleepFor;
    ClosedForm(start, p, n);
    var t := TickAfter(FirstTick(start, p), n);
    if entry - Ns(start) < TWO64 {
      OutcomeExact(t, t', entry, now, false);
    }
  }

  /** What the calls amount to when `run` leaves with, or without, a last call. */
  lemma SoFarLeaves(calls: seq<Call>, skipped: nat, most: nat, allowSkip: bool, t0: nat, p: nat, now: nat,
      call: Option<Call>, now': nat)
    requires SoFar(calls, skipped, most, allowSkip, t0, p, now) && skipped < most && now <= now'
    requires call.Some? && call.value.skipped ==> allowSkip
    ensures var all := if call.Some? then calls + [call.value] else calls;
            && AllServed(all[..|calls|]) && Connected(all, most) && (!allowSkip ==> Skips(all) == 0)
            && (now' < t0 + TWO64 ==> OnTime(all, |calls|, t0, p))
  {
    hide T, Connected;
    if call.Some? {
      ConnectedGrows(calls, call.value, most);
      LogGrows(calls, call.value);
      assert (calls + [call.value])[..|calls|] == calls;
    } else {
      assert calls[..|calls|] == calls;
    }
  }

  /** Where a run began: the timer's first tick, the state of the sender, and the diary. */
  datatype Origin = Origin(first: Tick, world: State, diary: seq<Entry>) {
    function Start(): int {
      Ns(first.start)
    }
  }

  /** The log of the calls and of the turns so far, against what the sender and the clock show. */
  predicate Books(g: Origin, p: nat, tolerance: nat, calls: seq<Call>, turns: seq<seq<Entry>>,
      posted: seq<PacketList>, overwritten: bool, diary: seq<Entry>)
    requires g.Start() >= 0
  {
    && LogFits(calls, g.world.posted, posted, overwritten, tolerance, g.Start(), p)
    && (NonePending(calls) ==> overwritten == g.world.overwritten)
    && diary == g.diary + Flat(turns) && TurnsFit(turns, calls, tolerance)
  }

  /** A turn, with or without a call, keeps the books. */
  lemma BooksGrow(g: Origin, p: nat, tolerance: nat, calls: seq<Call>, turns: seq<seq<Entry>>, posted: seq<PacketList>,
      overwritten: bool, diary: seq<Entry>, call: Option<Call>, turn: seq<Entry>, posted': seq<PacketList>,
      overwritten': bool)
    requires g.Start() >= 0 && Books(g, p, tolerance, calls, turns, posted, overwritten, diary) && |turns| == |calls|
    requires overwritten ==> overwritten'
    requires call.None? || !call.value.pending ==> overwritten' == overwritten
    requires posted' == posted + if call.Some? && call.value.accepted then [call.value.result] else []
    requires call.Some? ==>
               var c := call.value;
               && CallTurn(turn, c, tolerance) && CallFits(c, |calls|, tolerance)
               && c.began >= g.Start() + SlotStart(p, |calls|)
               && (!c.skipped && !overwritten' ==> c.wire == StreamBytes(posted))
    ensures Books(g, p, tolerance, if call.Some? then calls + [call.value] else calls, turns + [turn], posted',
                  overwritten', diary + turn)
  {
    hide LogFits, CallTurn, TurnsFit, NonePending, StreamBytes, SlotStart, CallFits;
    TurnsGrow(turns, turn);
    assert g.diary + Flat(turns) + turn == g.diary + (Flat(turns) + turn);
    if call.Some? {
      LogFitsGrows(calls, call.value, g.world.posted, posted, posted', overwritten, overwritten', tolerance,
                   g.Start(), p);
      NonePendingSplits(calls, call.value);
      TurnsFitGrows(turns, turn, calls, call.value, tolerance);
    } else {
      TurnsLonger(turns, turn, calls, tolerance);
      assert posted + [] == posted;
    }
  }

  /** The loop of `run` is at its head, after |calls| slots. */
  ghost predicate AtHead(g: Origin, f: nat, tolerance: nat, allowSkip: bool, calls: seq<Call>, turns: seq<seq<Entry>>,
      skipped: nat, local: ListId, sender: TcpSender, timer: AnyTimer, clock: MonotonicClock)
    requires g.Start() >= 0 && 1 <= f <= MAX_FREQUENCY
    reads sender, timer.Obj(), clock
  {
    && sender.Ready() && local in sender.world.heap && sender.world.heap - {local} == g.world.heap
    && timer.View() == TickAfter(g.first, |calls|) && GoodTick(timer.View()) && Ns(timer.View().start) <= clock.now
    && Books(g, Period(f), tolerance, calls, turns, sender.world.posted, sender.world.overwritten, clock.diary)
    && |turns| == |calls|
    && SoFar(calls, skipped, 3 * f, allowSkip, g.Start(), Period(f), clock.now)
    && (!allowSkip ==> NonePending(calls)) && sender.initialized == g.world.initialized
  }

  /** What a run that has ended, or is observed no longer, leaves behind. */
  ghost predicate RunEnds(g: Origin, f: nat, tolerance: nat, allowSkip: bool, fuel: nat, outcome: Outcome,
      calls: seq<Call>, turns: seq<seq<Entry>>, served: nat, sender: TcpSender, clock: MonotonicClock)
    requires g.Start() >= 0 && 1 <= f <= MAX_FREQUENCY
    reads sender, clock
  {
    && Books(g, Period(f), tolerance, calls, turns, sender.world.posted, sender.world.overwritten, clock.diary)
    && (!allowSkip ==> Skips(calls) == 0 && NonePending(calls))
    && Connected(calls, 3 * f)
    && served <= |calls| && AllServed(calls[..served])
    && (clock.now < g.Start() + TWO64 ==> OnTime(calls, served, g.Start(), Period(f)))
    && EndsWith(outcome, calls, served, f, allowSkip, fuel)
    && (outcome.TickMissed? && clock.now < g.Start() + TWO64 ==> clock.now > g.Start() + T(Period(f), served + 1))
    && (outcome.SendTooLong? ==> SlotGivenUp(calls, turns, tolerance, g.Start(), Period(f), clock.now))
    && (outcome.SendRefused? ==> Refused(sender, outcome.r, g.world.initialized))
    && (outcome.StillRunning? ==> sender.initialized == g.world.initialized)
    && ReadyUnless(sender, outcome.Torn?)
    && (!outcome.StillRunning? && !outcome.Torn? ==> ShutDown(sender) && sender.world.heap == g.world.heap)
  }

  /**
   * The last turn took every nap of the tolerance, at least `tolerance` ms, and its last poll found the
   * send unfinished.
   */
  predicate SlotGivenUp(calls: seq<Call>, turns: seq<seq<Entry>>, tolerance: nat, t0: int, p: nat, now: int) {
    && |turns| == |calls| + 1 && TurnFits(turns[|calls|], 2 * tolerance, 2 * tolerance, false)
    && now >= t0 + SlotStart(p, |calls|) + tolerance * 1_000_000
  }

  /** One turn of the loop: it goes back to the head of the loop with one call more, or the run ends. */
  method Turn(sender: TcpSender, timer: AnyTimer, f: nat, tolerance: nat, allowSkip: bool, ghost fuel: nat,
      local: ListId, clock: MonotonicClock, seqNo: nat, calls: seq<Call>, skipped: nat, ghost turns: seq<seq<Entry>>,
      ghost g: Origin)
    returns (end: SlotEnd, calls': seq<Call>, skipped': nat, ghost turns': seq<seq<Entry>>)
    requires Normal(g.first.start) && 1 <= f <= MAX_FREQUENCY && g.Start() >= 0
    requires g.first == FirstTick(g.first.start, Period(f)) && seqNo == |calls|
    requires AtHead(g, f, tolerance, allowSkip, calls, turns, skipped, local, sender, timer, clock) && skipped < 3 * f
    modifies sender, timer.Obj(), clock
    ensures timer.Started() == old(timer.Started())
    ensures end.Continue? ==>
              && AtHead(g, f, tolerance, allowSkip, calls', turns', skipped', local, sender, timer, clock)
              && |calls'| == |calls| + 1
    ensures end.Leave? ==>
              && !end.outcome.StillRunning? && !end.outcome.Disconnected?
              && RunEnds(g, f, tolerance, allowSkip, fuel, end.outcome, calls', turns', |calls|, sender, clock)
  {
    hide Reaches, MayCopy, GoodTick, TickOutcome, StreamBytes, LogFits, SoFar, FirstTick, NextTick, T, CallFits,
        TurnFits, TurnsFit, Flat, Connected, Skips, NonePending, Ns, Period, OnTime, TcpSender.Agrees, TcpSender.Valid,
        CallTurn, Refused, Books, AnyTimer.Rest, UpToCall, SlotStart, AllServed;
    ghost var t0, p := g.Start(), Period(f);
    PeriodIsPositive(f);
    SoFarBounds(calls, skipped, 3 * f, allowSkip, t0, p, clock.now);
    ghost var was, now0, diary0 := sender.world, clock.now, clock.diary;
    var call;
    ghost var entry, turn;
    end, call, entry, turn := OneSlot(sender, timer, tolerance, allowSkip, seqNo, local, clock);
    turns' := turns + [turn];
    skipped' := 0;
    calls' := if call.Some? then calls + [call.value] else calls;
    BooksGrow(g, p, tolerance, calls, turns, was.posted, was.overwritten, diary0, call, turn, sender.world.posted,
              sender.world.overwritten);
    if call.Some? {
      NonePendingSplits(calls, call.value);
    }
    if end.Leave? {
      SoFarLeaves(calls, skipped, 3 * f, allowSkip, t0, p, now0, call, clock.now);
      if end.outcome.TickMissed? {
        TickLate(g.first.start, p, |calls|, timer.View(), entry, clock.now);
      }
      if !end.outcome.Torn? {
        LeaveRun(sender, local);
      }
      return;
    }
    TickTaken(g.first.start, p, |calls|, timer.View(), entry, clock.now);
    SoFarGrows(calls, skipped, 3 * f, allowSkip, t0, p, now0, call.value, entry, clock.now);
    skipped' := if call.value.skipped then skipped + 1 else 0;
  }

  lemma PeriodIsPositive(f: nat)
    requires 1 <= f <= MAX_FREQUENCY
    ensures 0 < Period(f) <= PS_PER_SEC
  {
    QuotientAtLeast(PS_PER_SEC, f, 1);
  }

  lemma TurnsLonger(turns: seq<seq<Entry>>, turn: seq<Entry>, calls: seq<Call>, tolerance: nat)
    requires TurnsFit(turns, calls, tolerance)
    ensures TurnsFit(turns + [turn], calls, tolerance)
  {
  }

  /** DataPacketsList user_packets_list(0): the head of the loop is reached with nothing called yet. */
  method CreateList(sender: TcpSender, timer: AnyTimer, f: nat, tolerance: nat, allowSkip: bool, local: ListId,
      clock: MonotonicClock, ghost g: Origin)
    requires sender.Ready() && local !in sender.world.heap && 1 <= f <= MAX_FREQUENCY && g.Start() >= 0
    requires GoodTick(timer.View()) && g.Start() <= clock.now
    requires g == Origin(timer.View(), sender.world, clock.diary)
    modifies sender
    ensures AtHead(g, f, tolerance, allowSkip, [], [], 0, local, sender, timer, clock)
  {
    hide Reaches, MayCopy, GoodTick, LogFits, SoFar, NextTick, Ns, Period, NonePending, MStep, StartRank, Idle;
    WaitingIsAlive(sender);
    ghost var written := sender.Assign(local, []);
    StartsEmpty(g.world.posted, sender.world.overwritten, tolerance, 3 * f, allowSkip, g.Start(), Period(f), clock.now);
    assert sender.world.heap - {local} == g.world.heap;
    assert clock.diary == g.diary + Flat([]);
  }

  /**
   * The loop of `run`, observed for at most `fuel` slots. `local` is the address of
   * user_packets_list; the timer has just been started with frequency f.
   */
  method RunLoop(sender: TcpSender, timer: AnyTimer, f: nat, tolerance: nat, allowSkip: bool, fuel: nat,
                 local: ListId, clock: MonotonicClock)
    returns (outcome: Outcome, calls: seq<Call>, ghost turns: seq<seq<Entry>>, ghost served: nat)
    requires sender.Ready() && local !in sender.world.heap
    requires 1 <= f <= MAX_FREQUENCY
    requires Normal(timer.View().start) && Ns(timer.View().start) <= clock.now
    requires timer.View() == FirstTick(timer.View().start, Period(f))
    modifies sender, timer.Obj(), clock
    ensures timer.Started() == old(timer.Started())
    ensures Ns(old(timer.View()).start) >= 0
    ensures RunEnds(Origin(old(timer.View()), old(sender.world), old(clock.diary)), f, tolerance, allowSkip, fuel,
                    outcome, calls, turns, served, sender, clock)
    ensures !outcome.NotReady? && !outcome.TimerFailed?
  {
    hide Reaches, MayCopy, GoodTick, StreamBytes, LogFits, SoFar, FirstTick, NextTick, T, Connected, Skips, NonePending,
        Ns, Period, OnTime, TcpSender.Agrees, TcpSender.Valid, Books, Refused, SlotGivenUp, Flat;
    ghost var g := Origin(timer.View(), sender.world, clock.diary);
    StartOfRun(g.first, f);
    CreateList(sender, timer, f, tolerance, allowSkip, local, clock, g);
    calls, turns, served := [], [], 0;
    var sequenceNumber, skipped := -1, 0;
    while |calls| < fuel
      invariant AtHead(g, f, tolerance, allowSkip, calls, turns, skipped, local, sender, timer, clock)
      invariant served == |calls| <= fuel && sequenceNumber == |calls| - 1
      invariant timer.Started() == old(timer.Started())
      decreases fuel - |calls|
    {
      sequenceNumber := sequenceNumber + 1;
      SoFarBounds(calls, skipped, 3 * f, allowSkip, g.Start(), Period(f), clock.now);
      if skipped == 3 * f {
        ghost var cut := sender.EndSender();
        LeaveRun(sender, local);
        return Disconnected, calls, turns, served;
      }
      var end;
      end, calls, skipped, turns :=
        Turn(sender, timer, f, tolerance, allowSkip, fuel, local, clock, sequenceNumber, calls, skipped, turns, g);
      if end.Leave? {
        return end.outcome, calls, turns, served;
      }
      served := served + 1;
    }
    SoFarBounds(calls, skipped, 3 * f, allowSkip, g.Start(), Period(f), clock.now);
    outcome := StillRunning;
  }

  lemma StartOfRun(first: Tick, f: nat)
    requires 1 <= f <= MAX_FREQUENCY && Normal(first.start) && first == FirstTick(first.start, Period(f))
    ensures Ns(first.start) >= 0 && 0 < Period(f) <= PS_PER_SEC && GoodTick(first)
  {
    QuotientAtLeast(PS_PER_SEC, f, 1);
    FirstTickGood(first.start, Period(f));
  }

  lemma StartsEmpty(before: seq<PacketList>, overwritten: bool, tolerance: nat, most: nat, allowSkip: bool, t0: nat,
      p: nat, now: nat)
    requires t0 <= now
    ensures LogFits([], before, before, overwritten, tolerance, t0, p) && SoFar([], 0, most, allowSkip, t0, p, now)
    ensures NonePending([])
  {
  }

  lemma SoFarBounds(calls: seq<Call>, skipped: nat, most: nat, allowSkip: bool, t0: nat, p: nat, now: nat)
    requires SoFar(calls, skipped, most, allowSkip, t0, p, now)
    ensures skipped == SkipStreak(calls) <= most && Connected(calls, most)
    ensures AllServed(calls[..|calls|]) && (!allowSkip ==> Skips(calls) == 0)
    ensures now >= t0 + SlotStart(p, |calls|)
    ensures now < t0 + TWO64 ==> OnTime(calls, |calls|, t0, p)
  {
    assert calls[..|calls|] == calls;
  }

  /**
   * Skip accounting: the user is called once for each list accepted, once for each skip, and at
   * most once more: for the list that was refused, or to stop the system.
   */
  lemma CallsAddUp(outcome: Outcome, calls: seq<Call>, served: nat, f: nat, allowSkip: bool, fuel: nat, tolerance: nat)
    requires EndsWith(outcome, calls, served, f, allowSkip, fuel)
    requires served <= |calls| && AllServed(calls[..served])
    requires served < |calls| ==> CallFits(calls[served], served, tolerance)
    ensures |calls| == |Delivered(calls)| + Skips(calls) +
              match outcome {
                case SendRefused(_) => 1
                case StoppedByUser => if calls[served].skipped then 0 else 1
                case _ => 0
              }
  {
    DeliveriesAndSkips(calls[..served]);
    if served < |calls| {
      LogGrows(calls[..served], calls[served]);
      assert calls == calls[..served] + [calls[served]];
    } else {
      assert calls[..served] == calls;
    }
  }

  /** (1000 / frequency_) - 5 does not wrap: a slot of an accepted frequency is at least 10 ms. */
  lemma ToleranceRoom(f: nat)
    requires 1 <= f <= MAX_FREQUENCY
    ensures 10 <= 1000 / f <= 1000 && Sub(1000 / f, 5) == 1000 / f - 5
  {
    ScaleAtMost(10, f, 100);
    QuotientAtLeast(1000, f, 10);
  }

  lemma QuotientAtLeast(a: nat, f: nat, k: nat)
    requires f >= 1 && k * f <= a
    ensures k <= a / f <= a
  {
    var d := a / f;
    if d < k {
      ScaleAtMost(f, d + 1, k);
    }
    if d > a {
      ScaleAtMost(d, 1, f);
    }
  }

  /** A slot of an accepted frequency lasts at least 1000 / f whole milliseconds. */
  lemma PeriodInMs(f: nat)
    requires 1 <= f <= MAX_FREQUENCY
    ensures Period(f) / 1000 >= 1000 / f * 1_000_000
  {
    ToleranceRoom(f);
    var k := 1000 / f;
    assert k * f <= 1000;
    assert k * 1_000_000_000 * f == k * f * 1_000_000_000;
    QuotientAtLeast(PS_PER_SEC, f, k * 1_000_000_000);
  }

  /**
   * Tolerance always fits: under a tolerance that `initialize` lets through, the tolerance loop
   * of 2 * tolerance naps of half a millisecond asks for at least 5 ms less than any slot lasts.
   */
  lemma ToleranceFits(f: nat, tolerance: nat, n: nat)
    requires 1 <= f <= MAX_FREQUENCY && tolerance + 5 <= 1000 / f
    ensures T(Period(f), n + 1) - SlotStart(Period(f), n) >= 2 * tolerance * 500_000 + 5_000_000
  {
    PeriodInMs(f);
    ScaleAtMost(1_000_000, tolerance + 5, 1000 / f);
    var p := Period(f);
    hide Period;
    if n == 0 {
      assert T(p, 1) == p / 1000 + 1;
    } else {
      DeadlineGap(p, n);
    }
  }

  /** A log whose last call assigned to a pending list is not free of such calls. */
  lemma PendingAtTheEnd(calls: seq<Call>, n: nat)
    requires n < |calls| && calls[n].pending
    ensures !NonePending(calls)
  {
  }

  /**
   * What the end of a run says about the wire, and when a run is sure not to spoil what was accepted:
   * without skip mode always, and with it if no result was assigned to a pending list.
   */
  lemma CleanRun(g: Origin, f: nat, tolerance: nat, allowSkip: bool, fuel: nat, outcome: Outcome, calls: seq<Call>,
      turns: seq<seq<Entry>>, served: nat, sender: TcpSender, clock: MonotonicClock)
    requires g.Start() >= 0 && 1 <= f <= MAX_FREQUENCY
    requires RunEnds(g, f, tolerance, allowSkip, fuel, outcome, calls, turns, served, sender, clock)
    ensures !outcome.NotReady? && !outcome.TimerFailed? && (!outcome.Torn? ==> sender.Ready())
    ensures (!allowSkip || NonePending(calls)) && !g.world.overwritten ==> !outcome.Torn? && !sender.world.overwritten
    ensures !outcome.Torn? && !sender.world.overwritten ==>
              sender.world.wire <= StreamBytes(g.world.posted + Delivered(calls))
    ensures outcome.SendRefused? && outcome.r.WorkerError? ==> Caused(sender.zc, sender.log, outcome.r.code)
  {
    if outcome.SendRefused? && outcome.r.WorkerError? {
      RefusalIsCaused(sender, outcome.r.code);
    }
    hide Caused, TcpSender.Valid, Period, AllServed, Connected, OnTime, StreamBytes, Skips, TurnsFit, Flat, T,
        SlotGivenUp, MayCopy, Placed, WiresComplete, Refused;
    if outcome.Torn? {
      PendingAtTheEnd(calls, served);
    } else if !sender.world.overwritten {
      WireBound(sender);
    }
  }

  class RealTimeSystem {
    var timer: Option<AnyTimer>
    var sender: Option<TcpSender>
    var hasUserFn: bool
    var frequency: nat
    var allowSkip: bool
    var initialized: bool
    var msTolerance: nat

    /** The objects the system works on. */
    function Parts(): set<object>
      reads this
    {
      TimerPart() + SenderPart()
    }

    function TimerPart(): set<object>
      reads this
    {
      if timer.Some? then {timer.value.Obj()} else {}
    }

    function SenderPart(): set<object>
      reads this
    {
      if sender.Some? then {sender.value} else {}
    }

    /** The sender is between calls, and no accepted list was destroyed under its worker. */
    ghost predicate SenderIdle()
      reads this, SenderPart()
    {
      sender.Some? ==> sender.value.Ready()
    }

    /** No accepted list of the session was changed before it was copied. */
    ghost predicate SenderIntact()
      reads this, SenderPart()
    {
      sender.Some? ==> !sender.value.world.overwritten
    }

    /** What a raised initialized_ promises. */
    ghost predicate Promise()
      reads this, TimerPart()
    {
      && timer.Some? && sender.Some? && hasUserFn
      && 1 <= frequency <= MAX_FREQUENCY
      && msTolerance + 5 <= 1000 / frequency
      && timer.value.View().periodPs == Period(frequency)
      && !timer.value.Started()
    }

    ghost predicate Valid()
      reads this, Parts()
    {
      SenderIdle() && (initialized ==> Promise() && SenderIntact())
    }

    constructor ()
      ensures Valid() && !initialized && timer == None && sender == None && frequency == 0 && msTolerance == 0
    {
      timer, sender, hasUserFn := None, None, false;
      allowSkip, initialized, msTolerance, frequency := false, false, 0, 0;
    }

    // -------------------------------------------------------------- setters

    method SetTimer(t: Option<AnyTimer>) returns (ok: bool)
      requires Valid()
      modifies this
      ensures Valid() && !initialized && ok == t.Some? && timer == (if ok then t else old(timer))
      ensures sender == old(sender) && hasUserFn == old(hasUserFn) && frequency == old(frequency)
      ensures allowSkip == old(allowSkip) && msTolerance == old(msTolerance)
    {
      initialized := false;
      if t.None? {
        return false;
      }
      timer := t;
      return true;
    }

    method SetSender(s: Option<TcpSender>) returns (ok: bool)
      requires Valid()
      requires s.Some? ==> s.value.Ready()
      modifies this
      ensures Valid() && !initialized && ok == s.Some? && sender == (if ok then s else old(sender))
      ensures timer == old(timer) && hasUserFn == old(hasUserFn) && frequency == old(frequency)
      ensures allowSkip == old(allowSkip) && msTolerance == old(msTolerance)
    {
      initialized := false;
      if s.None? {
        return false;
      }
      sender := s;
      return true;
    }

    method SetUserDataFn(given: bool) returns (ok: bool)
      requires Valid()
      modifies this
      ensures Valid() && !initialized && ok == given && hasUserFn == (given || old(hasUserFn))
      ensures timer == old(timer) && sender == old(sender) && frequency == old(frequency)
      ensures allowSkip == old(allowSkip) && msTolerance == old(msTolerance)
    {
      initialized := false;
      if !given {
        return false;
      }
      hasUserFn := true;
      return true;
    }

    method SetFrequency(f: nat)
      requires Valid()
      modifies this
      ensures Valid() && !initialized && frequency == f
      ensures timer == old(timer) && sender == old(sender) && hasUserFn == old(hasUserFn)
      ensures allowSkip == old(allowSkip) && msTolerance == old(msTolerance)
    {
      initialized := false;
      frequency := f;
    }

    method SetMsTolerance(ms: nat)
      requires Valid()
      modifies this
      ensures Valid() && !initialized && msTolerance == ms
      ensures timer == old(timer) && sender == old(sender) && hasUserFn == old(hasUserFn)
      ensures allowSkip == old(allowSkip) && frequency == old(frequency)
    {
      initialized := false;
      msTolerance := ms;
    }

    method SkipMode(allow: bool)
      requires Valid()
      modifies this
      ensures Valid() && !initialized && allowSkip == allow
      ensures timer == old(timer) && sender == old(sender) && hasUserFn == old(hasUserFn)
      ensures msTolerance == old(msTolerance) && frequency == old(frequency)
    {
      initialized := false;
      allowSkip := allow;
    }

    // -------------------------------------------------------------- initialize

    /** timer_->initialize() and timer_->set_frequency(frequency_) */
    method PrepareTimer() returns (fits: bool)
      requires timer.Some? && frequency != 0
      modifies timer.value.Obj()
      ensures (fits <==> frequency <= 100) && !timer.value.Started()
      ensures if fits then timer.value.View().periodPs == Period(frequency)
              else timer.value.View() == old(timer.value.View())
    {
      timer.value.Initialize();
      fits := timer.value.SetFrequency(frequency);
    }

    /**
     * `realTime`: the process could be made real-time; `connected`: a client connected and the
     * worker thread was created. A failure leaves initialized_ as it was, also when it was true.
     */
    method Initialize(realTime: bool, connected: bool) returns (ok: bool)
      requires Valid()
      modifies this, Parts()
      ensures Valid()
      ensures ok <==>
                hasUserFn && timer.Some? && sender.Some? && 1 <= frequency <= 100 && realTime && connected
      ensures initialized == (ok || old(initialized))
      ensures timer == old(timer) && sender == old(sender) && hasUserFn == old(hasUserFn)
      ensures frequency == old(frequency) && allowSkip == old(allowSkip)
      ensures ok ==>
                && msTolerance <= 1000 / frequency - 5
                && (msTolerance == old(msTolerance) || 1000 / frequency - 5 == msTolerance < old(msTolerance))
      ensures !ok ==> msTolerance == old(msTolerance)
      ensures !hasUserFn || timer.None? || sender.None? || frequency == 0 || !realTime ==> unchanged(Parts())
      ensures sender.Some? && frequency > 100 ==> unchanged(sender.value)
      ensures hasUserFn && timer.Some? && sender.Some? && frequency > 100 && realTime ==>
                !timer.value.Started() && timer.value.View() == old(timer.value.View())
      ensures hasUserFn && timer.Some? && sender.Some? && 1 <= frequency <= 100 && realTime ==>
                && !timer.value.Started() && timer.value.View().periodPs == Period(frequency)
                && (!connected ==> ShutDown(sender.value) && sender.value.world.posted == [])
      ensures ok ==>
                && sender.value.initialized && sender.value.isDone
                && sender.value.world.posted == [] && !sender.value.world.overwritten
    {
      hide TcpSender.Valid, Sub;
      if !hasUserFn || timer.None? || sender.None? || frequency == 0 || !realTime {
        return false;
      }
      var fits := PrepareTimer();
      if !fits {
        return false;
      }
      var up := sender.value.Initialize(connected);
      if !up {
        return false;
      }
      ToleranceRoom(frequency);
      var most := Sub(1000 / frequency, 5);
      msTolerance := if msTolerance <= most then msTolerance else most;
      initialized := true;
      return true;
    }

    lemma PromisedParts()
      requires Promise()
      ensures timer.Some? && sender.Some? && 1 <= frequency <= MAX_FREQUENCY
    {
    }

    // -------------------------------------------------------------- send_before_run

    /**
     * `local` is the address of the by-value parameter. The result of the sender's `send` is not
     * looked at: the ghost `sent` shows it, and `asked` the states that decided it.
     */
    method SendBeforeRun(l: PacketList, limit: nat, local: ListId, clock: MonotonicClock)
      returns (ok: bool, ghost sent: SendResult, ghost asked: Asked, ghost rounds: nat, ghost slept: nat)
      requires Valid() && limit <= LONGEST_LIMIT_MS
      requires sender.Some? ==> local !in sender.value.world.heap
      modifies this`initialized, Parts(), clock
      ensures Valid()
      ensures timer == old(timer) && sender == old(sender)
      ensures !old(initialized) ==> !ok && !initialized && unchanged(Parts()) && unchanged(clock)
      ensures old(initialized) ==> initialized == ok && sender.Some?
      ensures old(initialized) && ok ==> sender.value.initialized == old(sender.value.initialized)
      ensures old(initialized) ==>
                && rounds <= Log2(limit + 1) && slept + Rest(limit, rounds) == limit
                && (!ok ==> rounds == Log2(limit + 1) && slept == limit && ShutDown(sender.value))
                && clock.now >= old(clock.now) + slept * 1_000_000
      ensures old(initialized) ==>
                || clock.diary == old(clock.diary) + HalvingDiary(limit, rounds, false) + [Polled(ok)]
                || (ok && clock.diary == old(clock.diary) + HalvingDiary(limit, rounds, true) + [Polled(true)])
      ensures old(initialized) ==>
                && sender.value.world.heap == old(sender.value.world.heap)
                && sender.value.world.posted == old(sender.value.world.posted) + (if sent.Accepted? then [l] else [])
                && sender.value.world.overwritten == old(sender.value.world.overwritten)
                && (sent.Accepted? <==> old(sender.value.initialized) && asked.Accepts())
      ensures old(initialized && sender.value.initialized) ==>
                && asked.During(sender.value.zc, old(sender.value.log), sender.value.log, local)
                && (Idle(old(sender.value.world)) ==> sent.Accepted?)
                && (old(sender.value.isTerminatedThread && sender.value.isDone) ==> ok && sent.WorkerError?)
      ensures old(initialized) && ok ==>
                && sender.value.isDone
                && (!sender.value.world.overwritten ==>
                      sender.value.world.wire == StreamBytes(sender.value.world.posted))
    {
      hide RealTimeSystem.Promise, TcpSender.Valid, Log2, StreamBytes, Idle, HalvingDiary, Rest, MayCopy, Asked.During;
      sent, rounds, slept := NotInitialized, 0, 0;
      if !initialized {
        return false, sent, *, rounds, slept;
      }
      PromisedParts();
      ok, sent, asked, rounds, slept := SendAndWait(sender.value, l, limit, local, clock);
      if !ok {
        initialized := false;
      }
    }

    // -------------------------------------------------------------- run

    /**
     * `run`, observed for at most `fuel` slots. `local` is the address of its list variable. The
     * ghost `g` shows the timer's first tick, the sender and the diary when the loop began, `turns` the
     * naps and polls of each slot, and the first `served` of the calls of the user function were
     * followed by a tick in time.
     */
    method Run(fuel: nat, local: ListId, clock: MonotonicClock)
      returns (outcome: Outcome, calls: seq<Call>, ghost turns: seq<seq<Entry>>, ghost served: nat, ghost g: Origin)
      requires Valid()
      requires sender.Some? ==> local !in sender.value.world.heap
      modifies this`initialized, Parts(), clock
      ensures !initialized && (!outcome.Torn? ==> Valid())
      ensures timer == old(timer) && sender == old(sender)
      ensures outcome.NotReady? <==> !old(initialized)
      ensures !outcome.TimerFailed?
      ensures !old(initialized) ==> calls == [] && unchanged(Parts()) && unchanged(clock)
      ensures old(initialized) ==> timer.Some? && timer.value.Started()
      ensures old(initialized) ==> sender.Some? && 1 <= frequency <= MAX_FREQUENCY && g.Start() >= old(clock.now)
      ensures outcome.SendRefused? && outcome.r.WorkerError? ==>
                Caused(sender.value.zc, sender.value.log, outcome.r.code)
      ensures old(initialized) ==>
                && g.world == old(sender.value.world) && g.diary == old(clock.diary)
                && RunEnds(g, frequency, msTolerance, allowSkip, fuel, outcome, calls, turns, served,
                           sender.value, clock)
      ensures old(initialized) && (!allowSkip || NonePending(calls)) ==>
                && !outcome.Torn? && !sender.value.world.overwritten
                && sender.value.world.wire <= StreamBytes(old(sender.value.world.posted) + Delivered(calls))
      ensures old(initialized) && !sender.value.world.overwritten && !outcome.Torn? ==>
                sender.value.world.wire <= StreamBytes(old(sender.value.world.posted) + Delivered(calls))
    {
      calls, turns, served, g := [], [], 0, *;
      if !initialized {
        return NotReady, calls, turns, served, g;
      }
      hide TcpSender.Valid, Period, RunEnds, NonePending, StreamBytes, Delivered;
      PromisedParts();
      initialized := false;
      var ok := timer.value.StartTimer(clock);
      if !ok {
        return TimerFailed, calls, turns, served, g;
      }
      g := Origin(timer.value.View(), sender.value.world, clock.diary);
      outcome, calls, turns, served :=
        RunLoop(sender.value, timer.value, frequency, msTolerance, allowSkip, fuel, local, clock);
      CleanRun(g, frequency, msTolerance, allowSkip, fuel, outcome, calls, turns, served, sender.value, clock);
    }
  }
}
