/** Progress: bounded shutdown, and bounded delivery of an accepted list. */
module HandOffProgress {
  import opened Packets
  import opened HandOff
  import opened HandOffInvariant
  import opened HandOffTheorems

  // ---------------------------------------------------------------- the worker is not stuck

  /** A result that every pending system call may give. */
  function SomeChoice(s: State): WChoice {
    if s.wpc.WSend? && s.remaining != 0 then Returned(s.remaining)
    else if s.wpc.WPoll? then Refuse(PollError)
    else Proceed
  }

  /** The worker can move: it is alive, and not waiting for a lock that is held. */
  predicate CanMove(s: State) {
    && !s.wpc.WNone? && !s.wpc.WGone? && !s.wpc.WFault?
    && (s.wpc.WLock? || s.wpc.WWoken? ==> s.mutex.Free?)
  }

  lemma CanMoveEnabled(s: State)
    requires CanMove(s)
    ensures WEnabled(s, SomeChoice(s))
  {
  }

  // ---------------------------------------------------------------- shutdown

  /** Zero-copy ids the kernel may still report. */
  function Outstanding(s: State): nat {
    if s.zc && |s.reported| <= s.issued then s.issued - |s.reported| else 0
  }

  /** Every report leaves fewer ids outstanding. */
  lemma ReportLowers(s: State, c: WChoice)
    requires ZcInv(s) && ExitInv(s) && s.wpc.WPoll? && WEnabled(s, c) && c.Report?
    ensures Outstanding(WStep(s, c)) < Outstanding(s)
  {
    var r := s.reported + Range(c.lo, c.hi);
    ReportAdds(s.reported, c.lo, c.hi);
    ReportedCard(r, s.issued);
    ReportedCard(s.reported, s.issued);
    assert WStep(s, c).reported == r && WStep(s, c).issued == s.issued && s.zc;
  }

  /** The number of packets of the list waiting in the slot. */
  function WaitingPackets(s: State): nat {
    if s.packetsList.Some? && s.packetsList.value in s.heap then |s.heap[s.packetsList.value]| else 0
  }

  /** A bound on the worker's remaining steps once terminate_thread is up. */
  function ShutdownRank(s: State): int {
    var n := 2 * Outstanding(s);
    var look := if s.packetsList.Some? then n + 2 * WaitingPackets(s) + 13 else 6;
    match s.wpc
    case WNone => 0
    case WStart => look + 6
    case WStarted => look + 5
    case WSetup => 6
    case WLoopTest => 5
    case WLock => look + 1
    case WCheckList => look
    case WCheckTerm => 5
    case WWait => look + 3
    case WAsleep => look + 2
    case WWoken => look + 1
    case WCopy => n + 2 * WaitingPackets(s) + 12
    case WCopying => n + 2 * WaitingPackets(s) + 11
    case WClear => n + 2 * |s.copy| + 10
    case WUnlock => n + 2 * |s.copy| + 9
    case WPacket => n + 2 * (|s.copy| - s.i) + 8
    case WSend => n + 2 * (|s.copy| - s.i) + 7
    case WSent(_) => 6
    case WSentTerm(_) => 5
    case WNotifyTest => n + 7
    case WPoll => n + 6
    case WMarkDone => 6
    case WExitFlag(_, _) => 4
    case WExitCode(_) => 3
    case WExitUnlock => 2
    case WExitPublish => 1
    case WGone => 0
    case WFault => 0
  }

  /** Send or sendfile calls the worker may still complete. */
  function CallsLeft(w: WorkerPc): nat {
    if w.WSent? || w.WSentTerm? || Leaving(w) then 0 else 1
  }

  lemma RankIsNat(s: State)
    requires Inv(s)
    ensures ShutdownRank(s) >= 0
  {
  }

  lemma ShutdownLooks(s: State, c: WChoice)
    requires Inv(s) && s.terminate && WEnabled(s, c)
    requires s.wpc.WLock? || s.wpc.WCheckList? || s.wpc.WCheckTerm?
    ensures ShutdownRank(WStep(s, c)) < ShutdownRank(s)
    ensures WStep(s, c).calls + CallsLeft(WStep(s, c).wpc) <= s.calls + CallsLeft(s.wpc)
  {
    hide MutexInv, ExitInv, WakeInv, HistoryInv, WireInv, FaithInv;
  }

  lemma ShutdownWaits(s: State, c: WChoice)
    requires Inv(s) && s.terminate && WEnabled(s, c)
    requires s.wpc.WWait? || s.wpc.WAsleep? || s.wpc.WWoken?
    ensures ShutdownRank(WStep(s, c)) < ShutdownRank(s)
    ensures WStep(s, c).calls + CallsLeft(WStep(s, c).wpc) <= s.calls + CallsLeft(s.wpc)
  {
    hide MutexInv, LifeInv, ExitInv, WakeInv, HistoryInv, WireInv, FaithInv, ZcInv;
  }

  lemma ShutdownCopies(s: State, c: WChoice)
    requires Inv(s) && s.terminate && WEnabled(s, c)
    requires s.wpc.WCopy? || s.wpc.WCopying? || s.wpc.WClear? || s.wpc.WUnlock?
    ensures ShutdownRank(WStep(s, c)) < ShutdownRank(s)
    ensures WStep(s, c).calls + CallsLeft(WStep(s, c).wpc) <= s.calls + CallsLeft(s.wpc)
  {
    hide MutexInv, ExitInv, WakeInv, HistoryInv, WireInv, FaithInv;
  }

  lemma ShutdownSends(s: State, c: WChoice)
    requires Inv(s) && s.terminate && WEnabled(s, c)
    requires s.wpc.WPacket? || s.wpc.WSend?
    ensures ShutdownRank(WStep(s, c)) < ShutdownRank(s)
    ensures WStep(s, c).calls + CallsLeft(WStep(s, c).wpc) <= s.calls + CallsLeft(s.wpc)
  {
    hide MutexInv, ExitInv, WakeInv, HistoryInv, FaithInv, StreamBytes, ListBytes, Slice;
  }

  lemma ShutdownSent(s: State, c: WChoice)
    requires Inv(s) && s.terminate && WEnabled(s, c)
    requires s.wpc.WSent? || s.wpc.WSentTerm?
    ensures ShutdownRank(WStep(s, c)) < ShutdownRank(s)
    ensures WStep(s, c).calls + CallsLeft(WStep(s, c).wpc) <= s.calls + CallsLeft(s.wpc)
  {
    hide MutexInv, ExitInv, WakeInv, HistoryInv, WireInv, FaithInv;
  }

  lemma ShutdownLate(s: State, c: WChoice)
    requires Inv(s) && s.terminate && WEnabled(s, c)
    requires s.wpc.WStart? || s.wpc.WStarted? || s.wpc.WSetup? || s.wpc.WLoopTest?
    ensures ShutdownRank(WStep(s, c)) < ShutdownRank(s)
    ensures WStep(s, c).calls + CallsLeft(WStep(s, c).wpc) <= s.calls + CallsLeft(s.wpc)
  {
    hide MutexInv, ExitInv, WakeInv, HistoryInv, WireInv, FaithInv, WaitingPackets;
  }

  lemma ShutdownFinishes(s: State, c: WChoice)
    requires Inv(s) && s.terminate && WEnabled(s, c)
    requires s.wpc.WNotifyTest? || s.wpc.WMarkDone?
    ensures ShutdownRank(WStep(s, c)) < ShutdownRank(s)
    ensures WStep(s, c).calls + CallsLeft(WStep(s, c).wpc) <= s.calls + CallsLeft(s.wpc)
  {
    hide MutexInv, ExitInv, WakeInv, HistoryInv, WireInv, FaithInv;
  }

  lemma ShutdownPolls(s: State, c: WChoice)
    requires Inv(s) && s.terminate && WEnabled(s, c)
    requires s.wpc.WPoll?
    ensures ShutdownRank(WStep(s, c)) < ShutdownRank(s)
    ensures WStep(s, c).calls + CallsLeft(WStep(s, c).wpc) <= s.calls + CallsLeft(s.wpc)
  {
    hide MutexInv, WakeInv, HistoryInv, WireInv, FaithInv, ZcInv, LifeInv, ExitInv, Outstanding, Range,
        NotificationCount, Int32;
    if c.Report? {
      ReportLowers(s, c);
    }
  }

  lemma ShutdownLeaves(s: State, c: WChoice)
    requires Inv(s) && s.terminate && WEnabled(s, c)
    requires s.wpc.WExitFlag? || s.wpc.WExitCode? || s.wpc.WExitUnlock? || s.wpc.WExitPublish?
    ensures ShutdownRank(WStep(s, c)) < ShutdownRank(s)
    ensures WStep(s, c).calls + CallsLeft(WStep(s, c).wpc) <= s.calls + CallsLeft(s.wpc)
  {
    hide MutexInv, ExitInv, WakeInv, HistoryInv, WireInv, FaithInv, WaitingPackets;
  }

  lemma FrameRank(s: State, t: State)
    requires MainFrame(s, t)
    requires t.packetsList.None? || (t.packetsList == s.packetsList && t.heap == s.heap)
    ensures ShutdownRank(t) <= ShutdownRank(s)
    ensures t.calls + CallsLeft(t.wpc) <= s.calls + CallsLeft(s.wpc)
  {
  }

  lemma ShutdownMain(s: State, a: MAction)
    requires Inv(s) && s.terminate && MEnabled(s, a) && !a.Reset?
    ensures ShutdownRank(MStep(s, a)) <= ShutdownRank(s) && MStep(s, a).terminate
    ensures MStep(s, a).calls + CallsLeft(MStep(s, a).wpc) <= s.calls + CallsLeft(s.wpc)
  {
    hide MStep, MEnabled, HistoryInv, FaithInv, WireInv, ZcInv, WakeInv, ExitInv, MutexInv;
    MainStepFrame(s, a);
    if InClient(s.mpc) {
      IdleRank(s, MStep(s, a));
    } else {
      FrameRank(s, MStep(s, a));
    }
  }

  lemma IdleRank(s: State, t: State)
    requires s.wpc.WGone? && MainFrame(s, t)
    ensures ShutdownRank(t) == ShutdownRank(s) && t.calls + CallsLeft(t.wpc) == s.calls + CallsLeft(s.wpc)
  {
  }

  /** One worker step after terminate_thread: the rank drops, and at most one call is left. */
  lemma ShutdownStep(s: State, c: WChoice)
    requires Inv(s) && s.terminate && WEnabled(s, c)
    ensures Inv(WStep(s, c)) && WStep(s, c).terminate
    ensures ShutdownRank(WStep(s, c)) < ShutdownRank(s)
    ensures WStep(s, c).calls + CallsLeft(WStep(s, c).wpc) <= s.calls + CallsLeft(s.wpc)
  {
    WorkerKeepsInv(s, c);
    hide WStep, MutexInv, LifeInv, ExitInv, WakeInv, HistoryInv, WireInv, FaithInv, ZcInv, ShutdownRank, CallsLeft;
    match s.wpc
    case WStart => ShutdownLate(s, c);
    case WStarted => ShutdownLate(s, c);
    case WSetup => ShutdownLate(s, c);
    case WLoopTest => ShutdownLate(s, c);
    case WLock => ShutdownLooks(s, c);
    case WCheckList => ShutdownLooks(s, c);
    case WCheckTerm => ShutdownLooks(s, c);
    case WWait => ShutdownWaits(s, c);
    case WAsleep => ShutdownWaits(s, c);
    case WWoken => ShutdownWaits(s, c);
    case WCopy => ShutdownCopies(s, c);
    case WCopying => ShutdownCopies(s, c);
    case WClear => ShutdownCopies(s, c);
    case WUnlock => ShutdownCopies(s, c);
    case WPacket => ShutdownSends(s, c);
    case WSend => ShutdownSends(s, c);
    case WSent(_) => ShutdownSent(s, c);
    case WSentTerm(_) => ShutdownSent(s, c);
    case WNotifyTest => ShutdownFinishes(s, c);
    case WMarkDone => ShutdownFinishes(s, c);
    case WPoll => ShutdownPolls(s, c);
    case WExitFlag(_, _) => ShutdownLeaves(s, c);
    case WExitCode(_) => ShutdownLeaves(s, c);
    case WExitUnlock => ShutdownLeaves(s, c);
    case WExitPublish => ShutdownLeaves(s, c);
  }

  /** The number of worker actions in a run. */
  function WorkerSteps(log: seq<Action>): nat {
    if log == [] then 0 else WorkerSteps(log[..|log| - 1]) + (if log[|log| - 1].W? then 1 else 0)
  }

  /**
   * Bounded shutdown: from the moment terminate_thread is up, and whatever the main thread does
   * short of a new session, the worker takes at most ShutdownRank(s) more steps and completes at
   * most one more system call on the socket.
   */
  lemma {:induction false} ShutdownIsBounded(s: State, log: seq<Action>)
    requires Inv(s) && s.terminate && Legal(s, log) && NoReset(log)
    ensures var t := After(s, log);
            && Inv(t) && t.terminate
            && 0 <= ShutdownRank(t) <= ShutdownRank(s) - WorkerSteps(log)
            && t.calls + CallsLeft(t.wpc) <= s.calls + CallsLeft(s.wpc)
  {
    hide ShutdownRank, CallsLeft, WStep, MStep, WEnabled, MEnabled, Control, HistoryInv, WireInv, FaithInv, ZcInv;
    if log == [] {
      RankIsNat(s);
    } else {
      var n := |log| - 1;
      assert NoReset(log[..n]);
      ShutdownIsBounded(s, log[..n]);
      var u := After(s, log[..n]);
      if log[n].W? {
        ShutdownStep(u, log[n].c);
      } else {
        assert !(log[n].M? && log[n].a.Reset?);
        MainKeepsInv(u, log[n].a);
        ShutdownMain(u, log[n].a);
      }
      RankIsNat(After(s, log));
    }
  }

  /**
   * While `end_sender` polls, the worker is never stuck: it is not asleep, it does not wait for a
   * held lock, and so it takes the bounded number of steps to its exit.
   */
  lemma ShutdownNeverStuck(s: State)
    requires Inv(s) && s.mpc.MEndWait? && Defined(s) && !s.isTerminated
    ensures CanMove(s) && !s.wpc.WAsleep? && WEnabled(s, SomeChoice(s))
  {
    hide WireInv, ZcInv, ExitInv, HistoryInv;
  }

  // ---------------------------------------------------------------- delivery

  /** The main thread is in client code, not assigning to the waiting list, or asks `send` for its refusal. */
  predicate Patient(s: State) {
    s.mpc.MIdle? || s.mpc.MSendAlive? || (s.mpc.MAssign? && !Assigning(s))
  }

  /** An accepted list is waiting or being sent, and `send` has returned. */
  predicate InDelivery(s: State) {
    && Patient(s) && Defined(s) && (Busy(s.wpc) || MayCopy(s))
    && (s.wpc.WSent? || s.wpc.WSentTerm? ==> s.wpc.n != 0)
  }

  /** The list went out, or the worker has given up. */
  predicate Settled(s: State) {
    s.isDone || Leaving(s.wpc)
  }

  /** A bound on the steps that packets i.. of a list take when every call sends something. */
  function Cost(l: PacketList, i: nat): nat
    decreases |l| - i
  {
    if i >= |l| then 0 else 5 * l[i].size + 2 + Cost(l, i + 1)
  }

  function WaitingCost(s: State): nat {
    if s.packetsList.Some? && s.packetsList.value in s.heap then Cost(s.heap[s.packetsList.value], 0) else 0
  }

  /** A bound on the worker's steps up to is_done. */
  function DeliveryRank(s: State): int {
    var n := 2 * Outstanding(s);
    match s.wpc
    case WStart => WaitingCost(s) + n + 13
    case WStarted => WaitingCost(s) + n + 12
    case WSetup => WaitingCost(s) + n + 11
    case WLoopTest => WaitingCost(s) + n + 10
    case WLock => WaitingCost(s) + n + 9
    case WWoken => WaitingCost(s) + n + 9
    case WCheckList => WaitingCost(s) + n + 8
    case WCopy => WaitingCost(s) + n + 7
    case WCopying => WaitingCost(s) + n + 6
    case WClear => Cost(s.copy, 0) + n + 5
    case WUnlock => Cost(s.copy, 0) + n + 4
    case WPacket => Cost(s.copy, s.i) + n + 3
    case WSend => 5 * s.remaining + Cost(s.copy, s.i + 1) + n + 4
    case WSent(_) => 5 * s.remaining + Cost(s.copy, s.i + 1) + n + 1
    case WSentTerm(_) => 5 * s.remaining + Cost(s.copy, s.i + 1) + n
    case WNotifyTest => n + 2
    case WPoll => n + 1
    case WMarkDone => 1
    case _ => 0
  }

  /** A system call that transfers at least one byte, or fails. */
  predicate Progress(c: WChoice) {
    c.Returned? ==> c.n != 0
  }

  lemma DeliveryRankIsNat(s: State)
    requires Inv(s)
    ensures DeliveryRank(s) >= 0
  {
    hide MutexInv, ExitInv, WakeInv, HistoryInv, FaithInv, StreamBytes, ListBytes, Slice;
  }

  lemma DeliveryStarts(s: State, c: WChoice)
    requires Inv(s) && InDelivery(s) && WEnabled(s, c) && Progress(c)
    requires s.wpc.WStart? || s.wpc.WStarted? || s.wpc.WSetup? || s.wpc.WLoopTest?
    ensures Settled(WStep(s, c)) || (InDelivery(WStep(s, c)) && DeliveryRank(WStep(s, c)) < DeliveryRank(s))
  {
    hide MutexInv, ExitInv, HistoryInv, WireInv, FaithInv, Cost;
  }

  lemma DeliveryLocks(s: State, c: WChoice)
    requires Inv(s) && InDelivery(s) && WEnabled(s, c) && Progress(c)
    requires s.wpc.WLock? || s.wpc.WCheckList? || s.wpc.WWoken? || s.wpc.WCheckTerm? || s.wpc.WWait? || s.wpc.WAsleep?
    ensures Settled(WStep(s, c)) || (InDelivery(WStep(s, c)) && DeliveryRank(WStep(s, c)) < DeliveryRank(s))
  {
    hide MutexInv, ExitInv, HistoryInv, WireInv, FaithInv, Cost;
  }

  lemma DeliveryTakes(s: State, c: WChoice)
    requires Inv(s) && InDelivery(s) && WEnabled(s, c) && Progress(c)
    requires s.wpc.WCopy? || s.wpc.WCopying? || s.wpc.WClear? || s.wpc.WUnlock?
    ensures Settled(WStep(s, c)) || (InDelivery(WStep(s, c)) && DeliveryRank(WStep(s, c)) < DeliveryRank(s))
  {
    hide MutexInv, ExitInv, HistoryInv, WireInv, Cost;
  }

  lemma DeliveryAtPacket(s: State, c: WChoice)
    requires Inv(s) && InDelivery(s) && WEnabled(s, c) && Progress(c)
    requires s.wpc.WPacket?
    ensures Settled(WStep(s, c)) || (InDelivery(WStep(s, c)) && DeliveryRank(WStep(s, c)) < DeliveryRank(s))
  {
    hide MutexInv, ExitInv, WakeInv, HistoryInv, FaithInv, StreamBytes, ListBytes, Slice;
  }

  lemma DeliverySends(s: State, c: WChoice)
    requires Inv(s) && InDelivery(s) && WEnabled(s, c) && Progress(c)
    requires s.wpc.WSend?
    ensures Settled(WStep(s, c)) || (InDelivery(WStep(s, c)) && DeliveryRank(WStep(s, c)) < DeliveryRank(s))
  {
    hide MutexInv, ExitInv, WakeInv, HistoryInv, FaithInv, StreamBytes, ListBytes, Slice;
  }

  lemma DeliveryUpdates(s: State, c: WChoice)
    requires Inv(s) && InDelivery(s) && WEnabled(s, c) && Progress(c)
    requires s.wpc.WSent? || s.wpc.WSentTerm?
    ensures Settled(WStep(s, c)) || (InDelivery(WStep(s, c)) && DeliveryRank(WStep(s, c)) < DeliveryRank(s))
  {
    hide MutexInv, ExitInv, WakeInv, HistoryInv, FaithInv, StreamBytes, ListBytes, Slice;
  }

  lemma DeliveryFinishes(s: State, c: WChoice)
    requires Inv(s) && InDelivery(s) && WEnabled(s, c) && Progress(c)
    requires s.wpc.WNotifyTest? || s.wpc.WMarkDone?
    ensures Settled(WStep(s, c)) || (InDelivery(WStep(s, c)) && DeliveryRank(WStep(s, c)) < DeliveryRank(s))
  {
    hide MutexInv, ExitInv, HistoryInv, WireInv, FaithInv, Cost;
  }

  lemma DeliveryPolls(s: State, c: WChoice)
    requires Inv(s) && InDelivery(s) && WEnabled(s, c) && Progress(c)
    requires s.wpc.WPoll?
    ensures Settled(WStep(s, c)) || (InDelivery(WStep(s, c)) && DeliveryRank(WStep(s, c)) < DeliveryRank(s))
  {
    hide MutexInv, HistoryInv, WireInv, FaithInv, Cost, ZcInv, LifeInv, ExitInv, Outstanding, Range,
        NotificationCount, Int32;
    if c.Report? {
      ReportLowers(s, c);
    }
  }

  lemma DeliveryStep(s: State, c: WChoice)
    requires Inv(s) && InDelivery(s) && WEnabled(s, c) && Progress(c)
    ensures Inv(WStep(s, c))
    ensures Settled(WStep(s, c)) || (InDelivery(WStep(s, c)) && DeliveryRank(WStep(s, c)) < DeliveryRank(s))
  {
    WorkerKeepsInv(s, c);
    hide WStep, MutexInv, LifeInv, ExitInv, WakeInv, HistoryInv, WireInv, FaithInv, ZcInv, DeliveryRank, Settled;
    match s.wpc
    case WStart => DeliveryStarts(s, c);
    case WStarted => DeliveryStarts(s, c);
    case WSetup => DeliveryStarts(s, c);
    case WLoopTest => DeliveryStarts(s, c);
    case WLock => DeliveryLocks(s, c);
    case WCheckList => DeliveryLocks(s, c);
    case WCheckTerm => DeliveryLocks(s, c);
    case WWait => DeliveryLocks(s, c);
    case WAsleep => DeliveryLocks(s, c);
    case WWoken => DeliveryLocks(s, c);
    case WCopy => DeliveryTakes(s, c);
    case WCopying => DeliveryTakes(s, c);
    case WClear => DeliveryTakes(s, c);
    case WUnlock => DeliveryTakes(s, c);
    case WPacket => DeliveryAtPacket(s, c);
    case WSend => DeliverySends(s, c);
    case WSent(_) => DeliveryUpdates(s, c);
    case WSentTerm(_) => DeliveryUpdates(s, c);
    case WNotifyTest => DeliveryFinishes(s, c);
    case WMarkDone => DeliveryFinishes(s, c);
    case WPoll => DeliveryPolls(s, c);
  }

  /**
   * What may happen during a delivery: calls on the socket transfer something or fail, and the main
   * thread does anything but shut down, start a session, or touch the object of the waiting list.
   */
  predicate Allowed(s: State, a: Action) {
    match a
    case W(c) => Progress(c)
    case M(m) => s.mpc.MIdle? ==>
      match m {
        case Write(id, _) => s.packetsList != Some(id)
        case Destroy(id) => s.packetsList != Some(id)
        case BeginSend(_) => true
        case _ => false
      }
  }

  /** Every action of the run was allowed when it was taken. */
  predicate AllAllowed(s: State, log: seq<Action>)
    requires Legal(s, log)
  {
    log == [] || (AllAllowed(s, log[..|log| - 1]) && Allowed(After(s, log[..|log| - 1]), log[|log| - 1]))
  }

  /** The object in the slot is the same in both states. */
  predicate SameWaiting(s: State, t: State) {
    && t.packetsList == s.packetsList
    && (s.packetsList.Some? ==>
          && (s.packetsList.value in t.heap <==> s.packetsList.value in s.heap)
          && (s.packetsList.value in s.heap ==> t.heap[s.packetsList.value] == s.heap[s.packetsList.value]))
  }

  lemma RankUnderClient(s: State, t: State)
    requires MainFrame(s, t) && !s.wpc.WAsleep? && SameWaiting(s, t)
    ensures DeliveryRank(t) == DeliveryRank(s)
  {
  }

  lemma DeliveryIsAwake(s: State)
    requires WakeInv(s) && InDelivery(s)
    ensures !s.wpc.WAsleep?
  {
  }

  lemma AllowedWrite(s: State, m: MAction)
    requires InDelivery(s) && !s.isDone && MEnabled(s, m) && Allowed(s, M(m))
    requires s.mpc.MIdle? && m.Write?
    ensures InDelivery(MStep(s, m)) && SameWaiting(s, MStep(s, m))
  {
  }

  lemma AllowedDestroy(s: State, m: MAction)
    requires InDelivery(s) && !s.isDone && MEnabled(s, m) && Allowed(s, M(m))
    requires s.mpc.MIdle? && m.Destroy?
    ensures InDelivery(MStep(s, m)) && SameWaiting(s, MStep(s, m))
  {
  }

  lemma AllowedAssign(s: State, m: MAction)
    requires InDelivery(s) && !s.isDone && MEnabled(s, m) && Allowed(s, M(m))
    requires s.mpc.MAssign?
    ensures InDelivery(MStep(s, m)) && SameWaiting(s, MStep(s, m))
  {
  }

  lemma AllowedSend(s: State, m: MAction)
    requires InDelivery(s) && !s.isDone && MEnabled(s, m) && Allowed(s, M(m))
    requires s.mpc.MSendAlive? || (s.mpc.MIdle? && !m.Write? && !m.Destroy?)
    ensures InDelivery(MStep(s, m)) && SameWaiting(s, MStep(s, m))
  {
  }

  /** An allowed main step, seen from the delivery. */
  lemma AllowedMain(s: State, m: MAction)
    requires InDelivery(s) && !s.isDone && MEnabled(s, m) && Allowed(s, M(m))
    ensures InDelivery(MStep(s, m)) && SameWaiting(s, MStep(s, m))
  {
    DeliveryMain(s);
    hide MStep, MEnabled, InDelivery, Allowed, SameWaiting;
    if s.mpc.MAssign? {
      AllowedAssign(s, m);
    } else if s.mpc.MIdle? && m.Write? {
      AllowedWrite(s, m);
    } else if s.mpc.MIdle? && m.Destroy? {
      AllowedDestroy(s, m);
    } else {
      AllowedSend(s, m);
    }
  }

  lemma DeliveryMain(s: State)
    requires InDelivery(s)
    ensures s.mpc.MIdle? || s.mpc.MAssign? || s.mpc.MSendAlive?
  {
  }

  lemma AllowedMainStep(s: State, m: MAction)
    requires Inv(s) && InDelivery(s) && !Settled(s) && MEnabled(s, m) && Allowed(s, M(m))
    ensures Inv(MStep(s, m)) && InDelivery(MStep(s, m)) && DeliveryRank(MStep(s, m)) == DeliveryRank(s)
  {
    hide MStep, MEnabled, MutexInv, LifeInv, ExitInv, WakeInv, HistoryInv, WireInv, FaithInv, ZcInv, DeliveryRank,
        InDelivery, MainFrame, SameWaiting;
    DeliveryIsAwake(s);
    AllowedMain(s, m);
    MainKeepsInv(s, m);
    MainStepFrame(s, m);
    RankUnderClient(s, MStep(s, m));
  }

  /**
   * Bounded delivery: once a list is accepted, the worker takes at most DeliveryRank(s) steps, however
   * many allowed steps of the main thread lie between them, until is_done is up (and then
   * DoneMeansDelivered says what is on the wire) or the worker has given up.
   */
  lemma {:induction false} DeliveryIsBounded(s: State, log: seq<Action>)
    requires Inv(s) && InDelivery(s) && Legal(s, log) && AllAllowed(s, log)
    ensures || (exists k :: 0 <= k <= |log| && Legal(s, log[..k]) && Settled(After(s, log[..k])))
            || (InDelivery(After(s, log)) && 0 <= DeliveryRank(After(s, log)) <= DeliveryRank(s) - WorkerSteps(log))
    ensures WorkerSteps(log) > DeliveryRank(s) ==>
              exists k :: 0 <= k <= |log| && Legal(s, log[..k]) && Settled(After(s, log[..k]))
  {
    hide DeliveryRank, Settled, InDelivery, WStep, WEnabled, MStep, MEnabled, Inv;
    if log == [] {
      DeliveryRankIsNat(s);
    } else {
      var n := |log| - 1;
      var before := log[..n];
      DeliveryIsBounded(s, before);
      var u := After(s, before);
      RunKeepsInv(s, before);
      if exists k :: 0 <= k <= n && Legal(s, before[..k]) && Settled(After(s, before[..k])) {
        var k :| 0 <= k <= n && Legal(s, before[..k]) && Settled(After(s, before[..k]));
        assert log[..k] == before[..k];
      } else {
        assert before[..n] == before && log[..n + 1] == log;
        assert !Settled(u);
        match log[n] {
          case W(c) => DeliveryStep(u, c);
          case M(m) => AllowedMainStep(u, m);
        }
        if !Settled(After(s, log)) {
          RunKeepsInv(s, log);
          DeliveryRankIsNat(After(s, log));
        }
      }
    }
  }

  /** During delivery the worker is never stuck, and needs no spurious wake-up. */
  lemma DeliveryNeverStuck(s: State)
    requires Inv(s) && InDelivery(s)
    ensures CanMove(s) && !s.wpc.WAsleep?
    ensures WEnabled(s, SomeChoice(s)) && Progress(SomeChoice(s))
  {
    hide WireInv, ZcInv, ExitInv;
  }
}
