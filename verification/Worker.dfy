/**
 * tcp_worker_function of both senders as a method: its statements, in the source's loops, are the
 * worker steps of the hand-off, with the main thread free to move between any two of them.
 */
module Worker {
  import opened Packets
  import opened HandOff
  import opened HandOffInvariant
  import opened HandOffTheorems
  import opened HandOffProgress
  import opened HandOffVerdict

  /** How a part of the worker function ends. */
  datatype Pace =
    | GoesOn    // with its next statement
    | Exited    // END_THREAD_ERROR was executed
    | Watched   // it executed as many statements as are observed
    | Crashed   // its list was destroyed, or assigned to during the copy: it read dead memory

  predicate Alive(w: WorkerPc) {
    !w.WNone? && !w.WGone?
  }

  // ---------------------------------------------------------------- interference

  /** What any number of main thread steps leaves alone while the worker lives. */
  predicate Around(s: State, t: State) {
    && t.zc == s.zc && t.taken == s.taken && t.copy == s.copy && t.i == s.i
    && t.cursor == s.cursor && t.remaining == s.remaining && t.wire == s.wire
    && t.issued == s.issued && t.reported == s.reported
    && t.sendingCounter == s.sendingCounter && t.lastCounter == s.lastCounter
    && t.wlocked == s.wlocked && t.isError == s.isError && t.errorCode == s.errorCode
    && (s.wpc.WAsleep? || t.wpc == s.wpc)
    && (s.wpc.WAsleep? ==> t.wpc.WAsleep? || t.wpc.WWoken?)
  }

  lemma AroundRefl(s: State)
    ensures Around(s, s)
  {
  }

  lemma FrameIsAround(s: State, t: State)
    requires MainFrame(s, t)
    ensures Around(s, t)
  {
  }

  /** There is no new session while the worker lives. */
  lemma NoResetWhileAlive(s: State, a: MAction)
    requires Inv(s) && Alive(s.wpc) && MEnabled(s, a)
    ensures !(s.mpc.MIdle? && a.Reset?)
  {
  }

  lemma AroundStep(s: State, a: MAction)
    requires Inv(s) && Alive(s.wpc) && MEnabled(s, a)
    ensures Inv(MStep(s, a)) && Around(s, MStep(s, a))
  {
    NoResetWhileAlive(s, a);
    MainKeepsInv(s, a);
    hide MStep, MEnabled, MutexInv, LifeInv, ExitInv, WakeInv, HistoryInv, WireInv, FaithInv, ZcInv, MainFrame, Around;
    MainStepFrame(s, a);
    FrameIsAround(s, MStep(s, a));
  }

  // ---------------------------------------------------------------- effects of single statements

  lemma LeavesVerdict(zc: bool, log: seq<Action>, s: State)
    requires Reaches(zc, log, s) && s.wpc.WGone?
    ensures s.isTerminated
    ensures if s.isError then ErrorCode(s.zc, s.errorCode) else s.terminate && s.errorCode == NoError
  {
    ReachableInv(zc, log, s);
  }

  /** Between the first packet and the end of the for loop the wire gains the list. */
  lemma ListIsOut(s: State, t: State)
    requires Inv(s) && s.wpc.WPacket? && s.i == 0
    requires Inv(t) && Between(t.wpc) && t.taken == s.taken
    ensures t.wire == s.wire + ListBytes(s.copy)
  {
    hide MutexInv, LifeInv, ExitInv, WakeInv, FaithInv, ZcInv, ListBytes;
    assert s.copy[..0] == [];
    EmptyListBytes();
  }

  lemma EmptyListBytes()
    ensures ListBytes([]) == []
  {
  }

  /** The run holds `n` actions of the worker. */
  ghost predicate Counted(log: seq<Action>, n: nat) {
    WorkerSteps(log) == n
  }

  lemma CountedNext(log: seq<Action>, n: nat, a: Action)
    requires Counted(log, n)
    ensures Counted(log + [a], if a.W? then n + 1 else n)
  {
    assert (log + [a])[..|log|] == log;
  }

  /** A worker step continues a legal run. */
  lemma WorkerReaches(zc: bool, log: seq<Action>, s: State, c: WChoice)
    requires Reaches(zc, log, s) && WEnabled(s, c)
    ensures Reaches(zc, log + [W(c)], WStep(s, c)) && s.wire <= WStep(s, c).wire
  {
    ReachableInv(zc, log, s);
    hide WStep, WEnabled, MutexInv, LifeInv, ExitInv, WakeInv, HistoryInv, WireInv, FaithInv, ZcInv;
    WorkerKeepsInv(s, c);
    LegalSnoc(Init(zc), log, W(c));
  }

  /** A step of the main thread continues a legal run. */
  lemma MainReaches(zc: bool, log: seq<Action>, s: State, a: MAction)
    requires Reaches(zc, log, s) && MEnabled(s, a)
    ensures Reaches(zc, log + [M(a)], MStep(s, a))
  {
    LegalSnoc(Init(zc), log, M(a));
  }

  /** Steps of the main thread to the end of its critical section. */
  function ReleaseRank(m: MainPc): nat {
    match m
    case MSendLocked(_) => 4
    case MSendListed => 3
    case MSendLowered => 2
    case MSendSignalled => 1
    case MEndLocked => 4
    case MEndCleared => 3
    case MEndLowered => 2
    case MEndSignalled => 1
    case _ => 0
  }

  lemma SendReleases(s: State)
    requires s.mpc.MSendLocked? || s.mpc.MSendListed? || s.mpc.MSendLowered? || s.mpc.MSendSignalled?
    ensures MEnabled(s, Advance)
    ensures MStep(s, Advance).mutex.Free? || ReleaseRank(MStep(s, Advance).mpc) < ReleaseRank(s.mpc)
  {
  }

  lemma EndReleases(s: State)
    requires s.mpc.MEndLocked? || s.mpc.MEndCleared? || s.mpc.MEndLowered? || s.mpc.MEndSignalled?
    ensures MEnabled(s, Advance)
    ensures MStep(s, Advance).mutex.Free? || ReleaseRank(MStep(s, Advance).mpc) < ReleaseRank(s.mpc)
  {
  }

  /** A blocked worker waits for at most four steps of the main thread. */
  lemma MainReleases(s: State)
    requires Inv(s) && (s.wpc.WLock? || s.wpc.WWoken?) && !s.mutex.Free?
    ensures MEnabled(s, Advance)
    ensures MStep(s, Advance).mutex.Free? || ReleaseRank(MStep(s, Advance).mpc) < ReleaseRank(s.mpc)
  {
    hide LifeInv, ExitInv, WakeInv, HistoryInv, WireInv, FaithInv, ZcInv, MStep, MEnabled, ReleaseRank;
    if InSend(s.mpc) {
      SendReleases(s);
    } else {
      EndReleases(s);
    }
  }

  /** The list being sent, and what was taken, are as they were. */
  predicate SameList(s: State, t: State) {
    t.copy == s.copy && t.i == s.i && t.taken == s.taken && s.wire <= t.wire
  }

  predicate SameShared(s: State, t: State) {
    && t.zc == s.zc && t.wlocked == s.wlocked
    && t.packetsList == s.packetsList && t.isDone == s.isDone && t.isError == s.isError
    && t.terminate == s.terminate && t.threadInit == s.threadInit
    && t.isTerminated == s.isTerminated && t.errorCode == s.errorCode && t.mutex == s.mutex
  }

  lemma LockEffect(s: State)
    requires (s.wpc.WLock? || s.wpc.WWoken?) && s.mutex.Free?
    ensures WEnabled(s, Proceed) && WStep(s, Proceed) == s.(mutex := ByWorker, wpc := WCheckList)
  {
  }

  lemma ContinueEffect(s: State)
    requires s.wpc.WSentTerm? && !s.terminate && s.i < |s.copy|
    ensures WEnabled(s, Proceed)
    ensures WStep(s, Proceed) ==
            s.(cursor := if s.copy[s.i].kind.MemoryLocation? then s.cursor + s.wpc.n else s.cursor,
               remaining := s.remaining - s.wpc.n, wpc := WSend)
  {
    UpdateEffect(s, Proceed);
  }

  lemma PacketEffect(s: State)
    requires s.wpc.WPacket? && s.i < |s.copy|
    ensures WEnabled(s, Proceed)
    ensures var p, t := s.copy[s.i], WStep(s, Proceed);
            && SameShared(s, t) && SameList(s, t)
            && t.sendingCounter == s.sendingCounter && t.lastCounter == s.lastCounter
            && t.wpc == (if p.kind.Unknown? then WExitFlag(true, NotSupported) else WSend)
            && t.cursor == (if p.kind.Unknown? then s.cursor else p.offset)
            && t.remaining == (if p.kind.Unknown? then s.remaining else p.size)
  {
  }

  lemma PacketsEndEffect(s: State)
    requires s.wpc.WPacket? && s.i == |s.copy|
    ensures WEnabled(s, Proceed)
    ensures WStep(s, Proceed) == s.(wpc := if s.zc then WNotifyTest else WMarkDone)
  {
  }

  lemma UnlockEffect(s: State)
    requires s.wpc.WUnlock?
    ensures WEnabled(s, Proceed)
    ensures WStep(s, Proceed) == s.(mutex := Free, wlocked := false, i := 0, wpc := WPacket)
  {
  }

  lemma KernelEffect(s: State, n: int)
    requires s.wpc.WSend? && s.remaining != 0 && n <= s.remaining && s.i < |s.copy|
    requires s.cursor >= 0 && s.cursor + s.remaining <= |s.copy[s.i].data|
    ensures WEnabled(s, Returned(n))
    ensures var t := WStep(s, Returned(n));
            && t.wpc == WSent(n) && SameShared(s, t) && SameList(s, t)
            && t.remaining == s.remaining && t.lastCounter == s.lastCounter
            && t.sendingCounter ==
                 (if s.zc && s.copy[s.i].kind.MemoryLocation? then Int32(s.sendingCounter + 1) else s.sendingCounter)
            && t.cursor == (if n >= 0 && s.copy[s.i].kind.FileDescriptor? then s.cursor + n else s.cursor)
  {
    hide Int32;
  }

  /** What poll and recvmsg may come back with: an error, or any fresh range of ids the kernel has issued. */
  predicate Notifiable(c: WChoice, issued: nat, reported: set<nat>) {
    || (c.Refuse? && c.code in {PollError, RecvError, NotificationError})
    || (c.Report? && c.lo <= c.hi < issued && Range(c.lo, c.hi) !! reported)
  }

  lemma PollMayReport(s: State, c: WChoice)
    requires s.wpc.WPoll? && Notifiable(c, s.issued, s.reported)
    ensures WEnabled(s, c)
  {
  }

  lemma PollEffect(s: State, c: WChoice)
    requires Inv(s) && s.wpc.WPoll? && WEnabled(s, c)
    ensures c.Refuse? || c.Report?
    ensures var t, ret := WStep(s, c), if c.Report? then NotificationCount(c.lo, c.hi) else -1;
            && SameShared(s, t) && SameList(s, t) && t.wire == s.wire
            && t.remaining == s.remaining && t.cursor == s.cursor && t.sendingCounter == s.sendingCounter
            && t.lastCounter == (if ret < 1 then s.lastCounter else Int32(s.lastCounter + ret))
            && t.wpc == (if c.Refuse? then WExitFlag(true, c.code)
                         else if ret < 1 then WExitFlag(true, NotificationError)
                         else WNotifyTest)
            && (c.Report? ==> Outstanding(t) < Outstanding(s))
  {
    hide MutexInv, LifeInv, WakeInv, HistoryInv, WireInv, FaithInv, Int32, NotificationCount, Outstanding, ExitInv,
        ZcInv;
    if c.Report? {
      ReportLowers(s, c);
    }
  }

  /** The object in the slot is there to be copied. */
  predicate CanCopy(s: State) {
    !s.torn && s.packetsList.Some? && s.packetsList.value in s.heap
  }

  /** The slot's object can be copied, unless it was destroyed or the copy is torn. */
  lemma CopyEffect(s: State)
    requires Inv(s) && s.wpc.WCopying?
    ensures WEnabled(s, Proceed)
    ensures !CanCopy(s) ==> WStep(s, Proceed) == s.(copy := [], wpc := WFault) && !Defined(s)
    ensures CanCopy(s) ==>
              var l := s.heap[s.packetsList.value];
              WStep(s, Proceed) == s.(copy := l, taken := s.taken + [l], wpc := WClear)
  {
    hide MutexInv, LifeInv, ExitInv, HistoryInv, WireInv, ZcInv;
  }

  lemma SendPointIsGood(s: State)
    requires Inv(s) && s.wpc.WSend?
    ensures s.i < |s.copy| && s.remaining >= 0
    ensures s.cursor >= 0 && s.cursor + s.remaining <= |s.copy[s.i].data|
  {
    assert s.wpc.WSend? ==> InBounds(s.copy[s.i]);
  }

  lemma SentPointIsGood(s: State)
    requires Inv(s) && s.wpc.WSentTerm?
    ensures s.i < |s.copy|
  {
  }

  class TcpWorker {
    const zc: bool

    // SenderWorkerData
    var packetsList: Option<ListId>
    var isDone: bool
    var isError: bool
    var terminateThread: bool
    var threadInitialized: bool
    var isTerminatedThread: bool
    var errorCode: Code
    var packetsMutex: Holder

    // locals of the worker function
    var locked: bool             // is_locked_ of prot_lock
    var dataToBeSent: PacketList
    var packet: nat              // i of the for loop
    var dataSent: int            // or the file offset
    var remainingData: int
    var sendingCounter: int
    var lastSendingCounter: int

    /** The whole system, as the step relation sees it. */
    var world: State
    ghost var log: seq<Action>

    /** The statements executed, and how many of them are observed. */
    var steps: nat
    const budget: nat

    /** The worker's actions in earlier sessions. */
    ghost const earlier: nat

    predicate AgreesShared(t: State)
      reads this
    {
      && zc == t.zc
      && packetsList == t.packetsList && isDone == t.isDone && isError == t.isError
      && terminateThread == t.terminate && threadInitialized == t.threadInit
      && isTerminatedThread == t.isTerminated && errorCode == t.errorCode && packetsMutex == t.mutex
    }

    predicate AgreesLocals(t: State)
      reads this
    {
      && locked == t.wlocked && dataToBeSent == t.copy && packet == t.i
      && dataSent == t.cursor && remainingData == t.remaining
      && sendingCounter == t.sendingCounter && lastSendingCounter == t.lastCounter
    }

    /** The fields show the end of a legal run of the two threads. */
    ghost predicate Valid()
      reads this
    {
      AgreesShared(world) && AgreesLocals(world) && Reaches(zc, log, world) && Counted(log, earlier + steps)
    }

    /** As many statements as are observed were executed, in a legal run. */
    ghost predicate Observed()
      reads this
    {
      Valid() && steps >= budget
    }

    /** Valid, and about to execute the statement `w`. */
    ghost predicate At(w: WorkerPc)
      reads this
    {
      Valid() && world.wpc == w
    }

    /** Where the observation may end. */
    lemma Observe(w: WorkerPc)
      requires At(w) && steps >= budget
      ensures Observed()
    {
    }

    /** pthread_create: the thread starts in a session that `initialize` has just opened. */
    constructor (t: State, ghost run: seq<Action>, budget: nat)
      requires Reaches(t.zc, run, t) && t.wpc.WStart?
      ensures At(WStart) && world == t && log == run && steps == 0 && this.budget == budget
    {
      zc, world, log := t.zc, t, run;
      packetsList, isDone, isError, terminateThread := t.packetsList, t.isDone, t.isError, t.terminate;
      threadInitialized, isTerminatedThread := t.threadInit, t.isTerminated;
      errorCode, packetsMutex := t.errorCode, t.mutex;
      locked, dataToBeSent, packet, dataSent, remainingData := t.wlocked, t.copy, t.i, t.cursor, t.remaining;
      sendingCounter, lastSendingCounter := t.sendingCounter, t.lastCounter;
      steps, earlier, this.budget := 0, WorkerSteps(run), budget;
    }

    /** The assignments just executed are the worker's step with result `c`. */
    method Executed(c: WChoice)
      requires Reaches(zc, log, world) && WEnabled(world, c)
      requires AgreesShared(WStep(world, c)) && AgreesLocals(WStep(world, c))
      requires Counted(log, earlier + steps)
      modifies this`world, this`log, this`steps
      ensures At(WStep(old(world), c).wpc) && world == WStep(old(world), c) && log == old(log) + [W(c)]
      ensures old(world).wire <= world.wire && steps == old(steps) + 1
    {
      hide Counted, Reaches, WStep, WEnabled;
      CountedNext(log, earlier + steps, W(c));
      WorkerReaches(zc, log, world, c);
      world := WStep(world, c);
      log := log + [W(c)];
      steps := steps + 1;
    }

    method Load(t: State)
      requires zc == t.zc && AgreesLocals(t)
      modifies this
      ensures AgreesShared(t) && AgreesLocals(t) && world == t && log == old(log) && steps == old(steps)
    {
      LoadFlags(t);
      packetsList, isDone, packetsMutex := t.packetsList, t.isDone, t.mutex;
      world := t;
    }

    method LoadFlags(t: State)
      modifies this`isError, this`terminateThread, this`threadInitialized, this`isTerminatedThread, this`errorCode
      ensures isError == t.isError && terminateThread == t.terminate
      ensures threadInitialized == t.threadInit && isTerminatedThread == t.isTerminated && errorCode == t.errorCode
    {
      isError, errorCode, terminateThread := t.isError, t.errorCode, t.terminate;
      threadInitialized, isTerminatedThread := t.threadInit, t.isTerminated;
    }

    /** The main thread takes one step. */
    method MainMoves(a: MAction)
      requires Valid() && Alive(world.wpc) && MEnabled(world, a)
      modifies this
      ensures Valid() && Around(old(world), world) && world == MStep(old(world), a)
      ensures log == old(log) + [M(a)] && steps == old(steps)
    {
      hide Counted, Inv, Reaches, MStep, MEnabled;
      ReachableInv(zc, log, world);
      AroundStep(world, a);
      CountedNext(log, earlier + steps, M(a));
      MainReaches(zc, log, world, a);
      Load(MStep(world, a));
      log := log + [M(a)];
    }

    /** Any number of steps of the main thread and its client. */
    method MainRuns()
      requires Valid() && Alive(world.wpc)
      modifies this
      ensures Valid() && Around(old(world), world) && old(log) <= log
      ensures steps == old(steps)
    {
      hide Counted, Inv, Reaches, MStep, MEnabled;
      AroundRefl(world);
      var n: nat := *;
      while n > 0
        invariant Valid() && Around(old(world), world) && old(log) <= log
        invariant Alive(world.wpc) && steps == old(steps)
      {
        var a: MAction := *;
        if MEnabled(world, a) {
          MainMoves(a);
        }
        n := n - 1;
      }
    }

    /** What happens between two statements of the worker while it is not asleep. */
    method Interfere(ghost w: WorkerPc)
      requires At(w) && Alive(w) && !w.WAsleep?
      modifies this
      ensures At(w) && SameList(old(world), world) && world.wire == old(world).wire
      ensures old(log) <= log && steps == old(steps)
      ensures isError == old(isError) && errorCode == old(errorCode)
      ensures packet == old(packet) && dataToBeSent == old(dataToBeSent) && remainingData == old(remainingData)
      ensures Outstanding(world) == Outstanding(old(world))
    {
      hide Counted, Inv, Reaches;
      MainRuns();
    }

    // -------------------------------------------------------------- statements

    /** is_terminated_thread = false */
    method SayAlive()
      requires At(WStart)
      modifies this
      ensures At(WStarted) && old(log) <= log && steps > old(steps)
    {
      hide Counted, Inv, Reaches;
      isTerminatedThread := false;
      Executed(Proceed);
    }

    /** thread_initialized = true */
    method SayInitialized()
      requires At(WStarted)
      modifies this
      ensures At(WSetup) && old(log) <= log && steps > old(steps)
    {
      hide Counted, Inv, Reaches;
      threadInitialized := true;
      Executed(Proceed);
    }

    /** An option cannot be set. */
    method FailSetUp(code: Code)
      requires At(WSetup) && code in {CpuAffinity, SocketTimeout, SocketBuffers}
      modifies this
      ensures At(WExitFlag(true, code)) && old(log) <= log && steps > old(steps)
    {
      hide Counted, Inv, Reaches, KernelSend, Int32, NotificationCount, Range;
      Executed(Refuse(code));
    }

    /** sending_counter = 0, last_sending_counter = 0 */
    method ResetCounters()
      requires At(WSetup)
      modifies this
      ensures At(WLoopTest) && old(log) <= log && steps > old(steps)
    {
      hide Counted, Inv, Reaches, KernelSend, Int32, NotificationCount, Range;
      sendingCounter, lastSendingCounter := 0, 0;
      Executed(Proceed);
    }

    /** Affinity and socket options, any of which may fail; then the counters. */
    method SetUp() returns (failure: Option<Code>)
      requires At(WSetup)
      modifies this
      ensures At(if failure.Some? then WExitFlag(true, failure.value) else WLoopTest)
      ensures old(log) <= log && steps > old(steps)
    {
      hide Counted, Inv, Reaches;
      var c: WChoice := *;
      if c.Refuse? && c.code in {CpuAffinity, SocketTimeout, SocketBuffers} {
        FailSetUp(c.code);
        return Some(c.code);
      }
      ResetCounters();
      failure := None;
    }

    /** while(!terminate_thread), and is_locked_ = true when the loop goes on. */
    method TestLoop() returns (stop: bool)
      requires At(WLoopTest)
      modifies this
      ensures At(if stop then WExitFlag(false, NoError) else WLock)
      ensures stop == old(terminateThread) && old(log) <= log && steps > old(steps)
    {
      hide Counted, Inv, Reaches;
      stop := terminateThread;
      locked := !stop;
      Executed(Proceed);
    }

    /** pthread_mutex_lock on a free mutex */
    method TakeLock()
      requires (At(WLock) || At(WWoken)) && packetsMutex == Free
      modifies this
      ensures At(WCheckList) && old(log) <= log && steps > old(steps)
    {
      hide Counted, Inv, Reaches, WStep, WEnabled;
      LockEffect(world);
      packetsMutex := ByWorker;
      Executed(Proceed);
    }

    /** packets_list == NULL */
    method TestNoList() returns (none: bool)
      requires At(WCheckList)
      modifies this
      ensures At(if none then WCheckTerm else WCopy)
      ensures none == old(packetsList).None? && old(log) <= log && steps > old(steps)
    {
      hide Counted, Inv, Reaches;
      none := packetsList.None?;
      Executed(Proceed);
    }

    /** if(terminate_thread), without a list */
    method TestStop() returns (stop: bool)
      requires At(WCheckTerm)
      modifies this
      ensures At(if stop then WExitFlag(false, NoError) else WWait)
      ensures stop == old(terminateThread) && old(log) <= log && steps > old(steps)
    {
      hide Counted, Inv, Reaches;
      stop := terminateThread;
      Executed(Proceed);
    }

    /** pthread_cond_wait releases the mutex and sleeps. */
    method FallAsleep()
      requires At(WWait)
      modifies this
      ensures At(WAsleep) && old(log) <= log && steps > old(steps)
    {
      hide Counted, Inv, Reaches;
      packetsMutex := Free;
      Executed(Proceed);
    }

    /** A spurious wake-up */
    method WakeUp()
      requires At(WAsleep)
      modifies this
      ensures At(WWoken) && old(log) <= log && steps > old(steps)
    {
      hide Counted, Inv, Reaches;
      Executed(Proceed);
    }

    /** data_to_be_sent = *packets_list: the copy begins. */
    method BeginCopy()
      requires At(WCopy)
      modifies this
      ensures At(WCopying) && old(log) <= log && steps > old(steps)
    {
      hide Counted, Inv, Reaches;
      Executed(Proceed);
    }

    /** The packets are still there, and are read. */
    method ReadPackets()
      requires At(WCopying) && CanCopy(world)
      modifies this
      ensures At(WClear) && old(log) <= log && steps > old(steps) && world.wire == old(world).wire
      ensures dataToBeSent == old(world).heap[old(packetsList).value]
    {
      hide Counted, Inv, Reaches, WStep, WEnabled, Defined;
      ReachableInv(zc, log, world);
      CopyEffect(world);
      dataToBeSent := world.heap[packetsList.value];
      Executed(Proceed);
    }

    /** The packets are gone: the read faults. */
    method ReadDead()
      requires At(WCopying) && !CanCopy(world)
      modifies this
      ensures At(WFault) && old(log) <= log && steps > old(steps) && world.wire == old(world).wire
      ensures !Defined(world)
    {
      hide Counted, Inv, Reaches, WStep, WEnabled, CanCopy;
      ReachableInv(zc, log, world);
      CopyEffect(world);
      dataToBeSent := [];
      Executed(Proceed);
    }

    /** data_to_be_sent = *packets_list: the packets are read, if they are still there. */
    method FinishCopy() returns (whole: bool)
      requires At(WCopying)
      modifies this
      ensures At(if whole then WClear else WFault) && old(log) <= log && steps > old(steps)
      ensures whole == CanCopy(old(world)) && world.wire == old(world).wire
      ensures if whole then dataToBeSent == old(world).heap[old(packetsList).value] else !Defined(world)
    {
      hide Counted, Inv, Reaches;
      whole := CanCopy(world);
      if whole {
        ReadPackets();
      } else {
        ReadDead();
      }
    }

    /** data_to_be_sent = *packets_list */
    method CopyList() returns (whole: bool)
      requires At(WCopy)
      modifies this
      ensures At(if whole then WClear else WFault) && old(log) <= log && steps > old(steps)
      ensures !whole ==> !Defined(world)
    {
      hide Counted, Inv, Reaches, TcpWorker.At, TcpWorker.Valid, SameList;
      BeginCopy();
      Interfere(WCopying);
      whole := FinishCopy();
    }

    /** packets_list = NULL */
    method ClearList()
      requires At(WClear)
      modifies this
      ensures At(WUnlock) && old(log) <= log && steps > old(steps) && packetsList == None
      ensures world.copy == old(world).copy && world.taken == old(world).taken && world.wire == old(world).wire
    {
      hide Counted, Inv, Reaches;
      packetsList := None;
      Executed(Proceed);
    }

    /** prot_lock.unlock(), and i = 0 */
    method Unlock()
      requires At(WUnlock)
      modifies this
      ensures At(WPacket) && packet == 0 && old(log) <= log && steps > old(steps)
      ensures world.copy == old(world).copy && world.taken == old(world).taken && world.wire == old(world).wire
    {
      hide Counted, Inv, Reaches, WStep, WEnabled;
      UnlockEffect(world);
      packetsMutex, locked, packet := Free, false, 0;
      Executed(Proceed);
    }

    /** data_sent and remaining_data, or offset and remaining_data, of a supported packet */
    method BeginSlice(supported: bool, p: DataPacket)
      modifies this`dataSent, this`remainingData
      ensures dataSent == if supported then p.offset else old(dataSent)
      ensures remainingData == if supported then p.size else old(remainingData)
    {
      if supported {
        dataSent, remainingData := p.offset, p.size;
      }
    }

    /** The choice on data_ptr_type, and the variables of the send loop. */
    method BeginPacket() returns (supported: bool)
      requires At(WPacket) && packet < |dataToBeSent|
      modifies this
      ensures At(if supported then WSend else WExitFlag(true, NotSupported))
      ensures supported == !old(dataToBeSent[packet].kind.Unknown?)
      ensures SameList(old(world), world) && old(log) <= log && steps > old(steps)
    {
      hide Counted, Inv, Reaches, WStep, WEnabled;
      PacketEffect(world);
      supported := !dataToBeSent[packet].kind.Unknown?;
      BeginSlice(supported, dataToBeSent[packet]);
      Executed(Proceed);
    }

    /** The end of the for loop */
    method EndPackets()
      requires At(WPacket) && packet == |dataToBeSent|
      modifies this
      ensures At(if zc then WNotifyTest else WMarkDone)
      ensures SameList(old(world), world) && old(log) <= log && steps > old(steps)
    {
      hide Counted, Inv, Reaches, WStep, WEnabled;
      PacketsEndEffect(world);
      Executed(Proceed);
    }

    /** sending_counter++ after send with MSG_ZEROCOPY; sendfile moves the offset. */
    method CountCall(s: int, kind: DataType)
      modifies this`sendingCounter, this`dataSent
      ensures sendingCounter ==
              if zc && kind.MemoryLocation? then Int32(old(sendingCounter) + 1) else old(sendingCounter)
      ensures dataSent == if s >= 0 && kind.FileDescriptor? then old(dataSent) + s else old(dataSent)
    {
      if zc && kind.MemoryLocation? {
        sendingCounter := Int32(sendingCounter + 1);
      }
      if s >= 0 && kind.FileDescriptor? {
        dataSent := dataSent + s;
      }
    }

    /** data_sent += s for memory, and remaining_data -= s */
    method CountBytes(s: int, kind: DataType)
      modifies this`dataSent, this`remainingData
      ensures dataSent == if kind.MemoryLocation? then old(dataSent) + s else old(dataSent)
      ensures remainingData == old(remainingData) - s
    {
      if kind.MemoryLocation? {
        dataSent := dataSent + s;
      }
      remainingData := remainingData - s;
    }

    /** send or sendfile: any result up to remaining_data. */
    method CallKernel() returns (s: int)
      requires At(WSend) && remainingData != 0
      modifies this
      ensures At(WSent(s)) && SameList(old(world), world) && old(log) <= log && steps > old(steps)
    {
      hide Counted, Inv, Reaches, WStep, WEnabled, Int32;
      ReachableInv(zc, log, world);
      SendPointIsGood(world);
      s := *;
      if s > remainingData {
        s := remainingData;
      }
      KernelEffect(world, s);
      CountCall(s, dataToBeSent[packet].kind);
      Executed(Returned(s));
    }

    /** if(s < 0) */
    method TestError(s: int)
      requires At(WSent(s))
      modifies this
      ensures At(if s < 0 then WExitFlag(true, SendingError) else WSentTerm(s))
      ensures SameList(old(world), world) && old(log) <= log && steps > old(steps)
    {
      hide Counted, Inv, Reaches;
      Executed(Proceed);
    }

    method StopSending(s: int)
      requires At(WSentTerm(s)) && terminateThread
      modifies this
      ensures At(WExitFlag(false, NoError))
      ensures SameList(old(world), world) && old(log) <= log && steps > old(steps)
    {
      hide Counted, Inv, Reaches, WStep;
      ReachableInv(zc, log, world);
      SentPointIsGood(world);
      UpdateEffect(world, Proceed);
      Executed(Proceed);
    }

    /** data_sent += s and remaining_data -= s */
    method Update(s: int)
      requires At(WSentTerm(s)) && !terminateThread
      modifies this
      ensures At(WSend)
      ensures SameList(old(world), world) && old(log) <= log && steps > old(steps)
    {
      hide Counted, Inv, Reaches, WStep, WEnabled;
      ReachableInv(zc, log, world);
      SentPointIsGood(world);
      ContinueEffect(world);
      CountBytes(s, dataToBeSent[packet].kind);
      Executed(Proceed);
    }

    /** if(terminate_thread), else data_sent += s and remaining_data -= s */
    method TestStopThenUpdate(s: int) returns (stop: bool)
      requires At(WSentTerm(s))
      modifies this
      ensures At(if stop then WExitFlag(false, NoError) else WSend)
      ensures stop == old(terminateThread)
      ensures SameList(old(world), world) && old(log) <= log && steps > old(steps)
    {
      hide Counted, Inv, Reaches;
      stop := terminateThread;
      if stop {
        StopSending(s);
      } else {
        Update(s);
      }
    }

    /** i++ */
    method NextPacket()
      requires At(WSend) && remainingData == 0
      modifies this
      ensures At(WPacket) && packet == old(packet) + 1 && dataToBeSent == old(dataToBeSent)
      ensures world.taken == old(world).taken && world.copy == old(world).copy
      ensures old(world).wire <= world.wire && old(log) <= log && steps > old(steps)
    {
      hide Counted, Inv, Reaches;
      packet := packet + 1;
      Executed(Proceed);
    }

    /** while(last_sending_counter < sending_counter) */
    method TestNotified() returns (waiting: bool)
      requires At(WNotifyTest)
      modifies this
      ensures At(if waiting then WPoll else WMarkDone)
      ensures waiting == (old(lastSendingCounter) < old(sendingCounter))
      ensures SameList(old(world), world) && world.wire == old(world).wire
      ensures old(log) <= log && steps > old(steps)
      ensures Outstanding(world) == Outstanding(old(world))
    {
      hide Counted, Inv, Reaches;
      waiting := lastSendingCounter < sendingCounter;
      Executed(Proceed);
    }

    /** poll, recvmsg and read_notification_zc */
    method ReadNotification() returns (failure: Option<Code>)
      requires At(WPoll)
      modifies this
      ensures At(if failure.Some? then WExitFlag(true, failure.value) else WNotifyTest)
      ensures SameList(old(world), world) && world.wire == old(world).wire
      ensures old(log) <= log && steps > old(steps)
      ensures failure.None? ==> Outstanding(world) < Outstanding(old(world))
    {
      hide Counted, Inv, Reaches, WStep, WEnabled, Int32, Outstanding, NotificationCount;
      var c: WChoice := *;
      if !Notifiable(c, world.issued, world.reported) {
        c := Refuse(PollError);
      }
      PollMayReport(world, c);
      ReachableInv(zc, log, world);
      PollEffect(world, c);
      if c.Refuse? {
        Executed(c);
        return Some(c.code);
      }
      var ret := NotificationCount(c.lo, c.hi);
      if ret < 1 {
        Executed(c);
        return Some(NotificationError);
      }
      lastSendingCounter := Int32(lastSendingCounter + ret);
      Executed(c);
      failure := None;
    }

    /** is_done = true */
    method MarkDone()
      requires At(WMarkDone)
      modifies this
      ensures At(WLoopTest) && isDone && old(log) <= log && steps > old(steps)
    {
      hide Counted, Inv, Reaches;
      isDone := true;
      Executed(Proceed);
    }

    // -------------------------------------------------------------- END_THREAD_ERROR

    /** is_error = flag */
    method SetError(flag: bool, code: Code)
      requires At(WExitFlag(flag, code))
      modifies this
      ensures At(WExitCode(code)) && old(log) <= log && steps > old(steps)
      ensures isError == flag
    {
      hide Counted, Inv, Reaches;
      isError := flag;
      Executed(Proceed);
    }

    /** error_code = code */
    method SetCode(code: Code)
      requires At(WExitCode(code))
      modifies this
      ensures At(WExitUnlock) && old(log) <= log && steps > old(steps)
      ensures errorCode == code && isError == old(isError)
    {
      hide Counted, Inv, Reaches;
      errorCode := code;
      Executed(Proceed);
    }

    /** ~MutexRAII: unlock, if is_locked_ */
    method DropLock()
      requires At(WExitUnlock)
      modifies this
      ensures At(WExitPublish) && old(log) <= log && steps > old(steps)
      ensures isError == old(isError) && errorCode == old(errorCode)
    {
      hide Counted, Inv, Reaches;
      if locked {
        packetsMutex, locked := Free, false;
      }
      Executed(Proceed);
    }

    /** ~AtomicValRAII: is_terminated_thread = true */
    method Publish()
      requires At(WExitPublish)
      modifies this
      ensures At(WGone) && old(log) <= log && steps > old(steps)
      ensures isError == old(isError) && errorCode == old(errorCode)
      ensures isTerminatedThread
    {
      hide Counted, Inv, Reaches;
      isTerminatedThread := true;
      Executed(Proceed);
    }

    method EndThread(flag: bool, code: Code)
      requires At(WExitFlag(flag, code))
      modifies this
      ensures At(WGone) && old(log) <= log && steps > old(steps)
      ensures isError == flag && errorCode == code && isTerminatedThread
    {
      hide Counted, Inv, Reaches, TcpWorker.At, TcpWorker.Valid, SameList;
      Interfere(WExitFlag(flag, code));
      SetError(flag, code);
      Interfere(WExitCode(code));
      SetCode(code);
      Interfere(WExitUnlock);
      DropLock();
      Interfere(WExitPublish);
      Publish();
    }

    // -------------------------------------------------------------- loops

    /**
     * pthread_mutex_lock: blocked while the main thread holds the mutex, which has at most four
     * statements to go to its unlock.
     */
    method LockBlock()
      requires At(WLock) || At(WWoken)
      modifies this
      ensures At(WCheckList) && old(log) <= log && steps > old(steps)
    {
      hide Counted, Inv, Reaches, MStep, MEnabled, ReleaseRank;
      ghost var w := world.wpc;
      while packetsMutex != Free
        invariant (w.WLock? || w.WWoken?) && At(w) && old(log) <= log && steps >= old(steps)
        decreases packetsMutex != Free, ReleaseRank(world.mpc)
      {
        ReachableInv(zc, log, world);
        MainReleases(world);
        MainMoves(Advance);
      }
      TakeLock();
    }

    /** Asleep until the main thread signals, or spuriously woken. */
    method SleepUntilWoken()
      requires At(WAsleep)
      modifies this
      ensures At(WWoken) && old(log) <= log && steps >= old(steps)
    {
      hide Counted, Inv, Reaches;
      MainRuns();
      if world.wpc.WAsleep? {
        WakeUp();
      }
    }

    /** pthread_cond_wait */
    method CondWait()
      requires At(WWait)
      modifies this
      ensures At(WCheckList) && old(log) <= log && steps > old(steps)
    {
      hide Counted, Inv, Reaches, TcpWorker.At, TcpWorker.Valid;
      FallAsleep();
      SleepUntilWoken();
      Interfere(WWoken);
      LockBlock();
    }

    /** while(packets_list == NULL) */
    method AwaitList() returns (pace: Pace)
      requires At(WCheckList)
      modifies this
      ensures pace.GoesOn? ==> At(WCopy)
      ensures !pace.Crashed?
      ensures if pace.Exited? then At(WGone) else pace.Watched? ==> Observed()
      ensures old(log) <= log && steps >= old(steps)
    {
      hide Counted, Inv, Reaches, TcpWorker.At, TcpWorker.Valid, SameList;
      Interfere(WCheckList);
      var none := TestNoList();
      while none
        invariant At(if none then WCheckTerm else WCopy) && old(log) <= log && steps >= old(steps)
        decreases budget - steps
      {
        if steps >= budget {
          Observe(WCheckTerm);
          return Watched;
        }
        Interfere(WCheckTerm);
        var stop := TestStop();
        if stop {
          EndThread(false, NoError);
          return Exited;
        }
        Interfere(WWait);
        CondWait();
        Interfere(WCheckList);
        none := TestNoList();
      }
      pace := GoesOn;
    }

    /** while(remaining_data != 0), and the end of the packet */
    method SendPacket() returns (pace: Pace)
      requires At(WPacket) && packet < |dataToBeSent|
      modifies this
      ensures pace.GoesOn? ==>
                && At(WPacket) && packet == old(packet) + 1
                && world.taken == old(world).taken && world.copy == old(world).copy
      ensures !pace.Crashed?
      ensures if pace.Exited? then At(WGone) else pace.Watched? ==> Observed()
      ensures old(log) <= log && steps >= old(steps)
    {
      hide Counted, Inv, Reaches;
      Interfere(WPacket);
      var supported := BeginPacket();
      if !supported {
        EndThread(true, NotSupported);
        return Exited;
      }
      while remainingData != 0
        invariant At(WSend) && SameList(old(world), world) && old(log) <= log && steps >= old(steps)
        decreases budget - steps
      {
        if steps >= budget {
          return Watched;
        }
        pace := SendSome();
        if !pace.GoesOn? {
          return;
        }
      }
      Interfere(WSend);
      NextPacket();
      pace := GoesOn;
    }

    /** One turn of the send loop */
    method SendSome() returns (pace: Pace)
      requires At(WSend) && remainingData != 0
      modifies this
      ensures pace.GoesOn? ==> At(WSend) && SameList(old(world), world)
      ensures pace.Exited? ==> At(WGone)
      ensures !pace.Watched? && !pace.Crashed? && old(log) <= log && steps > old(steps)
    {
      hide Counted, Inv, Reaches, TcpWorker.At, TcpWorker.Valid;
      Interfere(WSend);
      var s := CallKernel();
      Interfere(WSent(s));
      TestError(s);
      if s < 0 {
        EndThread(true, SendingError);
        return Exited;
      }
      Interfere(WSentTerm(s));
      var stop := TestStopThenUpdate(s);
      if stop {
        EndThread(false, NoError);
        return Exited;
      }
      pace := GoesOn;
    }

    /** for(i < num_packets): afterwards every byte of the list follows what was on the wire. */
    method SendPackets() returns (pace: Pace)
      requires At(WPacket) && packet == 0
      modifies this
      ensures pace.GoesOn? ==>
                && At(if zc then WNotifyTest else WMarkDone)
                && world.wire == old(world).wire + ListBytes(old(dataToBeSent))
      ensures !pace.Crashed?
      ensures if pace.Exited? then At(WGone) else pace.Watched? ==> Observed()
      ensures old(log) <= log && steps >= old(steps)
    {
      hide Counted, Inv, Reaches;
      while packet < |dataToBeSent|
        invariant At(WPacket) && packet <= |dataToBeSent| && old(log) <= log && steps >= old(steps)
        invariant world.taken == old(world).taken && world.copy == old(world).copy
      {
        pace := SendPacket();
        if !pace.GoesOn? {
          return;
        }
      }
      Interfere(WPacket);
      EndPackets();
      ReachableInv(zc, old(log), old(world));
      ReachableInv(zc, log, world);
      ListIsOut(old(world), world);
      pace := GoesOn;
    }

    /** while(last_sending_counter < sending_counter): every notification leaves fewer to come. */
    method AwaitNotifications() returns (pace: Pace)
      requires At(WNotifyTest)
      modifies this
      ensures pace.GoesOn? ==> At(WMarkDone) && world.wire == old(world).wire
      ensures pace.Exited? ==> At(WGone)
      ensures !pace.Watched? && !pace.Crashed? && old(log) <= log && steps > old(steps)
    {
      hide Counted, Inv, Reaches, Outstanding, TcpWorker.At, TcpWorker.Valid, SameList;
      var waiting := TestNotified();
      while waiting
        invariant At(if waiting then WPoll else WMarkDone) && old(log) <= log && steps > old(steps)
        invariant world.wire == old(world).wire
        decreases waiting, Outstanding(world)
      {
        Interfere(WPoll);
        var failure := ReadNotification();
        if failure.Some? {
          EndThread(true, failure.value);
          return Exited;
        }
        Interfere(WNotifyTest);
        waiting := TestNotified();
      }
      pace := GoesOn;
    }

    /** From the lock to the unlock: a list is copied out of the slot. */
    method TakeList() returns (pace: Pace)
      requires At(WLock)
      modifies this
      ensures pace.GoesOn? ==> At(WPacket) && packet == 0
      ensures if pace.Exited? then At(WGone) else pace.Watched? ==> Observed()
      ensures pace.Crashed? ==> At(WFault) && !Defined(world)
      ensures old(log) <= log && steps >= old(steps)
    {
      hide Counted, Inv, Reaches, TcpWorker.At, TcpWorker.Valid, SameList;
      LockBlock();
      pace := AwaitList();
      if !pace.GoesOn? {
        return;
      }
      Interfere(WCopy);
      var whole := CopyList();
      if !whole {
        return Crashed;
      }
      Interfere(WClear);
      ClearList();
      Interfere(WUnlock);
      Unlock();
    }

    /** One turn of the sending loop, after its test. */
    method ServeOneList() returns (pace: Pace)
      requires At(WLock)
      modifies this
      ensures pace.GoesOn? ==> At(WLoopTest)
      ensures if pace.Exited? then At(WGone) else pace.Watched? ==> Observed()
      ensures pace.Crashed? ==> At(WFault) && !Defined(world)
      ensures old(log) <= log && steps >= old(steps)
    {
      hide Counted, Inv, Reaches, TcpWorker.At, TcpWorker.Valid, SameList;
      pace := TakeList();
      if !pace.GoesOn? {
        return;
      }
      Interfere(WPacket);
      pace := SendPackets();
      if !pace.GoesOn? {
        return;
      }
      Interfere(if zc then WNotifyTest else WMarkDone);
      if zc {
        pace := AwaitNotifications();
        if !pace.GoesOn? {
          return;
        }
      }
      Interfere(WMarkDone);
      MarkDone();
    }

    /** Up to the sending loop: the two flags, and the options of the socket. */
    method StartUp() returns (failure: Option<Code>)
      requires At(WStart)
      modifies this
      ensures At(if failure.Some? then WExitFlag(true, failure.value) else WLoopTest)
      ensures old(log) <= log && steps > old(steps)
    {
      hide Counted, Inv, Reaches, TcpWorker.At, TcpWorker.Valid, SameList;
      SayAlive();
      Interfere(WStarted);
      SayInitialized();
      Interfere(WSetup);
      failure := SetUp();
    }

    lemma VerdictOf(code: Code)
      requires At(WGone)
      ensures isError && errorCode == code <==> Caused(zc, log, code)
    {
      hide Counted, Caused, Reaches;
      ErrorIffFailure(zc, log, world, code);
    }

    /** What the worker leaves for `send` to decode. */
    lemma LeaveVerdict()
      requires At(WGone)
      ensures isTerminatedThread
      ensures if isError then ErrorCode(zc, errorCode) else terminateThread && errorCode == NoError
      ensures forall code :: isError && errorCode == code <==> Caused(zc, log, code)
    {
      hide Caused, WorkerSteps, Legal;
      forall code ensures isError && errorCode == code <==> Caused(zc, log, code) {
        VerdictOf(code);
      }
      hide Counted, Inv, Reaches;
      LeavesVerdict(zc, log, world);
    }

    /**
     * tcp_worker_function. Whatever the main thread does meanwhile, its statements form a legal run
     * of the hand-off, and when it ends the worker is gone and has left a verdict.
     */
    method WorkerFunction() returns (pace: Pace)
      requires At(WStart)
      modifies this
      ensures old(log) <= log && !pace.GoesOn? && (pace.Watched? ==> Observed())
      ensures pace.Crashed? ==> At(WFault) && !Defined(world)
      ensures pace.Exited? ==>
                At(WGone) && isTerminatedThread
                && (if isError then ErrorCode(zc, errorCode) else terminateThread && errorCode == NoError)
                && forall code :: isError && errorCode == code <==> Caused(zc, log, code)
    {
      hide Caused, Counted, Inv, Reaches, TcpWorker.At, TcpWorker.Valid, SameList;
      var failure := StartUp();
      if failure.Some? {
        EndThread(true, failure.value);
        LeaveVerdict();
        return Exited;
      }
      while true
        invariant At(WLoopTest) && old(log) <= log && steps >= old(steps)
        decreases budget - steps
      {
        if steps >= budget {
          Observe(WLoopTest);
          return Watched;
        }
        Interfere(WLoopTest);
        var stop := TestLoop();
        if stop {
          EndThread(false, NoError);
          LeaveVerdict();
          return Exited;
        }
        Interfere(WLock);
        pace := ServeOneList();
        if pace.Exited? {
          LeaveVerdict();
        }
        if !pace.GoesOn? {
          return;
        }
      }
    }
  }
}
