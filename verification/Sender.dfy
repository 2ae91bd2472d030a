/**
 * TCPSender and TCPSenderZC as a class: the methods of the main thread, with the worker free to
 * take any number of steps between any two of their statements.
 */
module Sender {
  import opened Packets
  import opened HandOff
  import opened HandOffInvariant
  import opened HandOffTheorems
  import opened HandOffProgress
  import opened HandOffOverwrite
  import opened HandOffVerdict
  import opened HandOffWithdrawal

  /** How `send` ends. */
  datatype SendResult =
    | Accepted
    | NotInitialized
    | NoThread                  // "No Thread Available to execute the send operation"
    | WorkerError(code: Code)   // the switch on error_code
    | Ongoing                   // "... while on going send operation"

  /** The states in which `send` reads is_terminated_thread and is_done, and the runs that lead to them. */
  datatype Asked = Asked(before: seq<Action>, alive: State, between: seq<Action>, done: State) {
    predicate Accepts() {
      !alive.isTerminated && done.isDone
    }

    /**
     * The two states lie on the run that a call of `send(list)` extended from `start` to `end`: the
     * call goes on from `alive` if the worker is alive, and reads is_done at `done`.
     */
    ghost predicate During(zc: bool, start: seq<Action>, end: seq<Action>, list: ListId) {
      && start <= before <= end && Reaches(zc, before, alive) && alive.mpc.MIdle?
      && (!alive.isTerminated ==>
            && before + [M(BeginSend(list))] <= between && between + [M(Advance)] <= end
            && Reaches(zc, between, done) && done.mpc == MSendAlive(list))
    }
  }

  lemma CutLonger(cut: Cut, zc: bool, start: seq<Action>, end: seq<Action>, from: seq<Action>)
    requires cut.During(zc, start, end) && from <= start
    ensures cut.During(zc, from, end)
  {
    hide Reaches;
  }

  lemma DuringLonger(asked: Asked, zc: bool, start: seq<Action>, end: seq<Action>, list: ListId, from: seq<Action>,
      to: seq<Action>)
    requires asked.During(zc, start, end, list) && from <= start && end <= to
    ensures asked.During(zc, from, to, list)
  {
    hide Reaches;
  }

  // ---------------------------------------------------------------- interference

  /** The worker is set up and waits for a list; nobody told it to stop. */
  predicate Idle(s: State) {
    && s.isDone && !s.terminate && s.packetsList.None?
    && (s.wpc.WLoopTest? || s.wpc.WLock? || s.wpc.WCheckList? || s.wpc.WCheckTerm? ||
        s.wpc.WWait? || s.wpc.WAsleep? || s.wpc.WWoken?)
  }

  lemma IdleLooks(s: State, c: WChoice)
    requires Idle(s) && WEnabled(s, c)
    requires s.wpc.WLoopTest? || s.wpc.WLock? || s.wpc.WCheckList?
    ensures Idle(WStep(s, c))
  {
    hide KernelSend, Int32, NotificationCount, Range;
  }

  lemma IdleWaits(s: State, c: WChoice)
    requires Idle(s) && WEnabled(s, c)
    requires s.wpc.WCheckTerm? || s.wpc.WWait? || s.wpc.WAsleep? || s.wpc.WWoken?
    ensures Idle(WStep(s, c))
  {
    hide KernelSend, Int32, NotificationCount, Range;
  }

  lemma IdleStep(s: State, c: WChoice)
    requires Idle(s) && WEnabled(s, c)
    ensures Idle(WStep(s, c))
  {
    hide WStep, WEnabled;
    if s.wpc.WLoopTest? || s.wpc.WLock? || s.wpc.WCheckList? {
      IdleLooks(s, c);
    } else {
      IdleWaits(s, c);
    }
  }

  /** What any number of worker steps leaves alone, and what it only extends. */
  predicate Meanwhile(s: State, t: State) {
    && t.zc == s.zc && t.terminate == s.terminate && t.mpc == s.mpc && t.initialized == s.initialized
    && t.heap == s.heap && t.posted == s.posted && t.overwritten == s.overwritten && t.freed == s.freed
    && (s.torn ==> t.torn) && (t.torn && !s.torn ==> Assigning(s) && MayCopy(s))
    && (MayCopy(t) ==> MayCopy(s))
    && (s.isDone ==> t.isDone)
    && s.taken <= t.taken && s.wire <= t.wire
    && (t.packetsList == s.packetsList || t.packetsList.None?)
    && (s.threadInit ==> t.threadInit)
    && StartRank(t.wpc) <= StartRank(s.wpc)
    && (s.wpc.WGone? ==> t == s)
    && (Idle(s) ==> Idle(t))
    && Rests(s, t) && StaysWithdrawn(s, t)
  }

  /** What every call short of `initialize` leaves alone or extends. */
  predicate Grows(s: State, t: State) {
    && t.zc == s.zc && t.heap == s.heap && t.overwritten == s.overwritten
    && t.freed == s.freed && t.torn == s.torn && s.taken <= t.taken && s.wire <= t.wire
  }

  /** Nothing was accepted, taken or sent. */
  predicate SameSession(s: State, t: State) {
    t.zc == s.zc && t.posted == s.posted && t.taken == s.taken && t.wire == s.wire && t.wpc == s.wpc
  }

  predicate Steady(s: State, t: State) {
    Grows(s, t) && t.posted == s.posted
  }

  lemma MeanwhileRefl(s: State)
    ensures Meanwhile(s, s)
  {
  }

  lemma MeanwhileTrans(s: State, t: State, u: State)
    requires Meanwhile(s, t) && Meanwhile(t, u)
    ensures Meanwhile(s, u)
  {
    hide Idle, AtRest, Withdrawn, StartRank;
  }

  lemma MeanwhileStep(s: State, c: WChoice)
    requires Inv(s) && WEnabled(s, c)
    ensures Inv(WStep(s, c)) && Meanwhile(s, WStep(s, c))
    ensures StartRank(s.wpc) > 0 ==> StartRank(WStep(s, c).wpc) < StartRank(s.wpc)
  {
    WorkerRests(s, c);
    hide Rests, StaysWithdrawn;
    WorkerKeepsInv(s, c);
    if s.wpc.WClear? {
    } else {
      if Idle(s) {
        IdleStep(s, c);
      }
      hide WStep, MutexInv, LifeInv, ExitInv, WakeInv, HistoryInv, WireInv, FaithInv, ZcInv, Idle;
    }
  }

  /** Steps the worker needs to give up the lock it holds. */
  function HoldRank(w: WorkerPc): nat {
    match w
    case WCheckList => 5
    case WCheckTerm => 4
    case WCopy => 4
    case WCopying => 3
    case WWait => 1
    case WClear => 2
    case WUnlock => 1
    case WExitFlag(_, _) => 3
    case WExitCode(_) => 2
    case WExitUnlock => 1
    case _ => 0
  }

  lemma HolderLooks(s: State, c: WChoice)
    requires MutexInv(s) && s.mutex.ByWorker? && WEnabled(s, c)
    requires s.wpc.WCheckList? || s.wpc.WCheckTerm? || s.wpc.WWait?
    ensures WStep(s, c).mutex.Free? || HoldRank(WStep(s, c).wpc) < HoldRank(s.wpc)
  {
  }

  lemma HolderTakes(s: State, c: WChoice)
    requires MutexInv(s) && s.mutex.ByWorker? && WEnabled(s, c)
    requires s.wpc.WCopy? || s.wpc.WCopying? || s.wpc.WClear? || s.wpc.WUnlock?
    ensures WStep(s, c).mutex.Free? || HoldRank(WStep(s, c).wpc) < HoldRank(s.wpc)
  {
  }

  lemma HolderLeaves(s: State, c: WChoice)
    requires MutexInv(s) && s.mutex.ByWorker? && WEnabled(s, c)
    requires s.wpc.WExitFlag? || s.wpc.WExitCode? || s.wpc.WExitUnlock?
    ensures WStep(s, c).mutex.Free? || HoldRank(WStep(s, c).wpc) < HoldRank(s.wpc)
  {
  }

  /** A blocked main thread waits for at most five worker steps. */
  lemma HolderMoves(s: State, c: WChoice)
    requires Inv(s) && s.mutex.ByWorker? && Defined(s) && WEnabled(s, c)
    ensures WStep(s, c).mutex.Free? || HoldRank(WStep(s, c).wpc) < HoldRank(s.wpc)
  {
    HolderCanMove(s);
    hide LifeInv, ExitInv, WakeInv, HistoryInv, WireInv, ZcInv, FaithInv, WStep, WEnabled;
    if ByFlag(s.wpc) {
      HolderLeaves(s, c);
    } else if s.wpc.WCopy? || s.wpc.WCopying? || s.wpc.WClear? || s.wpc.WUnlock? {
      HolderTakes(s, c);
    } else {
      HolderLooks(s, c);
    }
  }

  lemma HolderCanMove(s: State)
    requires Inv(s) && s.mutex.ByWorker? && Defined(s)
    ensures CanMove(s)
  {
    hide LifeInv, ExitInv, WakeInv, HistoryInv, WireInv, ZcInv;
  }

  class TcpSender {
    const zc: bool

    // SenderWorkerData
    var packetsList: Option<ListId>
    var isDone: bool
    var isError: bool
    var terminateThread: bool
    var threadInitialized: bool
    var isTerminatedThread: bool
    var errorCode: Code
    var packetsMutex: Holder

    // TCPSender
    var initialized: bool

    /**
     * The whole system of the two threads, the kernel and the client's lists, as the step relation
     * sees it. Each statement of the main thread assigns to the fields above and `Executed` checks
     * that the fields now agree with the step.
     */
    var world: State

    /** The actions of both threads so far. */
    ghost var log: seq<Action>

    predicate Agrees(t: State)
      reads this
    {
      && zc == t.zc
      && packetsList == t.packetsList && isDone == t.isDone && isError == t.isError
      && terminateThread == t.terminate && threadInitialized == t.threadInit
      && isTerminatedThread == t.isTerminated && errorCode == t.errorCode
      && packetsMutex == t.mutex && initialized == t.initialized
    }

    /** The fields show the end of a legal run of the two threads. */
    ghost predicate Valid()
      reads this
    {
      Agrees(world) && Reaches(zc, log, world)
    }

    /** Valid, between calls, and the worker was not made to read dead memory. */
    ghost predicate Ready()
      reads this
    {
      Valid() && world.mpc.MIdle? && Defined(world)
    }

    constructor (zc: bool)
      ensures Valid() && world == Init(zc) && this.zc == zc
    {
      this.zc := zc;
      packetsList, isDone, isError, terminateThread := None, true, false, false;
      threadInitialized, isTerminatedThread, errorCode, packetsMutex := false, true, CpuAffinity, Free;
      initialized := false;
      world := Init(zc);
      log := [];
    }

    /** The assignments just executed are the step `a` of the main thread. */
    method Executed(a: MAction)
      requires Reaches(zc, log, world) && MEnabled(world, a) && Agrees(MStep(world, a))
      modifies this`world, this`log
      ensures Valid() && world == MStep(old(world), a) && log == old(log) + [M(a)]
    {
      hide MStep, MEnabled;
      LegalSnoc(Init(zc), log, M(a));
      world := MStep(world, a);
      log := log + [M(a)];
    }

    /** The fields take over a state that the worker has moved to. */
    method Load(t: State)
      requires zc == t.zc
      modifies this
      ensures Agrees(t) && world == t && log == old(log)
    {
      packetsList, isDone := t.packetsList, t.isDone;
      LoadFlags(t);
      packetsMutex, initialized := t.mutex, t.initialized;
      world := t;
    }

    method LoadFlags(t: State)
      modifies this`isError, this`terminateThread, this`threadInitialized, this`isTerminatedThread, this`errorCode
      ensures isError == t.isError && terminateThread == t.terminate
      ensures threadInitialized == t.threadInit && isTerminatedThread == t.isTerminated && errorCode == t.errorCode
    {
      isError, errorCode, terminateThread := t.isError, t.errorCode, t.terminate;
      threadInitialized, isTerminatedThread := t.threadInit, t.isTerminated;
    }

    /** The worker takes one step. */
    method WorkerMoves(c: WChoice)
      requires Valid() && WEnabled(world, c)
      modifies this
      ensures Valid() && world == WStep(old(world), c) && log == old(log) + [W(c)]
      ensures Meanwhile(old(world), world)
      ensures StartRank(old(world).wpc) > 0 ==> StartRank(world.wpc) < StartRank(old(world).wpc)
      ensures old(world).terminate ==> ShutdownRank(world) < ShutdownRank(old(world))
    {
      hide WStep, WEnabled, Meanwhile, MutexInv, LifeInv, ExitInv, WakeInv, HistoryInv, WireInv, FaithInv, ZcInv,
          ShutdownRank;
      LegalSnoc(Init(zc), log, W(c));
      ReachableInv(zc, log, world);
      MeanwhileStep(world, c);
      if world.terminate {
        ShutdownStep(world, c);
      }
      KeepsKind(world, WStep(world, c));
      Load(WStep(world, c));
      log := log + [W(c)];
    }

    /** The scheduler gives the worker one step, if it can move, with any result. */
    method WorkerMovesOnce()
      requires Valid() && CanMove(world)
      modifies this
      ensures Valid() && old(log) <= log && Meanwhile(old(world), world)
      ensures exists c :: WEnabled(old(world), c) && world == WStep(old(world), c)
      ensures StartRank(old(world).wpc) > 0 ==> StartRank(world.wpc) < StartRank(old(world).wpc)
      ensures old(world).terminate ==> ShutdownRank(world) < ShutdownRank(old(world))
    {
      hide WStep, Meanwhile, MutexInv, LifeInv, ExitInv, WakeInv, HistoryInv, WireInv, FaithInv, ZcInv, ShutdownRank;
      var c: WChoice := *;
      if !WEnabled(world, c) {
        c := SomeChoice(world);
        CanMoveEnabled(world);
      }
      hide WEnabled;
      WorkerMoves(c);
    }

    /** Between two statements of the main thread the worker takes any number of steps. */
    method Interfere()
      requires Valid()
      modifies this
      ensures Valid() && old(log) <= log && Meanwhile(old(world), world)
      ensures old(world).terminate ==> ShutdownRank(world) <= ShutdownRank(old(world))
    {
      hide WStep, WEnabled, MutexInv, LifeInv, ExitInv, WakeInv, HistoryInv, WireInv, FaithInv, ZcInv, ShutdownRank;
      var n: nat := *;
      while n > 0
        invariant Valid() && old(log) <= log && Meanwhile(old(world), world)
        invariant old(world).terminate ==> ShutdownRank(world) <= ShutdownRank(old(world))
      {
        var c: WChoice := *;
        if WEnabled(world, c) {
          WorkerMoves(c);
        }
        n := n - 1;
      }
    }

    // -------------------------------------------------------------- statements of the main thread

    /** While the worker holds the lock, the main thread is blocked and only the worker runs. */
    method AwaitLock()
      requires Valid() && (world.mpc.MSendChecked? || world.mpc.MEndTerm?) && Defined(world)
      modifies this
      ensures Valid() && old(log) <= log && Meanwhile(old(world), world) && packetsMutex == Free
    {
      hide Reaches, WStep, WEnabled, MutexInv, LifeInv, ExitInv, WakeInv, HistoryInv, WireInv, FaithInv, ZcInv,
          HoldRank, StartRank;
      while packetsMutex != Free
        invariant Valid() && old(log) <= log && Meanwhile(old(world), world)
        decreases packetsMutex != Free, HoldRank(world.wpc)
      {
        ReachableInv(zc, log, world);
        BlockedByWorker(world);
        HolderCanMove(world);
        ghost var before := world;
        WorkerMovesOnce();
        ghost var c :| WEnabled(before, c) && world == WStep(before, c);
        HolderMoves(before, c);
      }
    }

    /** prot_lock.lock_block() */
    method LockBlock()
      requires Valid() && (world.mpc.MSendChecked? || world.mpc.MEndTerm?) && Defined(world)
      modifies this
      ensures Valid() && old(log) <= log && Steady(old(world), world) && Rests(old(world), world)
      ensures world.terminate == old(world).terminate && world.initialized == old(world).initialized
      ensures old(world).mpc.MSendChecked? ==> world.mpc == MSendLocked(old(world).mpc.id)
      ensures old(world).mpc.MEndTerm? ==> world.mpc == MEndLocked
    {
      hide Reaches, StartRank;
      AwaitLock();
      packetsMutex := ByMain;
      Executed(Advance);
    }

    /** packets_list = list */
    method SetList(list: ListId)
      requires Valid() && world.mpc == MSendLocked(list)
      modifies this
      ensures Valid() && world == MStep(old(world), Advance) && old(log) <= log
    {
      hide Inv;
      packetsList := Some(list);
      Executed(Advance);
    }

    /** packets_list = NULL */
    method ClearList()
      requires Valid() && world.mpc.MEndLocked?
      modifies this
      ensures Valid() && world == MStep(old(world), Advance) && log == old(log) + [M(Advance)]
    {
      hide Inv;
      packetsList := None;
      Executed(Advance);
    }

    /** is_done = false */
    method LowerDone()
      requires Valid() && (world.mpc.MSendListed? || world.mpc.MEndCleared?)
      modifies this
      ensures Valid() && world == MStep(old(world), Advance) && old(log) <= log
    {
      hide Inv;
      isDone := false;
      Executed(Advance);
    }

    /** pthread_cond_signal */
    method SignalWorker()
      requires Valid() && (world.mpc.MSendLowered? || world.mpc.MEndLowered?)
      modifies this
      ensures Valid() && world == MStep(old(world), Advance) && old(log) <= log
    {
      hide Inv;
      Executed(Advance);
    }

    /** prot_lock.unlock() */
    method Unlock()
      requires Valid() && (world.mpc.MSendSignalled? || world.mpc.MEndSignalled?)
      modifies this
      ensures Valid() && world == MStep(old(world), Advance) && old(log) <= log
    {
      hide Inv;
      packetsMutex := Free;
      Executed(Advance);
    }

    // -------------------------------------------------------------- steps of `send`

    /** The worker is gone: `send` reads is_error and error_code, which can no longer change. */
    method DecodeError() returns (r: SendResult)
      requires Valid() && initialized && isTerminatedThread
      modifies this
      ensures Valid() && world == old(world) && old(log) <= log
      ensures r == WorkerError(errorCode) && isError && ErrorCode(zc, errorCode) && Caused(zc, log, errorCode)
    {
      hide Caused, Inv, Reaches, WStep, MStep, ShutdownRank, ErrorCode;
      ReachableInv(zc, log, world);
      GoneVerdict(world);
      Interfere();
      if !isError {
        return NoThread;
      }
      Interfere();
      r := WorkerError(errorCode);
      ErrorIffFailure(zc, log, world, errorCode);
    }

    /** `send` saw is_terminated_thread down. */
    method TestAlive(list: ListId)
      requires Valid() && world.mpc.MIdle? && initialized && !isTerminatedThread && list in world.heap
      modifies this
      ensures Valid() && world == old(world).(mpc := MSendAlive(list)) && log == old(log) + [M(BeginSend(list))]
    {
      hide Inv;
      Executed(BeginSend(list));
    }

    /** `send` reads is_done. */
    method TestDone(list: ListId) returns (done: bool)
      requires Valid() && world.mpc == MSendAlive(list)
      modifies this
      ensures Valid() && done == old(isDone) && log == old(log) + [M(Advance)]
      ensures world == old(world).(mpc := if done then MSendChecked(list) else MIdle)
    {
      hide Inv;
      done := isDone;
      Executed(Advance);
    }

    /** The worker is alive: `send` goes on to the is_done test. */
    method TestReady(list: ListId) returns (done: bool, ghost between: seq<Action>, ghost second: State)
      requires Valid() && world.mpc.MIdle? && initialized && !isTerminatedThread && list in world.heap
      modifies this
      ensures Valid() && old(log) <= log && Steady(old(world), world)
      ensures world.mpc == if done then MSendChecked(list) else MIdle
      ensures done == second.isDone && (old(isDone) ==> done)
      ensures old(log) + [M(BeginSend(list))] <= between && between + [M(Advance)] <= log
      ensures Reaches(zc, between, second) && second.mpc == MSendAlive(list)
      ensures initialized == old(initialized) && terminateThread == old(terminateThread)
      ensures Idle(old(world)) ==> done
    {
      hide Inv, Reaches, WStep, MStep, StartRank, ShutdownRank;
      TestAlive(list);
      Interfere();
      between, second := log, world;
      done := TestDone(list);
      Interfere();
    }

    /** Inside the lock: write the slot, lower is_done, signal. */
    method PostList(list: ListId)
      requires Valid() && world.mpc == MSendLocked(list) && list in world.heap
      modifies this
      ensures Valid() && world.mpc.MSendSignalled? && old(log) <= log
      ensures Grows(old(world), world) && world.posted == old(world).posted + [old(world).heap[list]]
      ensures initialized == old(initialized) && terminateThread == old(terminateThread)
    {
      hide Inv, Reaches, WStep, StartRank, ShutdownRank;
      SetList(list);
      Interfere();
      LowerDone();
      Interfere();
      SignalWorker();
    }

    method UnlockSend()
      requires Valid() && world.mpc.MSendSignalled?
      modifies this
      ensures Valid() && world == old(world).(mutex := Free, mpc := MIdle) && old(log) <= log
    {
      hide Inv;
      Unlock();
    }

    /** The critical section of `send`. */
    method Post(list: ListId)
      requires Valid() && world.mpc == MSendChecked(list) && list in world.heap && Defined(world)
      modifies this
      ensures Valid() && world.mpc.MIdle? && old(log) <= log
      ensures Grows(old(world), world) && world.posted == old(world).posted + [old(world).heap[list]]
      ensures initialized == old(initialized) && terminateThread == old(terminateThread)
    {
      hide Inv, Reaches, WStep, MStep, StartRank, ShutdownRank;
      LockBlock();
      Interfere();
      PostList(list);
      Interfere();
      UnlockSend();
    }

    // -------------------------------------------------------------- the Sender interface

    /**
     * The caller's list object must be alive. `asked` shows the states of the run in which `send`
     * reads is_terminated_thread and is_done: the two decide its result.
     */
    method Send(list: ListId) returns (r: SendResult, ghost asked: Asked)
      requires Valid() && world.mpc.MIdle? && list in world.heap && Defined(world)
      modifies this
      ensures Valid() && world.mpc.MIdle? && old(log) <= log
      ensures Grows(old(world), world)
      ensures initialized == old(initialized) && terminateThread == old(terminateThread)
      ensures old(initialized) ==> asked.During(zc, old(log), log, list)
      ensures r.Ongoing? ==> !old(isDone)
      ensures r.NotInitialized? <==> !old(initialized)
      ensures r.Accepted? <==> old(initialized) && asked.Accepts()
      ensures r.WorkerError? <==> old(initialized) && asked.alive.isTerminated
      ensures world.posted == old(world).posted + if r.Accepted? then [old(world).heap[list]] else []
      ensures r.WorkerError? ==> isTerminatedThread && isError && errorCode == r.code && ErrorCode(zc, r.code)
      ensures r.WorkerError? ==> Caused(zc, log, r.code)
      ensures r.NotInitialized? ==> world == old(world) && log == old(log)
      ensures !r.NoThread?
      ensures !r.Accepted? && old(isDone) ==> isDone
      ensures old(initialized && isTerminatedThread) ==> r.WorkerError?
      ensures old(initialized) && Idle(old(world)) ==> r.Accepted?
    {
      hide Caused, Inv, Reaches, WStep, MStep, StartRank, ShutdownRank, Idle;
      asked := Asked(log, world, log, world);
      if !initialized {
        return NotInitialized, asked;
      }
      ReachableInv(zc, log, world);
      IdleOrGone(world);
      Interfere();
      asked := Asked(log, world, log, world);
      ReachableInv(zc, log, world);
      IdleOrGone(world);
      if isTerminatedThread {
        r := DecodeError();
        return;
      }
      var done;
      ghost var between, second;
      done, between, second := TestReady(list);
      asked := Asked(asked.before, asked.alive, between, second);
      if !done {
        return Ongoing, asked;
      }
      Post(list);
      return Accepted, asked;
    }

    method IsSendDone() returns (done: bool)
      requires Valid()
      modifies this
      ensures Valid() && old(log) <= log && Meanwhile(old(world), world) && done == isDone
      ensures world.mpc == old(world).mpc && initialized == old(initialized)
    {
      hide Inv, Reaches, WStep, ShutdownRank;
      Interfere();
      done := isDone;
    }

    /** end_sender: initialized_ = false, then the is_terminated_thread test. */
    method BeginEnding() returns (alive: bool)
      requires Valid() && world.mpc.MIdle?
      modifies this
      ensures Valid() && log == old(log) + [M(BeginEnd)] && Steady(old(world), world) && !initialized
      ensures alive == !isTerminatedThread && world.mpc == if alive then MEndAlive else MIdle
      ensures world == old(world).(initialized := false, mpc := if alive then MEndAlive else MIdle)
      ensures isError == old(isError) && errorCode == old(errorCode) && alive == !old(isTerminatedThread)
    {
      hide Inv, Reaches;
      initialized := false;
      alive := !isTerminatedThread;
      Executed(BeginEnd);
    }

    /** The worker moves, and then `end_sender` looks whether it is alive: a verdict seen before stays. */
    method StartEnding() returns (alive: bool, ghost before: seq<Action>, ghost at: State)
      requires Valid() && world.mpc.MIdle? && Defined(world)
      modifies this
      ensures Valid() && old(log) <= log && Steady(old(world), world) && !initialized
      ensures alive == !isTerminatedThread && world.mpc == if alive then MEndAlive else MIdle
      ensures old(initialized && isTerminatedThread) ==>
                !alive && isError == old(isError) && errorCode == old(errorCode)
      ensures Rests(old(world), world) && (Idle(old(world)) ==> alive)
      ensures old(log) <= before && before + [M(BeginEnd)] == log && Reaches(zc, before, at) && at.mpc.MIdle?
      ensures alive == !at.isTerminated && world.taken == at.taken
    {
      hide Inv, Reaches, WStep, MStep, StartRank, ShutdownRank;
      ReachableInv(zc, log, world);
      if initialized {
        IdleOrGone(world);
      }
      Interfere();
      ReachableInv(zc, log, world);
      if Idle(world) {
        IdleIsUp(world);
      }
      before, at := log, world;
      alive := BeginEnding();
    }

    /** terminate_thread = true */
    method RaiseTerminate()
      requires Valid() && world.mpc.MEndAlive?
      modifies this
      ensures Valid() && world == old(world).(terminate := true, mpc := MEndTerm) && old(log) <= log
    {
      hide Inv;
      terminateThread := true;
      Executed(Advance);
    }

    /** Inside the lock: empty the slot, lower is_done, signal. */
    method EmptySlot()
      requires Valid() && world.mpc.MEndLocked?
      modifies this
      ensures Valid() && world.mpc.MEndSignalled? && Steady(old(world), world)
      ensures old(log) + [M(Advance)] <= log
      ensures initialized == old(initialized) && terminateThread == old(terminateThread)
      ensures Withdrawn(world) && world.taken == old(world).taken
      ensures !Busy(old(world).wpc) ==>
                AtRest(world) && world.wire == old(world).wire && world.calls == old(world).calls && !world.isDone
    {
      hide Inv, Reaches, WStep, StartRank, ShutdownRank;
      ReachableInv(zc, log, world);
      WithdrawalBegins(world);
      ClearList();
      hide MStep, AtRest, Withdrawn;
      LowerAndSignal();
    }

    /** Inside the lock, after the slot was emptied: lower is_done, signal. */
    method LowerAndSignal()
      requires Valid() && world.mpc.MEndCleared? && Withdrawn(world)
      modifies this
      ensures Valid() && world.mpc.MEndSignalled? && Steady(old(world), world) && old(log) <= log
      ensures initialized == old(initialized) && terminateThread == old(terminateThread)
      ensures Withdrawn(world) && world.taken == old(world).taken
      ensures AtRest(old(world)) ==>
                AtRest(world) && world.wire == old(world).wire && world.calls == old(world).calls && !world.isDone
    {
      hide Inv, Reaches, WStep, StartRank, ShutdownRank;
      Interfere();
      LowerDone();
      Interfere();
      SignalWorker();
    }

    method UnlockEnd()
      requires Valid() && world.mpc.MEndSignalled?
      modifies this
      ensures Valid() && world == old(world).(mutex := Free, mpc := MEndWait) && old(log) <= log
    {
      hide Inv;
      Unlock();
    }

    /** The critical section of `end_sender`: `cut` is where the slot was emptied. */
    method WithdrawList() returns (ghost cut: Cut)
      requires Valid() && world.mpc.MEndTerm? && terminateThread && Defined(world)
      modifies this
      ensures Valid() && world.mpc.MEndWait? && old(log) <= log
      ensures Steady(old(world), world) && terminateThread && initialized == old(initialized)
      ensures cut.cleared && cut.During(zc, old(log), log) && Withdrawn(world) && cut.Kept(world)
      ensures !Busy(cut.at.wpc) ==> AtRest(world)
      ensures AtRest(old(world)) ==> AtRest(cut.at) && SameWork(old(world), cut.at)
    {
      hide Inv, Reaches, WStep, MStep, StartRank, ShutdownRank;
      LockBlock();
      Interfere();
      cut := Cut(log, world, true);
      EmptySlot();
      Interfere();
      UnlockEnd();
    }

    /** while(!is_terminated_thread) sleep: the worker gets at least one step per poll. */
    method AwaitTermination()
      requires Valid() && world.mpc.MEndWait? && terminateThread && Defined(world)
      modifies this
      ensures Valid() && world.mpc.MIdle? && old(log) <= log
      ensures Steady(old(world), world) && isTerminatedThread && initialized == old(initialized)
      ensures StaysWithdrawn(old(world), world) && Rests(old(world), world)
    {
      hide Reaches, WStep, WEnabled, MutexInv, LifeInv, ExitInv, WakeInv, HistoryInv, WireInv, FaithInv, ZcInv,
          ShutdownRank, StartRank;
      ReachableInv(zc, log, world);
      RankIsNat(world);
      while !isTerminatedThread
        invariant Valid() && old(log) <= log && Meanwhile(old(world), world)
        invariant 0 <= ShutdownRank(world)
        decreases ShutdownRank(world)
      {
        ReachableInv(zc, log, world);
        ShutdownNeverStuck(world);
        WorkerMovesOnce();
        Interfere();
        ReachableInv(zc, log, world);
        RankIsNat(world);
      }
      EndWaiting();
    }

    method EndWaiting()
      requires Valid() && world.mpc.MEndWait? && isTerminatedThread
      modifies this
      ensures Valid() && world == old(world).(mpc := MIdle) && old(log) <= log
    {
      hide Inv;
      Executed(Advance);
    }

    /**
     * Stops the worker and waits for it. This terminates because a worker that has been told to
     * stop takes a bounded number of steps. Afterwards nothing reads the caller's list, and a list that
     * was not copied by the statement `cut` of the call was not sent.
     */
    method EndSender() returns (ghost cut: Cut)
      requires Valid() && world.mpc.MIdle? && Defined(world)
      modifies this
      ensures Valid() && world.mpc.MIdle? && old(log) <= log
      ensures Steady(old(world), world)
      ensures !initialized && isTerminatedThread && !MayCopy(world)
      ensures old(initialized && isTerminatedThread) ==> isError == old(isError) && errorCode == old(errorCode)
      ensures cut.During(zc, old(log), log) && cut.Kept(world)
      ensures Idle(old(world)) ==>
                !isDone && world.taken == old(world).taken && world.wire == old(world).wire
    {
      hide Inv, Reaches, WStep, MStep, StartRank, ShutdownRank;
      var alive;
      ghost var before, at;
      if Idle(world) {
        IdleRests(world);
      }
      hide AtRest, Idle, Withdrawn;
      alive, before, at := StartEnding();
      cut := Cut(before, at, false);
      if alive {
        ghost var start := log;
        cut := StopWorker();
        CutLonger(cut, zc, start, log, old(log));
      }
      ReachableInv(zc, log, world);
      GoneCannotCopy(world);
    }

    /** `end_sender` with a live worker. */
    method StopWorker() returns (ghost cut: Cut)
      requires Valid() && world.mpc.MEndAlive? && Defined(world)
      modifies this
      ensures Valid() && world.mpc.MIdle? && old(log) <= log
      ensures Steady(old(world), world) && isTerminatedThread && initialized == old(initialized)
      ensures cut.cleared && cut.During(zc, old(log), log) && cut.Kept(world)
      ensures AtRest(old(world)) ==> !isDone && world.taken == old(world).taken && world.wire == old(world).wire
    {
      hide Inv, Reaches, WStep, MStep, StartRank, ShutdownRank;
      Interfere();
      RaiseTerminate();
      Interfere();
      cut := WithdrawList();
      AwaitTermination();
    }

    /** initialize, after end_sender: the reset, and a thread if everything before it succeeded. */
    method ResetShared(spawned: bool)
      requires Valid() && world.mpc.MIdle? && !initialized && isTerminatedThread
      modifies this
      ensures Valid() && world == MStep(old(world), Reset(spawned)) && old(log) <= log
    {
      hide Inv, Reaches;
      packetsList, packetsMutex := None, Free;
      ResetFlags();
      Executed(Reset(spawned));
    }

    method ResetFlags()
      modifies this`isDone, this`isError, this`terminateThread, this`threadInitialized, this`errorCode
      ensures isDone && !isError && !terminateThread && !threadInitialized && errorCode == CpuAffinity
    {
      isDone, isError, terminateThread := true, false, false;
      threadInitialized, errorCode := false, CpuAffinity;
    }

    /** while(!thread_initialized) sleep: the worker gets at least one step per poll. */
    method AwaitWorker()
      requires Valid() && world.mpc.MInitWait? && Defined(world)
      modifies this
      ensures Valid() && world.mpc.MIdle? && old(log) <= log && initialized
      ensures Steady(old(world), world) && (old(isDone) ==> isDone)
    {
      hide Reaches, WStep, WEnabled, MutexInv, ExitInv, WakeInv, HistoryInv, WireInv, FaithInv, ZcInv, ShutdownRank,
          StartRank;
      while !threadInitialized
        invariant Valid() && old(log) <= log && Meanwhile(old(world), world)
        decreases StartRank(world.wpc)
      {
        ReachableInv(zc, log, world);
        StartingCanMove(world);
        WorkerMovesOnce();
        Interfere();
      }
      WorkerIsUp();
    }

    method WorkerIsUp()
      requires Valid() && world.mpc.MInitWait? && threadInitialized
      modifies this
      ensures Valid() && world == MStep(old(world), Advance) && old(log) <= log
    {
      hide Inv, Reaches;
      initialized := true;
      Executed(Advance);
    }

    /** `created`: the server, the client connection and the thread all came up. */
    method Initialize(created: bool) returns (ok: bool)
      requires Valid() && world.mpc.MIdle? && Defined(world)
      modifies this
      ensures Valid() && world.mpc.MIdle? && old(log) <= log
      ensures ok == created == initialized
      ensures world.posted == [] && Intact(world) && world.heap == old(world).heap
      ensures isDone && packetsList == None && !terminateThread
      ensures isError ==> Leaving(world.wpc)
      ensures !ok ==> isTerminatedThread
    {
      hide Inv, Reaches, WStep, StartRank, ShutdownRank;
      ghost var cut := EndSender();
      ResetShared(created);
      if !created {
        return false;
      }
      AwaitWorker();
      ReachableInv(zc, log, world);
      FreshIsDone(world);
      return true;
    }

    // -------------------------------------------------------------- the caller's list objects

    /** The client begins to assign to (or create) a list object. */
    method BeginAssign(id: ListId, l: PacketList)
      requires Valid() && world.mpc.MIdle?
      modifies this
      ensures Valid() && world == MStep(old(world), Write(id, l)) && old(log) <= log
    {
      hide Inv;
      Executed(Write(id, l));
    }

    /** The client's assignment ends. */
    method EndAssign()
      requires Valid() && world.mpc.MAssign?
      modifies this
      ensures Valid() && world == MStep(old(world), Advance) && old(log) <= log
    {
      hide Inv;
      Executed(Advance);
    }

    /**
     * The client assigns to (or creates) a list object, while the worker moves: `mid` is the state in
     * which the new contents are complete.
     */
    method Assign(id: ListId, l: PacketList) returns (ghost mid: State)
      requires Valid() && world.mpc.MIdle? && Defined(world)
      modifies this
      ensures Valid() && world.mpc.MIdle? && old(log) <= log
      ensures Meanwhile(MStep(old(world), Write(id, l)), mid) && mid.mpc == MAssign(id, l)
      ensures world == MStep(mid, Advance)
      ensures world.heap == old(world).heap[id := l] && world.posted == old(world).posted
      ensures old(world).overwritten ==> world.overwritten
      ensures !Pending(old(world), id) ==> world.torn == old(world).torn && world.overwritten == old(world).overwritten
      ensures world.freed == old(world).freed && initialized == old(initialized)
      ensures old(isDone) ==> isDone
      ensures Idle(old(world)) ==> Idle(world)
      ensures old(world).wpc.WGone? ==> world.wpc.WGone? && isTerminatedThread == old(isTerminatedThread)
    {
      hide Inv, Reaches, WStep, StartRank, ShutdownRank;
      BeginAssign(id, l);
      Interfere();
      mid := world;
      EndAssign();
    }

    /** The client destroys a list object. */
    method Discard(id: ListId)
      requires Valid() && world.mpc.MIdle? && id in world.heap
      modifies this
      ensures Valid() && world.mpc.MIdle? && old(log) <= log
      ensures world.heap == old(world).heap - {id}
      ensures SameSession(old(world), world) && world.overwritten == old(world).overwritten
      ensures world.torn == old(world).torn
      ensures world.freed == (old(world).freed || (MayCopy(old(world)) && old(world).packetsList == Some(id)))
      ensures initialized == old(initialized) && isDone == old(isDone) && packetsList == old(packetsList)
      ensures isTerminatedThread == old(isTerminatedThread) && isError == old(isError) && errorCode == old(errorCode)
    {
      hide Inv;
      Executed(Destroy(id));
    }
  }

  lemma IdleRests(s: State)
    requires Idle(s)
    ensures AtRest(s)
  {
  }

  lemma GoneCannotCopy(s: State)
    requires Inv(s) && s.mpc.MIdle? && s.isTerminated
    ensures !MayCopy(s)
  {
  }

  /** What is_terminated_thread tells about the worker of a ready sender. */
  lemma IdleOrGone(s: State)
    requires Inv(s) && s.initialized
    ensures Idle(s) ==> !s.isTerminated && s.isDone
    ensures s.isTerminated ==> s.wpc.WGone?
  {
  }

  /** The worker has not set up its socket yet, or failed to and is on its way out. */
  predicate SettingUp(s: State) {
    s.wpc.WSetup? || (Leaving(s.wpc) && !s.wpc.WGone? && !s.wpc.WFault?)
  }

  /**
   * What can become of a list given to a ready sender that says is_done: its worker waits for a list
   * (and `send` accepts), is gone (and `send` refuses), or is setting up (and either may happen).
   */
  lemma ReadyCases(zc: bool, log: seq<Action>, s: State)
    requires Reaches(zc, log, s) && s.mpc.MIdle? && Defined(s) && s.initialized && s.isDone
    ensures Idle(s) || s.isTerminated || SettingUp(s)
    ensures Idle(s) ==> !s.isTerminated && !SettingUp(s)
    ensures s.isTerminated ==> !SettingUp(s)
  {
    hide Reaches, WireInv, ZcInv, ExitInv;
    ReachableInv(zc, log, s);
  }

  predicate WorkerOnly(log: seq<Action>) {
    forall i :: 0 <= i < |log| ==> log[i].W?
  }

  lemma {:induction false} IdleStays(s: State, more: seq<Action>)
    requires Inv(s) && Idle(s) && Legal(s, more) && WorkerOnly(more)
    ensures Inv(After(s, more)) && Idle(After(s, more))
  {
    hide Inv, Idle, WStep, WEnabled;
    if more != [] {
      var n := |more| - 1;
      assert WorkerOnly(more[..n]) && more[n].W?;
      IdleStays(s, more[..n]);
      WorkerKeepsInv(After(s, more[..n]), more[n].c);
      IdleStep(After(s, more[..n]), more[n].c);
    }
  }

  /** Steps of a worker in set-up to its exit. */
  function ExitRank(w: WorkerPc): nat {
    match w
    case WSetup => 5
    case WExitFlag(_, _) => 4
    case WExitCode(_) => 3
    case WExitUnlock => 2
    case WExitPublish => 1
    case _ => 0
  }

  lemma SetupFails(s: State)
    requires s.wpc.WSetup?
    ensures WEnabled(s, Refuse(CpuAffinity))
    ensures var t := WStep(s, Refuse(CpuAffinity));
            t.isTerminated || (SettingUp(t) && ExitRank(t.wpc) < ExitRank(s.wpc))
  {
    hide KernelSend, Int32, NotificationCount, Range;
  }

  lemma VerdictStored(s: State)
    requires s.wpc.WExitFlag? || s.wpc.WExitCode?
    ensures WEnabled(s, Proceed)
    ensures var t := WStep(s, Proceed); t.isTerminated || (SettingUp(t) && ExitRank(t.wpc) < ExitRank(s.wpc))
  {
    hide KernelSend, Int32, NotificationCount, Range;
  }

  lemma ExitDone(s: State)
    requires s.wpc.WExitUnlock? || s.wpc.WExitPublish?
    ensures WEnabled(s, Proceed)
    ensures var t := WStep(s, Proceed); t.isTerminated || (SettingUp(t) && ExitRank(t.wpc) < ExitRank(s.wpc))
  {
    hide KernelSend, Int32, NotificationCount, Range;
  }

  lemma ExitStep(s: State, c: WChoice)
    requires SettingUp(s) && c == if s.wpc.WSetup? then Refuse(CpuAffinity) else Proceed
    ensures WEnabled(s, c)
    ensures WStep(s, c).isTerminated || (SettingUp(WStep(s, c)) && ExitRank(WStep(s, c).wpc) < ExitRank(s.wpc))
  {
    hide WStep, WEnabled, ExitRank;
    if s.wpc.WSetup? {
      SetupFails(s);
    } else if s.wpc.WExitFlag? || s.wpc.WExitCode? {
      VerdictStored(s);
    } else {
      ExitDone(s);
    }
  }

  /** A worker in set-up can fail and be gone, by its own steps alone. */
  lemma {:induction false} SetUpCanFail(s: State) returns (more: seq<Action>)
    requires SettingUp(s)
    ensures Legal(s, more) && WorkerOnly(more) && After(s, more).isTerminated
    decreases ExitRank(s.wpc)
  {
    hide SettingUp, WStep, WEnabled;
    var c := if s.wpc.WSetup? then Refuse(CpuAffinity) else Proceed;
    ExitStep(s, c);
    LegalSnoc(s, [], W(c));
    assert [] + [W(c)] == [W(c)];
    more := [W(c)];
    if !WStep(s, c).isTerminated {
      var rest := SetUpCanFail(WStep(s, c));
      LegalConcat(s, [W(c)], rest);
      more := more + rest;
    }
  }

  /**
   * Exactly when a list is sure to be accepted: in a ready sender between calls, both tests of `send`
   * pass wherever the worker has moved on its own, if and only if the worker is set up and waits for a
   * list. In every other state some run of the worker has `send` refuse the list.
   */
  lemma SendIsSureIff(zc: bool, log: seq<Action>, s: State)
    requires Reaches(zc, log, s) && s.mpc.MIdle? && Defined(s) && s.initialized
    ensures (forall more :: Legal(s, more) && WorkerOnly(more)
                            ==> !After(s, more).isTerminated && After(s, more).isDone)
            <==> Idle(s)
  {
    hide Reaches, Inv, Idle, SettingUp;
    ReachableInv(zc, log, s);
    if Idle(s) {
      forall more | Legal(s, more) && WorkerOnly(more)
        ensures !After(s, more).isTerminated && After(s, more).isDone
      {
        IdleStays(s, more);
        IdleIsUp(After(s, more));
      }
    } else if s.isDone && !s.isTerminated {
      ReadyCases(zc, log, s);
      var more := SetUpCanFail(s);
      assert After(s, more).isTerminated;
    } else {
      assert Legal(s, []) && WorkerOnly([]) && After(s, []) == s;
    }
  }

  lemma IdleIsUp(s: State)
    requires Inv(s) && Idle(s)
    ensures !s.isTerminated && s.isDone
  {
  }

  /** A ready sender whose worker is gone has a specific error to report. */
  lemma GoneVerdict(s: State)
    requires Inv(s) && s.initialized && s.isTerminated
    ensures s.wpc.WGone? && s.isError && ErrorCode(s.zc, s.errorCode)
  {
  }

  lemma StartingCanMove(s: State)
    requires Inv(s) && s.mpc.MInitWait? && !s.threadInit
    ensures CanMove(s) && StartRank(s.wpc) > 0
  {
  }

  lemma FreshIsDone(s: State)
    requires Inv(s) && s.initialized && s.posted == []
    ensures s.packetsList == None && !s.terminate && (s.isError ==> Leaving(s.wpc))
  {
  }

  lemma KeepsKind(s: State, t: State)
    requires Meanwhile(s, t)
    ensures t.zc == s.zc
  {
  }

  lemma BlockedByWorker(s: State)
    requires Inv(s) && (s.mpc.MSendChecked? || s.mpc.MEndTerm?) && !s.mutex.Free?
    ensures s.mutex.ByWorker?
  {
  }
}
