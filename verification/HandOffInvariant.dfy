/** The invariant of the hand-off, in eight parts, and its preservation by every step. */
module HandOffInvariant {
  import opened Packets
  import opened HandOff

  // ---------------------------------------------------------------- regions of the two programs

  predicate MainHolds(m: MainPc) {
    m.MSendLocked? || m.MSendListed? || m.MSendLowered? || m.MSendSignalled? ||
    m.MEndLocked? || m.MEndCleared? || m.MEndLowered? || m.MEndSignalled?
  }

  /** The main thread is in client code. */
  predicate InClient(m: MainPc) {
    m.MIdle? || m.MAssign?
  }

  predicate InSend(m: MainPc) {
    m.MSendAlive? || m.MSendChecked? || m.MSendLocked? || m.MSendListed? || m.MSendLowered? || m.MSendSignalled?
  }

  /** end_sender has raised terminate_thread. */
  predicate EndCommitted(m: MainPc) {
    m.MEndTerm? || m.MEndLocked? || m.MEndCleared? || m.MEndLowered? || m.MEndSignalled? || m.MEndWait?
  }

  /** The worker's MutexRAII is marked locked (before the lock, and across the wait, too). */
  predicate InLockScope(w: WorkerPc) {
    w.WLock? || w.WCheckList? || w.WCheckTerm? || w.WWait? || w.WAsleep? || w.WWoken? ||
    w.WCopy? || w.WCopying? || w.WClear? || w.WUnlock?
  }

  predicate HoldsLock(w: WorkerPc) {
    w.WCheckList? || w.WCheckTerm? || w.WWait? || w.WCopy? || w.WCopying? || w.WClear? || w.WUnlock?
  }

  /** Points where the flag of the MutexRAII, not the point, tells whether the lock is held. */
  predicate ByFlag(w: WorkerPc) {
    w.WExitFlag? || w.WExitCode? || w.WExitUnlock? || w.WFault?
  }

  /** The worker has copied a list and has not yet marked it done. */
  predicate Busy(w: WorkerPc) {
    w.WClear? || w.WUnlock? || w.WPacket? || w.WSend? || w.WSent? || w.WSentTerm? ||
    w.WNotifyTest? || w.WPoll? || w.WMarkDone?
  }

  /** All bytes of every list taken so far are out. */
  predicate Between(w: WorkerPc) {
    (!Busy(w) && !Leaving(w)) || w.WNotifyTest? || w.WPoll? || w.WMarkDone?
  }

  predicate NotYetUp(w: WorkerPc) {
    w.WNone? || w.WStart? || w.WStarted?
  }

  // ---------------------------------------------------------------- the parts

  predicate MutexInv(s: State) {
    && (s.mutex.ByMain? <==> MainHolds(s.mpc))
    && (s.mutex.ByWorker? <==> HoldsLock(s.wpc) || (ByFlag(s.wpc) && s.wlocked))
    && (!ByFlag(s.wpc) ==> (s.wlocked <==> InLockScope(s.wpc)))
  }

  predicate LifeInv(s: State) {
    && (s.isTerminated <==> s.wpc.WNone? || s.wpc.WStart? || s.wpc.WGone?)
    && (s.threadInit <==> !NotYetUp(s.wpc))
    && (s.wpc.WStart? || s.wpc.WStarted? ==> s.mpc.MInitWait?)
    && (s.mpc.MInitWait? ==> !s.wpc.WNone? && !s.initialized && !s.terminate)
    && (s.initialized ==> s.threadInit && !s.terminate && (InClient(s.mpc) || InSend(s.mpc)))
    && (InSend(s.mpc) ==> s.initialized)
    && (s.terminate ==> EndCommitted(s.mpc) || (InClient(s.mpc) && s.wpc.WGone?))
    && (EndCommitted(s.mpc) ==> s.terminate)
    && (EndCommitted(s.mpc) || s.mpc.MEndAlive? ==> s.threadInit)
    && (InClient(s.mpc) && !s.initialized ==> s.wpc.WNone? || s.wpc.WGone?)
  }

  predicate ErrorCode(zc: bool, c: Code) {
    c in {CpuAffinity, SocketTimeout, SocketBuffers, SendingError, NotSupported} ||
    (zc && c in {PollError, RecvError, NotificationError})
  }

  /** The worker has written is_error and error_code. */
  predicate VerdictStored(w: WorkerPc) {
    w.WExitUnlock? || w.WExitPublish? || w.WGone?
  }

  predicate ExitInv(s: State) {
    && (s.wpc.WExitFlag? ==> if s.wpc.flag then ErrorCode(s.zc, s.wpc.code) else s.terminate && s.wpc.code == NoError)
    && (s.wpc.WExitCode? ==> if s.isError then ErrorCode(s.zc, s.wpc.code) else s.terminate && s.wpc.code == NoError)
    && (s.wpc.WExitUnlock? || s.wpc.WExitPublish? || s.wpc.WGone? ==>
          if s.isError then ErrorCode(s.zc, s.errorCode) else s.terminate && s.errorCode == NoError)
    && (s.isError ==> s.wpc.WExitCode? || VerdictStored(s.wpc))
    && (!VerdictStored(s.wpc) ==> s.errorCode == CpuAffinity)
    && (!s.zc ==> !s.wpc.WNotifyTest? && !s.wpc.WPoll?)
  }

  predicate WakeInv(s: State) {
    && (s.wpc.WCheckTerm? || s.wpc.WWait? ==> s.packetsList.None?)
    && (s.wpc.WCopy? || s.wpc.WCopying? || s.wpc.WClear? ==> s.packetsList.Some?)
    && (s.wpc.WWait? && s.terminate ==> s.mpc.MEndTerm?)
    && (s.wpc.WAsleep? && s.packetsList.Some? ==> s.mpc.MSendListed? || s.mpc.MSendLowered?)
    && (s.wpc.WAsleep? && s.terminate ==>
          s.mpc.MEndTerm? || s.mpc.MEndLocked? || s.mpc.MEndCleared? || s.mpc.MEndLowered?)
  }

  predicate HistoryInv(s: State) {
    && |s.taken| <= |s.posted| <= |s.taken| + 1
    && (Untaken(s) ==> |s.posted| == |s.taken| + 1)
    && (Busy(s.wpc) ==>
          && !s.isDone && |s.posted| == |s.taken| > 0
          && s.copy == s.taken[|s.taken| - 1]
          && (s.packetsList.Some? ==> s.wpc.WClear?))
    && (s.isDone && !s.mpc.MSendListed? ==> s.packetsList.None? && |s.posted| == |s.taken|)
    && (s.mpc.MSendChecked? || s.mpc.MSendLocked? ==> s.isDone)
    && (s.mpc.MSendListed? ==> s.isDone && Untaken(s))
    && (NotYetUp(s.wpc) ==> s.posted == [])
  }

  /** What is on the wire before packet `i` of the list being sent. */
  function SentBefore(s: State): seq<Byte>
    requires |s.taken| > 0 && s.i <= |s.copy|
  {
    StreamBytes(s.taken[..|s.taken| - 1]) + ListBytes(s.copy[..s.i])
  }

  /** Packet `i` is being sent, and all but `left` of its bytes have gone out. */
  predicate InPacket(s: State, left: int) {
    && |s.taken| > 0 && s.i < |s.copy|
    && !s.copy[s.i].kind.Unknown?
    && 0 <= left <= s.remaining <= s.copy[s.i].size
    && s.cursor == s.copy[s.i].offset + s.copy[s.i].size -
         (if s.copy[s.i].kind.FileDescriptor? then left else s.remaining)
    && s.wire == SentBefore(s) + Slice(s.copy[s.i])[..s.copy[s.i].size - left]
  }

  predicate WireInv(s: State) {
    && (s.wpc.WClear? || s.wpc.WUnlock? ==> |s.taken| > 0 && s.wire == StreamBytes(s.taken[..|s.taken| - 1]))
    && (s.wpc.WPacket? ==> |s.taken| > 0 && s.i <= |s.copy| && s.wire == SentBefore(s))
    && (s.wpc.WSend? ==> InPacket(s, s.remaining))
    && (s.wpc.WSent? ==>
          && s.wpc.n <= s.remaining && s.remaining > 0
          && InPacket(s, if s.wpc.n < 0 then s.remaining else s.remaining - s.wpc.n))
    && (s.wpc.WSentTerm? ==> 0 <= s.wpc.n <= s.remaining && s.remaining > 0 && InPacket(s, s.remaining - s.wpc.n))
    && (Leaving(s.wpc) ==> s.wire <= StreamBytes(s.taken) && (s.isDone ==> s.wire == StreamBytes(s.taken)))
    && (Between(s.wpc) ==> s.wire == StreamBytes(s.taken))
  }

  predicate FaithInv(s: State) {
    && (Intact(s) ==>
          && s.taken <= s.posted
          && (MayCopy(s) ==> s.packetsList.value in s.heap && |s.posted| > 0
                             && s.heap[s.packetsList.value] == s.posted[|s.posted| - 1]))
    && (!s.freed && MayCopy(s) ==> s.packetsList.value in s.heap)
    && (s.wpc.WFault? ==> !Defined(s))
    && (s.torn ==> s.wpc.WCopying? || s.wpc.WFault?)
    && (s.mpc.MSendAlive? || s.mpc.MSendChecked? || s.mpc.MSendLocked? ==> s.mpc.id in s.heap)
  }

  predicate ZcInv(s: State) {
    && (forall k :: k in s.reported ==> k < s.issued)
    && (!s.zc ==> s.issued == 0 && s.lastCounter == s.sendingCounter)
    && (NotYetUp(s.wpc) || s.wpc.WSetup? ==> s.issued == 0 && s.reported == {})
    && (s.issued < TWO31 ==>
          && (!Leaving(s.wpc) ==>
                && s.lastCounter == |s.reported|
                && (!(s.wpc.WSent? && s.wpc.n < 0) ==> s.sendingCounter == s.issued))
          && ((!Busy(s.wpc) && !Leaving(s.wpc)) || s.wpc.WMarkDone? || s.isDone ==> |s.reported| == s.issued))
  }

  /** Who holds what, who is alive, and who can be asleep. */
  predicate Control(s: State) {
    MutexInv(s) && LifeInv(s) && ExitInv(s) && WakeInv(s)
  }

  /** What was accepted, taken, sent and released. */
  predicate Data(s: State) {
    HistoryInv(s) && WireInv(s) && FaithInv(s) && ZcInv(s)
  }

  predicate Inv(s: State) {
    Control(s) && Data(s)
  }

  // ---------------------------------------------------------------- sets of ids

  lemma RangeCard(lo: nat, hi: int)
    requires lo <= hi + 1
    ensures |Range(lo, hi)| == hi - lo + 1
    decreases hi - lo + 1
  {
    if lo <= hi {
      RangeCard(lo, hi - 1);
    }
  }

  lemma SubsetCard<T>(a: set<T>, b: set<T>)
    requires a <= b
    ensures |a| <= |b|
    ensures |a| == |b| ==> a == b
  {
    assert b == a + (b - a);
    assert |b| == |a| + |b - a|;
  }

  /** Reported ids are issued ids, so there are at most as many; as many means all of them. */
  lemma ReportedCard(reported: set<nat>, issued: nat)
    requires forall k :: k in reported ==> k < issued
    ensures |reported| <= issued
    ensures |reported| == issued ==> reported == Range(0, issued - 1)
  {
    RangeCard(0, issued - 1);
    SubsetCard(reported, Range(0, issued - 1));
  }

  /** A fresh range adds its size to the reported ids. */
  lemma ReportAdds(reported: set<nat>, lo: nat, hi: nat)
    requires lo <= hi && Range(lo, hi) !! reported
    ensures |reported + Range(lo, hi)| == |reported| + (hi - lo + 1)
  {
    RangeCard(lo, hi);
  }

  /** Below 2^31 the 32-bit arithmetic of the worker is exact. */
  lemma CountExact(lo: nat, hi: nat)
    requires lo <= hi < 0x7FFF_FFFF
    ensures NotificationCount(lo, hi) == hi - lo + 1
  {
  }

  lemma SmallInt32(x: nat)
    requires x < TWO31
    ensures Int32(x) == x
  {
  }

  // ---------------------------------------------------------------- bytes

  /** In the middle of a packet the wire is a prefix of what was taken. */
  lemma InPacketIsPrefix(s: State, left: int)
    requires Busy(s.wpc) && HistoryInv(s) && InPacket(s, left)
    ensures s.wire <= StreamBytes(s.taken)
  {
    var p := s.copy[s.i];
    assert Slice(p)[..p.size - left] <= Slice(p);
    ListBytesStep(s.copy, s.i);
    ListBytesPrefix(s.copy, s.i + 1);
    hide ListBytes, Slice, InBounds;
    PrefixUnder(StreamBytes(s.taken[..|s.taken| - 1]), ListBytes(s.copy[..s.i]), Slice(p)[..p.size - left], Slice(p),
                ListBytes(s.copy));
  }

  lemma PrefixUnder(sent: seq<Byte>, packets: seq<Byte>, part: seq<Byte>, slice: seq<Byte>, list: seq<Byte>)
    requires part <= slice && packets + slice <= list
    ensures sent + packets + part <= sent + list
  {
    assert packets + part <= packets + slice;
  }

  /** After the last packet everything taken is on the wire. */
  lemma LastPacketDone(s: State)
    requires Busy(s.wpc) && HistoryInv(s)
    requires s.i == |s.copy| && s.wire == SentBefore(s)
    ensures s.wire == StreamBytes(s.taken)
  {
    assert s.copy[..s.i] == s.copy;
  }

  /** Before an unsupported packet the wire is a prefix of what was taken. */
  lemma SentBeforeIsPrefix(s: State)
    requires Busy(s.wpc) && HistoryInv(s) && s.i <= |s.copy| && s.wire == SentBefore(s)
    ensures s.wire <= StreamBytes(s.taken)
  {
    ListBytesPrefix(s.copy, s.i);
  }

  // ---------------------------------------------------------------- frames of steps that move no data

  /** Nothing that Data speaks of changes, apart from the worker's point and locals. */
  predicate SameData(s: State, t: State) {
    && t.zc == s.zc && t.packetsList == s.packetsList && t.isDone == s.isDone
    && t.mpc == s.mpc && t.heap == s.heap
    && t.wire == s.wire && t.issued == s.issued && t.reported == s.reported
    && t.posted == s.posted && t.taken == s.taken
    && t.overwritten == s.overwritten && t.freed == s.freed && t.torn == s.torn
  }

  predicate Quiet(w: WorkerPc) {
    !Busy(w) && !Leaving(w)
  }

  lemma QuietKeepsData(s: State, t: State)
    requires Data(s) && SameData(s, t) && Quiet(s.wpc) && Quiet(t.wpc) && !s.wpc.WCopying?
    requires || (t.sendingCounter == s.sendingCounter && t.lastCounter == s.lastCounter)
             || (s.wpc.WSetup? && t.sendingCounter == 0 && t.lastCounter == 0)
    requires NotYetUp(t.wpc) || t.wpc.WSetup? ==> NotYetUp(s.wpc)
    ensures Data(t)
  {
  }

  lemma LeaveKeepsData(s: State, t: State)
    requires Data(s) && SameData(s, t) && Leaving(t.wpc) && !t.wpc.WFault?
    requires !s.wpc.WClear? && !s.wpc.WCopying? && !s.wpc.WFault?
    requires t.sendingCounter == s.sendingCounter && t.lastCounter == s.lastCounter
    requires s.wire <= StreamBytes(s.taken)
    ensures Data(t)
  {
  }

  lemma BusyKeepsRest(s: State, t: State)
    requires HistoryInv(s) && FaithInv(s) && ZcInv(s) && SameData(s, t) && t.copy == s.copy
    requires Busy(s.wpc) && Busy(t.wpc) && !s.wpc.WClear? && !t.wpc.WClear? && !t.wpc.WMarkDone?
    requires t.sendingCounter == s.sendingCounter && t.lastCounter == s.lastCounter
    requires s.wpc.WSent? ==> 0 <= s.wpc.n
    ensures HistoryInv(t) && FaithInv(t) && ZcInv(t)
  {
  }

  lemma SendingIsPrefix(s: State)
    requires HistoryInv(s) && WireInv(s) && (s.wpc.WSent? || s.wpc.WSentTerm?)
    ensures s.wire <= StreamBytes(s.taken) && s.i < |s.copy|
  {
    InPacketIsPrefix(s, if s.wpc.n < 0 then s.remaining else s.remaining - s.wpc.n);
  }

  lemma RestIsPrefix(s: State)
    requires Data(s) && (Quiet(s.wpc) || Leaving(s.wpc))
    ensures s.wire <= StreamBytes(s.taken)
  {
  }

  // ---------------------------------------------------------------- worker steps

  /** Steps before thread_initialized is up. */
  function StartRank(w: WorkerPc): nat {
    if w.WStart? then 2 else if w.WStarted? then 1 else 0
  }

  /** What a worker step leaves alone, and what it only extends. */
  predicate WorkerFrame(s: State, t: State) {
    && t.zc == s.zc && t.terminate == s.terminate && t.mpc == s.mpc && t.initialized == s.initialized
    && t.heap == s.heap && t.posted == s.posted && t.overwritten == s.overwritten && t.freed == s.freed
    && (s.isDone ==> t.isDone)
    && s.taken <= t.taken && (t.taken == s.taken || s.wpc.WCopying?)
    && (s.torn ==> t.torn) && (t.torn && !s.torn ==> s.wpc.WCopy? && Assigning(s))
    && s.wire <= t.wire
    && (t.wpc.WClear? ==> s.wpc.WCopying?) && (t.wpc.WCopying? ==> s.wpc.WCopy?)
    && (t.wpc.WCopy? ==> s.wpc.WCheckList?)
    && (t.packetsList == s.packetsList || s.wpc.WClear?)
    && (s.threadInit ==> t.threadInit)
    && (if StartRank(s.wpc) == 0 then StartRank(t.wpc) == 0 else StartRank(t.wpc) < StartRank(s.wpc))
    && (Leaving(s.wpc) ==> Leaving(t.wpc))
  }

  lemma WorkerStartsControl(s: State, c: WChoice)
    requires Control(s) && WEnabled(s, c)
    requires s.wpc.WStart? || s.wpc.WStarted?
    ensures Control(WStep(s, c)) && WorkerFrame(s, WStep(s, c))
  {
    hide Int32, NotificationCount, Range;
  }

  lemma WorkerSetsUpControl(s: State, c: WChoice)
    requires Control(s) && WEnabled(s, c)
    requires s.wpc.WSetup? || s.wpc.WLoopTest?
    ensures Control(WStep(s, c)) && WorkerFrame(s, WStep(s, c))
  {
    hide Int32, NotificationCount, Range;
  }

  lemma WorkerLocksControl(s: State, c: WChoice)
    requires Control(s) && WEnabled(s, c)
    requires s.wpc.WLock? || s.wpc.WCheckList? || s.wpc.WCheckTerm?
    ensures Control(WStep(s, c)) && WorkerFrame(s, WStep(s, c))
  {
    hide Int32, NotificationCount, Range;
  }

  /** pthread_cond_wait, as it sees the mutex. */
  lemma WaitEffect(s: State, c: WChoice)
    requires WEnabled(s, c) && (s.wpc.WWait? || s.wpc.WAsleep? || s.wpc.WWoken?)
    ensures WStep(s, c) == s.(mutex := if s.wpc.WWait? then Free else if s.wpc.WWoken? then ByWorker else s.mutex,
                              wpc := if s.wpc.WWait? then WAsleep else if s.wpc.WWoken? then WCheckList else WWoken)
    ensures s.wpc.WWoken? ==> s.mutex.Free?
  {
  }

  lemma WorkerWaitsControl(s: State, c: WChoice)
    requires Control(s) && WEnabled(s, c)
    requires s.wpc.WWait? || s.wpc.WAsleep? || s.wpc.WWoken?
    ensures Control(WStep(s, c)) && WorkerFrame(s, WStep(s, c))
  {
    WaitEffect(s, c);
    hide WStep, WEnabled;
  }

  lemma WorkerTakesControl(s: State, c: WChoice)
    requires Control(s) && WEnabled(s, c)
    requires s.wpc.WClear? || s.wpc.WUnlock?
    ensures Control(WStep(s, c)) && WorkerFrame(s, WStep(s, c))
  {
    hide Int32, NotificationCount, Range;
  }

  lemma WorkerCopiesControl(s: State, c: WChoice)
    requires Control(s) && WEnabled(s, c)
    requires s.wpc.WCopy? || s.wpc.WCopying?
    ensures Control(WStep(s, c)) && WorkerFrame(s, WStep(s, c))
  {
    hide Int32, NotificationCount, Range;
  }

  /** A system call moves nothing but the kernel's books, the cursor and the worker's point. */
  lemma KernelSendControl(s: State, n: int)
    ensures var t := KernelSend(s, n);
            && (t.wpc == WSent(n) || t.wpc.WFault?) && s.wire <= t.wire
            && t == s.(calls := t.calls, sendingCounter := t.sendingCounter, wire := t.wire, cursor := t.cursor,
                       issued := t.issued, wpc := t.wpc)
  {
    hide Int32;
  }

  lemma WorkerPacketControl(s: State, c: WChoice)
    requires Control(s) && WEnabled(s, c) && s.wpc.WPacket?
    ensures Control(WStep(s, c)) && WorkerFrame(s, WStep(s, c))
  {
    hide Int32, NotificationCount, Range, KernelSend;
  }

  lemma WorkerSendsControl(s: State, c: WChoice)
    requires Control(s) && WEnabled(s, c) && s.wpc.WSend?
    ensures Control(WStep(s, c)) && WorkerFrame(s, WStep(s, c))
  {
    SendEffect(s, c);
    hide WStep, WEnabled, KernelSend, Int32;
    if s.remaining != 0 {
      KernelSendControl(s, c.n);
    }
  }

  lemma SendEffect(s: State, c: WChoice)
    requires WEnabled(s, c) && s.wpc.WSend?
    ensures if s.remaining == 0 then WStep(s, c) == s.(i := s.i + 1, wpc := WPacket)
            else c.Returned? && WStep(s, c) == KernelSend(s, c.n)
  {
  }

  lemma WorkerSentControl(s: State, c: WChoice)
    requires Control(s) && WEnabled(s, c)
    requires s.wpc.WSent? || s.wpc.WSentTerm?
    ensures Control(WStep(s, c)) && WorkerFrame(s, WStep(s, c))
  {
    hide Int32, NotificationCount, Range;
  }

  lemma WorkerFinishesControl(s: State, c: WChoice)
    requires Control(s) && WEnabled(s, c)
    requires s.wpc.WNotifyTest? || s.wpc.WMarkDone?
    ensures Control(WStep(s, c)) && WorkerFrame(s, WStep(s, c))
  {
    hide Int32, NotificationCount, Range;
  }

  lemma WorkerPollsControl(s: State, c: WChoice)
    requires Control(s) && WEnabled(s, c)
    requires s.wpc.WPoll?
    ensures Control(WStep(s, c)) && WorkerFrame(s, WStep(s, c))
  {
  }

  lemma WorkerLeavesControl(s: State, c: WChoice)
    requires Control(s) && WEnabled(s, c)
    requires s.wpc.WExitFlag? || s.wpc.WExitCode?
    ensures Control(WStep(s, c)) && WorkerFrame(s, WStep(s, c))
  {
    hide Int32, NotificationCount, Range;
  }

  lemma WorkerGoesControl(s: State, c: WChoice)
    requires Control(s) && WEnabled(s, c)
    requires s.wpc.WExitUnlock? || s.wpc.WExitPublish?
    ensures Control(WStep(s, c)) && WorkerFrame(s, WStep(s, c))
  {
    hide Int32, NotificationCount, Range;
  }

  lemma WorkerStartsData(s: State, c: WChoice)
    requires Data(s) && WEnabled(s, c)
    requires s.wpc.WStart? || s.wpc.WStarted? || s.wpc.WSetup? || s.wpc.WLoopTest?
    ensures Data(WStep(s, c))
  {
    hide Data;
    var t := WStep(s, c);
    if Leaving(t.wpc) {
      RestIsPrefix(s);
      LeaveKeepsData(s, t);
    } else {
      QuietKeepsData(s, t);
    }
  }

  lemma WorkerLocksData(s: State, c: WChoice)
    requires Data(s) && WEnabled(s, c)
    requires s.wpc.WLock? || s.wpc.WCheckList? || s.wpc.WCheckTerm?
    ensures Data(WStep(s, c))
  {
    hide Data;
    var t := WStep(s, c);
    if Leaving(t.wpc) {
      RestIsPrefix(s);
      LeaveKeepsData(s, t);
    } else {
      QuietKeepsData(s, t);
    }
  }

  lemma WorkerWaitsData(s: State, c: WChoice)
    requires Data(s) && WEnabled(s, c)
    requires s.wpc.WWait? || s.wpc.WAsleep? || s.wpc.WWoken?
    ensures Data(WStep(s, c))
  {
    WaitEffect(s, c);
    hide Data, WStep, WEnabled;
    QuietKeepsData(s, WStep(s, c));
  }

  lemma WorkerLeavesData(s: State, c: WChoice)
    requires Data(s) && WEnabled(s, c)
    requires s.wpc.WExitFlag? || s.wpc.WExitCode? || s.wpc.WExitUnlock? || s.wpc.WExitPublish?
    ensures Data(WStep(s, c))
  {
    hide Data;
    RestIsPrefix(s);
    LeaveKeepsData(s, WStep(s, c));
  }

  lemma WorkerBeginsCopyData(s: State, c: WChoice)
    requires Data(s) && WEnabled(s, c) && s.wpc.WCopy?
    ensures Data(WStep(s, c))
  {
  }

  lemma WorkerCopiesWire(s: State, c: WChoice)
    requires WireInv(s) && WEnabled(s, c)
    requires s.wpc.WCopying? && !s.torn && s.packetsList.Some? && s.packetsList.value in s.heap
    ensures WireInv(WStep(s, c))
  {
    var t := WStep(s, c);
    assert t.taken[..|t.taken| - 1] == s.taken;
  }

  lemma WorkerCopiesHistory(s: State, c: WChoice)
    requires MutexInv(s) && WakeInv(s) && HistoryInv(s) && WEnabled(s, c)
    requires s.wpc.WCopying?
    ensures HistoryInv(WStep(s, c))
  {
  }

  lemma WorkerCopiesFaith(s: State, c: WChoice)
    requires WakeInv(s) && HistoryInv(s) && FaithInv(s) && ZcInv(s) && WEnabled(s, c)
    requires s.wpc.WCopying?
    ensures FaithInv(WStep(s, c)) && ZcInv(WStep(s, c))
  {
  }

  lemma WorkerFaultsWire(s: State, c: WChoice)
    requires HistoryInv(s) && WireInv(s) && WEnabled(s, c)
    requires s.wpc.WCopying? && (s.torn || s.packetsList.None? || s.packetsList.value !in s.heap)
    ensures WireInv(WStep(s, c))
  {
  }

  lemma WorkerTakesData(s: State, c: WChoice)
    requires Data(s) && WEnabled(s, c)
    requires s.wpc.WClear? || s.wpc.WUnlock?
    ensures Data(WStep(s, c))
  {
    assert s.copy[..0] == [];
  }

  lemma WorkerPacketData(s: State, c: WChoice)
    requires Data(s) && WEnabled(s, c)
    requires s.wpc.WPacket?
    ensures Data(WStep(s, c))
  {
    WorkerPacketRest(s, c);
    if s.i == |s.copy| {
      LastPacketDone(s);
    } else {
      SentBeforeIsPrefix(s);
      assert Slice(s.copy[s.i])[..0] == [];
    }
    hide HistoryInv, FaithInv, ZcInv;
  }

  lemma WorkerPacketRest(s: State, c: WChoice)
    requires HistoryInv(s) && WireInv(s) && FaithInv(s) && ZcInv(s) && WEnabled(s, c)
    requires s.wpc.WPacket?
    ensures HistoryInv(WStep(s, c)) && FaithInv(WStep(s, c)) && ZcInv(WStep(s, c))
  {
    hide SentBefore, StreamBytes, ListBytes, Slice;
  }

  lemma WorkerEndsPacketWire(s: State, c: WChoice)
    requires HistoryInv(s) && WireInv(s) && WEnabled(s, c)
    requires s.wpc.WSend? && s.remaining == 0
    ensures WireInv(WStep(s, c))
  {
    hide HistoryInv, ListBytes, StreamBytes;
    var p := s.copy[s.i];
    assert Slice(p)[..p.size] == Slice(p);
    ListBytesStep(s.copy, s.i);
  }

  lemma WorkerSendsWire(s: State, c: WChoice)
    requires WireInv(s) && WEnabled(s, c)
    requires s.wpc.WSend? && s.remaining != 0
    ensures WireInv(WStep(s, c))
  {
    hide InPacket, KernelSend, WireInv;
    SendIsInPacket(s);
    if c.n < 0 {
      KernelRefuses(s, c.n);
    } else {
      KernelTakes(s, c.n);
    }
    SendingWire(WStep(s, c));
  }

  lemma SendIsInPacket(s: State)
    requires WireInv(s) && s.wpc.WSend?
    ensures InPacket(s, s.remaining) && 0 <= s.remaining
  {
  }

  lemma SendingWire(t: State)
    requires t.wpc.WSent? && t.wpc.n <= t.remaining && t.remaining > 0
    requires InPacket(t, if t.wpc.n < 0 then t.remaining else t.remaining - t.wpc.n)
    ensures WireInv(t)
  {
    hide InPacket, StreamBytes;
  }

  lemma KernelRefuses(s: State, n: int)
    requires InPacket(s, s.remaining) && n < 0
    ensures KernelSend(s, n).wpc == WSent(n) && KernelSend(s, n).remaining == s.remaining
    ensures InPacket(KernelSend(s, n), s.remaining)
  {
    hide StreamBytes, ListBytes, Slice;
  }

  lemma SentBeforeKept(s: State, t: State)
    requires t.taken == s.taken && t.copy == s.copy && t.i == s.i
    requires |s.taken| > 0 && s.i <= |s.copy|
    ensures SentBefore(t) == SentBefore(s)
  {
  }

  lemma KernelTakes(s: State, n: nat)
    requires InPacket(s, s.remaining) && n <= s.remaining
    ensures KernelSend(s, n).wpc == WSent(n) && KernelSend(s, n).remaining == s.remaining
    ensures InPacket(KernelSend(s, n), s.remaining - n)
  {
    hide StreamBytes, ListBytes, Slice, Int32, SentBefore;
    var p := s.copy[s.i];
    assert InBounds(p);
    SentBeforeKept(s, KernelSend(s, n));
    SliceExtends(p, p.size - s.remaining, n);
  }

  lemma WorkerSendsRest(s: State, c: WChoice)
    requires HistoryInv(s) && WireInv(s) && FaithInv(s) && ZcInv(s) && WEnabled(s, c)
    requires s.wpc.WSend?
    ensures HistoryInv(WStep(s, c)) && FaithInv(WStep(s, c)) && ZcInv(WStep(s, c))
  {
    hide SentBefore, StreamBytes, ListBytes, Slice;
  }

  lemma WorkerSentWire(s: State, c: WChoice)
    requires HistoryInv(s) && WireInv(s) && WEnabled(s, c)
    requires s.wpc.WSent?
    ensures WireInv(WStep(s, c))
  {
    SendingIsPrefix(s);
    hide HistoryInv, ListBytes, StreamBytes, Slice;
  }

  /** The termination test after a system call, and the update of data_sent and remaining_data. */
  lemma UpdateEffect(s: State, c: WChoice)
    requires WEnabled(s, c) && s.wpc.WSentTerm? && s.i < |s.copy|
    ensures WStep(s, c) ==
            s.(cursor := if !s.terminate && s.copy[s.i].kind.MemoryLocation? then s.cursor + s.wpc.n else s.cursor,
               remaining := if s.terminate then s.remaining else s.remaining - s.wpc.n,
               wpc := if s.terminate then WExitFlag(false, NoError) else WSend)
  {
  }

  lemma WorkerUpdatesWire(s: State, c: WChoice)
    requires HistoryInv(s) && WireInv(s) && WEnabled(s, c)
    requires s.wpc.WSentTerm?
    ensures WireInv(WStep(s, c))
  {
    SendingIsPrefix(s);
    UpdateEffect(s, c);
    hide HistoryInv, ListBytes, StreamBytes, Slice, WStep, WEnabled;
  }

  lemma WorkerSentRest(s: State, c: WChoice)
    requires Data(s) && WEnabled(s, c) && s.wpc.WSent?
    ensures HistoryInv(WStep(s, c)) && FaithInv(WStep(s, c)) && ZcInv(WStep(s, c))
  {
    hide HistoryInv, FaithInv, ZcInv, WireInv;
    var t := WStep(s, c);
    if s.wpc.n < 0 {
      SendingIsPrefix(s);
      LeaveKeepsData(s, t);
    } else {
      BusyKeepsRest(s, t);
    }
  }

  lemma WorkerUpdatesRest(s: State, c: WChoice)
    requires Data(s) && WEnabled(s, c) && s.wpc.WSentTerm?
    ensures HistoryInv(WStep(s, c)) && FaithInv(WStep(s, c)) && ZcInv(WStep(s, c))
  {
    hide HistoryInv, FaithInv, ZcInv, WireInv;
    var t := WStep(s, c);
    SendingIsPrefix(s);
    if s.terminate {
      LeaveKeepsData(s, t);
    } else {
      BusyKeepsRest(s, t);
    }
  }

  lemma WorkerFinishesData(s: State, c: WChoice)
    requires Data(s) && WEnabled(s, c)
    requires s.wpc.WNotifyTest? || s.wpc.WMarkDone?
    ensures Data(WStep(s, c))
  {
    ReportedCard(s.reported, s.issued);
  }

  lemma WorkerPollsHistory(s: State, c: WChoice)
    requires ExitInv(s) && HistoryInv(s) && WireInv(s) && FaithInv(s) && WEnabled(s, c)
    requires s.wpc.WPoll?
    ensures HistoryInv(WStep(s, c)) && WireInv(WStep(s, c)) && FaithInv(WStep(s, c))
  {
    hide StreamBytes;
  }

  lemma WorkerPollsZc(s: State, c: WChoice)
    requires ExitInv(s) && HistoryInv(s) && ZcInv(s) && WEnabled(s, c)
    requires s.wpc.WPoll?
    ensures ZcInv(WStep(s, c))
  {
    if c.Report? {
      ReportEffect(s, c);
      ReportKeepsZc(s, c, WStep(s, c));
    } else {
      hide NotificationCount, Int32;
    }
  }

  lemma RangeBelow(lo: nat, hi: nat, n: nat)
    requires hi < n
    ensures forall k :: k in Range(lo, hi) ==> k < n
  {
  }

  /** A notification adds its ids to the reported ones and its count to the counter. */
  lemma ReportEffect(s: State, c: WChoice)
    requires s.wpc.WPoll? && WEnabled(s, c) && c.Report?
    ensures var t, ret := WStep(s, c), NotificationCount(c.lo, c.hi);
            && t.zc == s.zc && t.issued == s.issued && t.sendingCounter == s.sendingCounter && t.isDone == s.isDone
            && t.reported == s.reported + Range(c.lo, c.hi)
            && if ret < 1 then t.lastCounter == s.lastCounter && t.wpc.WExitFlag?
               else t.lastCounter == Int32(s.lastCounter + ret) && t.wpc.WNotifyTest?
  {
    hide NotificationCount, Int32, Range;
  }

  lemma ReportKeepsZc(s: State, c: WChoice, t: State)
    requires s.zc && !s.isDone && ZcInv(s) && s.wpc.WPoll? && WEnabled(s, c) && c.Report?
    requires t.zc == s.zc && t.issued == s.issued && t.sendingCounter == s.sendingCounter && t.isDone == s.isDone
    requires t.reported == s.reported + Range(c.lo, c.hi)
    requires var ret := NotificationCount(c.lo, c.hi);
             if ret < 1 then t.lastCounter == s.lastCounter && t.wpc.WExitFlag?
             else t.lastCounter == Int32(s.lastCounter + ret) && t.wpc.WNotifyTest?
    ensures ZcInv(t)
  {
    RangeBelow(c.lo, c.hi, s.issued);
    hide NotificationCount, Int32, Range, WEnabled;
    if s.issued < TWO31 {
      ReportCounted(s, c);
      ReportedCard(s.reported + Range(c.lo, c.hi), s.issued);
    }
  }

  /** Below 2^31 the counter advances by exactly the ids reported. */
  lemma ReportCounted(s: State, c: WChoice)
    requires ZcInv(s) && s.wpc.WPoll? && WEnabled(s, c) && c.Report? && s.issued < TWO31
    ensures |s.reported + Range(c.lo, c.hi)| == |s.reported| + (c.hi - c.lo + 1)
    ensures NotificationCount(c.lo, c.hi) == c.hi - c.lo + 1
    ensures Int32(s.lastCounter + NotificationCount(c.lo, c.hi)) == |s.reported + Range(c.lo, c.hi)|
    ensures forall k :: k in s.reported + Range(c.lo, c.hi) ==> k < s.issued
  {
    ReportAdds(s.reported, c.lo, c.hi);
    ReportedCard(s.reported + Range(c.lo, c.hi), s.issued);
    CountExact(c.lo, c.hi);
    SmallInt32(s.lastCounter + (c.hi - c.lo + 1));
  }

  lemma WorkerKeepsInv(s: State, c: WChoice)
    requires Inv(s) && WEnabled(s, c)
    ensures Inv(WStep(s, c)) && WorkerFrame(s, WStep(s, c))
  {
    hide MutexInv, LifeInv, ExitInv, WakeInv, HistoryInv, WireInv, FaithInv, ZcInv, WStep, WorkerFrame;
    match s.wpc
    case WStart => WorkerStartsControl(s, c); WorkerStartsData(s, c);
    case WStarted => WorkerStartsControl(s, c); WorkerStartsData(s, c);
    case WSetup => WorkerSetsUpControl(s, c); WorkerStartsData(s, c);
    case WLoopTest => WorkerSetsUpControl(s, c); WorkerStartsData(s, c);
    case WLock => WorkerLocksControl(s, c); WorkerLocksData(s, c);
    case WCheckList => WorkerLocksControl(s, c); WorkerLocksData(s, c);
    case WCheckTerm => WorkerLocksControl(s, c); WorkerLocksData(s, c);
    case WWait => WorkerWaitsControl(s, c); WorkerWaitsData(s, c);
    case WAsleep => WorkerWaitsControl(s, c); WorkerWaitsData(s, c);
    case WWoken => WorkerWaitsControl(s, c); WorkerWaitsData(s, c);
    case WCopy => WorkerCopiesControl(s, c); WorkerBeginsCopyData(s, c);
    case WCopying =>
      WorkerCopiesControl(s, c);
      WorkerCopiesHistory(s, c);
      WorkerCopiesFaith(s, c);
      if !s.torn && s.packetsList.Some? && s.packetsList.value in s.heap {
        WorkerCopiesWire(s, c);
      } else {
        WorkerFaultsWire(s, c);
      }
    case WClear => WorkerTakesControl(s, c); WorkerTakesData(s, c);
    case WUnlock => WorkerTakesControl(s, c); WorkerTakesData(s, c);
    case WPacket => WorkerPacketControl(s, c); WorkerPacketData(s, c);
    case WSend =>
      WorkerSendsControl(s, c);
      WorkerSendsRest(s, c);
      if s.remaining == 0 {
        WorkerEndsPacketWire(s, c);
      } else {
        WorkerSendsWire(s, c);
      }
    case WSent(_) => WorkerSentControl(s, c); WorkerSentWire(s, c); WorkerSentRest(s, c);
    case WSentTerm(_) => WorkerSentControl(s, c); WorkerUpdatesWire(s, c); WorkerUpdatesRest(s, c);
    case WNotifyTest => WorkerFinishesControl(s, c); WorkerFinishesData(s, c);
    case WPoll => WorkerPollsControl(s, c); WorkerPollsHistory(s, c); WorkerPollsZc(s, c);
    case WMarkDone => WorkerFinishesControl(s, c); WorkerFinishesData(s, c);
    case WExitFlag(_, _) => WorkerLeavesControl(s, c); WorkerLeavesData(s, c);
    case WExitCode(_) => WorkerLeavesControl(s, c); WorkerLeavesData(s, c);
    case WExitUnlock => WorkerGoesControl(s, c); WorkerLeavesData(s, c);
    case WExitPublish => WorkerGoesControl(s, c); WorkerLeavesData(s, c);
  }

  // ---------------------------------------------------------------- main steps

  /** Main steps other than a reset leave the worker's data and the kernel alone. */
  predicate MainFrame(s: State, t: State) {
    && t.zc == s.zc && t.taken == s.taken && t.copy == s.copy && t.i == s.i
    && t.cursor == s.cursor && t.remaining == s.remaining && t.wire == s.wire
    && t.calls == s.calls && t.issued == s.issued && t.reported == s.reported
    && t.sendingCounter == s.sendingCounter && t.lastCounter == s.lastCounter
    && t.isError == s.isError && t.errorCode == s.errorCode
    && t.threadInit == s.threadInit && t.isTerminated == s.isTerminated && t.wlocked == s.wlocked
    && (t.isDone ==> s.isDone)
    && (t.mpc.MInitWait? ==> s.mpc.MInitWait?)
    && (t.heap == s.heap || InClient(s.mpc))
    && (t.torn == s.torn || s.mpc.MIdle?)
    && (t.packetsList == s.packetsList || t.packetsList.None? || s.mpc.MSendLocked?)
    && (t.terminate == s.terminate || s.mpc.MEndAlive?)
    && (t.wpc == s.wpc || (s.wpc.WAsleep? && t.wpc.WWoken?))
  }

  lemma MainFrameKeepsWireAndZc(s: State, t: State)
    requires WireInv(s) && ZcInv(s) && MainFrame(s, t)
    ensures WireInv(t) && ZcInv(t)
  {
    hide StreamBytes, ListBytes, Slice;
  }

  lemma ClientWritesControl(s: State, a: MAction)
    requires Control(s) && MEnabled(s, a) && s.mpc.MIdle? && (a.Write? || a.Destroy?)
    ensures Control(MStep(s, a)) && MainFrame(s, MStep(s, a))
  {
  }

  lemma ClientCallsControl(s: State, a: MAction)
    requires Control(s) && MEnabled(s, a) && s.mpc.MIdle? && (a.BeginSend? || a.BeginEnd?)
    ensures Control(MStep(s, a)) && MainFrame(s, MStep(s, a))
  {
  }

  lemma ClientActsHistory(s: State, a: MAction)
    requires HistoryInv(s) && FaithInv(s) && MEnabled(s, a) && s.mpc.MIdle? && !a.Reset?
    ensures HistoryInv(MStep(s, a)) && FaithInv(MStep(s, a))
  {
    hide HistoryInv, FaithInv, MStep, MEnabled;
    if a.BeginSend? || a.BeginEnd? {
      ClientCalls(s, a);
    } else {
      ClientOwns(s, a);
    }
  }

  lemma ClientCalls(s: State, a: MAction)
    requires HistoryInv(s) && FaithInv(s) && MEnabled(s, a) && s.mpc.MIdle? && (a.BeginSend? || a.BeginEnd?)
    ensures HistoryInv(MStep(s, a)) && FaithInv(MStep(s, a))
  {
  }

  lemma ClientOwns(s: State, a: MAction)
    requires HistoryInv(s) && FaithInv(s) && MEnabled(s, a) && s.mpc.MIdle?
    requires !a.BeginSend? && !a.BeginEnd? && !a.Reset?
    ensures HistoryInv(MStep(s, a)) && FaithInv(MStep(s, a))
  {
  }

  lemma ClientActs(s: State, a: MAction)
    requires Control(s) && HistoryInv(s) && FaithInv(s) && MEnabled(s, a) && s.mpc.MIdle? && !a.Reset?
    ensures Control(MStep(s, a)) && HistoryInv(MStep(s, a)) && FaithInv(MStep(s, a))
    ensures MainFrame(s, MStep(s, a))
  {
    hide Control, HistoryInv, FaithInv, MainFrame, MStep;
    if a.Write? || a.Destroy? {
      ClientWritesControl(s, a);
    } else {
      ClientCallsControl(s, a);
    }
    ClientActsHistory(s, a);
  }

  lemma ClientAssigns(s: State, a: MAction)
    requires Control(s) && HistoryInv(s) && FaithInv(s) && MEnabled(s, a) && s.mpc.MAssign?
    ensures Control(MStep(s, a)) && HistoryInv(MStep(s, a)) && FaithInv(MStep(s, a))
    ensures MainFrame(s, MStep(s, a))
  {
  }

  lemma FreshControl(s: State, spawned: bool)
    ensures Control(ResetState(s, spawned))
  {
  }

  lemma FreshData(s: State, spawned: bool)
    ensures Data(ResetState(s, spawned))
  {
  }

  lemma SessionStarts(s: State, spawned: bool)
    requires MEnabled(s, Reset(spawned)) && s.mpc.MIdle?
    ensures Inv(MStep(s, Reset(spawned)))
  {
    hide Control, Data, ResetState;
    FreshControl(s, spawned);
    FreshData(s, spawned);
  }

  lemma SendChecks(s: State, a: MAction)
    requires Control(s) && HistoryInv(s) && FaithInv(s) && MEnabled(s, a)
    requires s.mpc.MSendAlive? || s.mpc.MSendChecked?
    ensures Control(MStep(s, a)) && HistoryInv(MStep(s, a)) && FaithInv(MStep(s, a))
    ensures MainFrame(s, MStep(s, a))
  {
  }

  lemma SendPosts(s: State, a: MAction)
    requires Control(s) && HistoryInv(s) && FaithInv(s) && MEnabled(s, a)
    requires s.mpc.MSendLocked?
    ensures Control(MStep(s, a)) && HistoryInv(MStep(s, a)) && FaithInv(MStep(s, a))
    ensures MainFrame(s, MStep(s, a))
  {
  }

  lemma SendLowers(s: State, a: MAction)
    requires Control(s) && HistoryInv(s) && FaithInv(s) && MEnabled(s, a)
    requires s.mpc.MSendListed?
    ensures Control(MStep(s, a)) && HistoryInv(MStep(s, a)) && FaithInv(MStep(s, a))
    ensures MainFrame(s, MStep(s, a))
  {
  }

  lemma SendSignals(s: State, a: MAction)
    requires Control(s) && HistoryInv(s) && FaithInv(s) && MEnabled(s, a)
    requires s.mpc.MSendLowered?
    ensures Control(MStep(s, a)) && HistoryInv(MStep(s, a)) && FaithInv(MStep(s, a))
    ensures MainFrame(s, MStep(s, a))
  {
  }

  lemma SendUnlocks(s: State, a: MAction)
    requires Control(s) && HistoryInv(s) && FaithInv(s) && MEnabled(s, a)
    requires s.mpc.MSendSignalled?
    ensures Control(MStep(s, a)) && HistoryInv(MStep(s, a)) && FaithInv(MStep(s, a))
    ensures MainFrame(s, MStep(s, a))
  {
  }

  lemma EndRaises(s: State, a: MAction)
    requires Control(s) && HistoryInv(s) && FaithInv(s) && MEnabled(s, a)
    requires s.mpc.MEndAlive?
    ensures Control(MStep(s, a)) && HistoryInv(MStep(s, a)) && FaithInv(MStep(s, a))
    ensures MainFrame(s, MStep(s, a))
  {
  }

  lemma EndLocks(s: State, a: MAction)
    requires Control(s) && HistoryInv(s) && FaithInv(s) && MEnabled(s, a)
    requires s.mpc.MEndTerm?
    ensures Control(MStep(s, a)) && HistoryInv(MStep(s, a)) && FaithInv(MStep(s, a))
    ensures MainFrame(s, MStep(s, a))
  {
  }

  lemma EndClears(s: State, a: MAction)
    requires Control(s) && HistoryInv(s) && FaithInv(s) && MEnabled(s, a)
    requires s.mpc.MEndLocked? || s.mpc.MEndCleared?
    ensures Control(MStep(s, a)) && HistoryInv(MStep(s, a)) && FaithInv(MStep(s, a))
    ensures MainFrame(s, MStep(s, a))
  {
  }

  lemma EndSignals(s: State, a: MAction)
    requires Control(s) && HistoryInv(s) && FaithInv(s) && MEnabled(s, a)
    requires s.mpc.MEndLowered?
    ensures Control(MStep(s, a)) && HistoryInv(MStep(s, a)) && FaithInv(MStep(s, a))
    ensures MainFrame(s, MStep(s, a))
  {
  }

  lemma EndUnlocks(s: State, a: MAction)
    requires Control(s) && HistoryInv(s) && FaithInv(s) && MEnabled(s, a)
    requires s.mpc.MEndSignalled?
    ensures Control(MStep(s, a)) && HistoryInv(MStep(s, a)) && FaithInv(MStep(s, a))
    ensures MainFrame(s, MStep(s, a))
  {
  }

  lemma EndPolls(s: State, a: MAction)
    requires Control(s) && HistoryInv(s) && FaithInv(s) && MEnabled(s, a)
    requires s.mpc.MEndWait?
    ensures Control(MStep(s, a)) && HistoryInv(MStep(s, a)) && FaithInv(MStep(s, a))
    ensures MainFrame(s, MStep(s, a))
  {
  }

  lemma InitPolls(s: State, a: MAction)
    requires Control(s) && HistoryInv(s) && FaithInv(s) && MEnabled(s, a)
    requires s.mpc.MInitWait?
    ensures Control(MStep(s, a)) && HistoryInv(MStep(s, a)) && FaithInv(MStep(s, a))
    ensures MainFrame(s, MStep(s, a))
  {
  }

  lemma MainKeepsInv(s: State, a: MAction)
    requires Inv(s) && MEnabled(s, a)
    ensures Inv(MStep(s, a))
  {
    hide Control, HistoryInv, WireInv, FaithInv, ZcInv, MStep, MainFrame;
    if s.mpc.MIdle? && a.Reset? {
      SessionStarts(s, a.spawned);
    } else {
      match s.mpc {
      case MIdle => ClientActs(s, a);
      case MAssign(_, _) => ClientAssigns(s, a);
      case MSendAlive(_) => SendChecks(s, a);
      case MSendChecked(_) => SendChecks(s, a);
      case MSendLocked(_) => SendPosts(s, a);
      case MSendListed => SendLowers(s, a);
      case MSendLowered => SendSignals(s, a);
      case MSendSignalled => SendUnlocks(s, a);
      case MEndAlive => EndRaises(s, a);
      case MEndTerm => EndLocks(s, a);
      case MEndLocked => EndClears(s, a);
      case MEndCleared => EndClears(s, a);
      case MEndLowered => EndSignals(s, a);
      case MEndSignalled => EndUnlocks(s, a);
      case MEndWait => EndPolls(s, a);
      case MInitWait => InitPolls(s, a);
      }
      MainFrameKeepsWireAndZc(s, MStep(s, a));
    }
  }

  /** Every main step other than a reset is framed. */
  lemma MainStepFrame(s: State, a: MAction)
    requires Control(s) && HistoryInv(s) && FaithInv(s) && MEnabled(s, a) && !(s.mpc.MIdle? && a.Reset?)
    ensures MainFrame(s, MStep(s, a))
  {
    hide MutexInv, LifeInv, ExitInv, WakeInv, HistoryInv, FaithInv, MStep, MainFrame;
    match s.mpc
    case MIdle => ClientActs(s, a);
    case MAssign(_, _) => ClientAssigns(s, a);
    case MSendAlive(_) => SendChecks(s, a);
    case MSendChecked(_) => SendChecks(s, a);
    case MSendLocked(_) => SendPosts(s, a);
    case MSendListed => SendLowers(s, a);
    case MSendLowered => SendSignals(s, a);
    case MSendSignalled => SendUnlocks(s, a);
    case MEndAlive => EndRaises(s, a);
    case MEndTerm => EndLocks(s, a);
    case MEndLocked => EndClears(s, a);
    case MEndCleared => EndClears(s, a);
    case MEndLowered => EndSignals(s, a);
    case MEndSignalled => EndUnlocks(s, a);
    case MEndWait => EndPolls(s, a);
    case MInitWait => InitPolls(s, a);
  }

  lemma StepKeepsInv(s: State, a: Action)
    requires Inv(s) && Enabled(s, a)
    ensures Inv(Step(s, a))
  {
    hide Inv, WStep, MStep, WEnabled, MEnabled;
    match a
    case W(c) => WorkerKeepsInv(s, c);
    case M(m) => MainKeepsInv(s, m);
  }

  lemma InitInv(zc: bool)
    ensures Inv(Init(zc))
  {
  }

  /** Every state of every run satisfies the invariant. */
  lemma {:induction false} RunKeepsInv(s: State, log: seq<Action>)
    requires Inv(s) && Legal(s, log)
    ensures Inv(After(s, log))
  {
    hide Inv, Step, Enabled;
    if log != [] {
      RunKeepsInv(s, log[..|log| - 1]);
      StepKeepsInv(After(s, log[..|log| - 1]), log[|log| - 1]);
    }
  }
}
