/** What the hand-off guarantees in every reachable state and along every run. */
module HandOffTheorems {
  import opened Packets
  import opened HandOff
  import opened HandOffInvariant

  /** The end of the run `log` of a freshly constructed sender. */
  ghost predicate Reaches(zc: bool, log: seq<Action>, s: State) {
    Legal(Init(zc), log) && After(Init(zc), log) == s
  }

  lemma ReachableInv(zc: bool, log: seq<Action>, s: State)
    requires Reaches(zc, log, s)
    ensures Inv(s)
  {
    hide Inv;
    InitInv(zc);
    RunKeepsInv(Init(zc), log);
  }

  // ---------------------------------------------------------------- stream fidelity

  lemma WireIsPrefix(s: State)
    requires Data(s)
    ensures s.wire <= StreamBytes(s.taken)
  {
    if s.wpc.WSend? {
      InPacketIsPrefix(s, s.remaining);
    } else if s.wpc.WSent? || s.wpc.WSentTerm? {
      SendingIsPrefix(s);
    } else if s.wpc.WPacket? {
      SentBeforeIsPrefix(s);
    } else if s.wpc.WClear? || s.wpc.WUnlock? {
      StreamBytesPrefix(s.taken, |s.taken| - 1);
    } else if Between(s.wpc) || Leaving(s.wpc) {
    }
  }

  lemma StreamPrefixes(taken: seq<PacketList>, posted: seq<PacketList>)
    requires taken <= posted
    ensures StreamBytes(taken) <= StreamBytes(posted)
  {
    assert posted[..|taken|] == taken;
    StreamBytesPrefix(posted, |taken|);
  }

  /**
   * Whatever the interleaving and the short writes, the wire is a prefix of the lists the worker
   * took, in order. If no accepted list was changed, destroyed or assigned to under its copy, those
   * are the accepted lists, of which at most the last is still waiting.
   */
  lemma StreamFidelity(zc: bool, log: seq<Action>, s: State)
    requires Reaches(zc, log, s)
    ensures s.wire <= StreamBytes(s.taken)
    ensures |s.taken| <= |s.posted| <= |s.taken| + 1
    ensures Intact(s) ==> s.taken <= s.posted && s.wire <= StreamBytes(s.posted)
  {
    ReachableInv(zc, log, s);
    WireIsPrefix(s);
    if Intact(s) {
      StreamPrefixes(s.taken, s.posted);
    }
  }

  lemma DoneState(s: State)
    requires Inv(s) && s.isDone && !s.mpc.MSendListed?
    ensures s.packetsList == None && !Busy(s.wpc)
    ensures |s.taken| == |s.posted| && s.wire == StreamBytes(s.taken)
    ensures Intact(s) ==> s.taken == s.posted
  {
    hide Control, ZcInv;
  }

  /**
   * What is_done publishes: outside the critical section of `send` itself, is_done means that no
   * list is waiting, the worker is between lists, and every accepted list is on the wire.
   */
  lemma DoneMeansDelivered(zc: bool, log: seq<Action>, s: State)
    requires Reaches(zc, log, s)
    requires s.isDone && !s.mpc.MSendListed?
    ensures s.packetsList == None && !Busy(s.wpc)
    ensures |s.taken| == |s.posted| && s.wire == StreamBytes(s.taken)
    ensures Intact(s) ==> s.wire == StreamBytes(s.posted)
  {
    hide Inv, HistoryInv, ZcInv, Control;
    ReachableInv(zc, log, s);
    DoneState(s);
  }

  /** A fault needs an accepted list that was destroyed before, or assigned to while, the worker copied it. */
  lemma NoFault(zc: bool, log: seq<Action>, s: State)
    requires Reaches(zc, log, s) && s.wpc.WFault?
    ensures s.freed || s.torn
  {
    ReachableInv(zc, log, s);
  }

  // ---------------------------------------------------------------- mutual exclusion and wake-ups

  /** Whoever asks for the lock finds a holder that is inside its critical section, or none. */
  lemma MutualExclusion(zc: bool, log: seq<Action>, s: State)
    requires Reaches(zc, log, s)
    ensures !(MainHolds(s.mpc) && HoldsLock(s.wpc))
    ensures s.mutex.Free? ==> !MainHolds(s.mpc) && !HoldsLock(s.wpc)
    ensures s.wpc.WAsleep? || s.wpc.WGone? ==> !s.mutex.ByWorker?
  {
    ReachableInv(zc, log, s);
  }

  /**
   * No lost wake-up: the worker sleeps on a waiting list only while `send` is between writing the
   * slot and signalling, and on a shutdown only while `end_sender` is before its signal.
   */
  lemma NoLostWakeup(zc: bool, log: seq<Action>, s: State)
    requires Reaches(zc, log, s) && s.wpc.WAsleep?
    ensures s.packetsList.Some? ==> s.mpc.MSendListed? || s.mpc.MSendLowered?
    ensures s.terminate ==> s.mpc.MEndTerm? || s.mpc.MEndLocked? || s.mpc.MEndCleared? || s.mpc.MEndLowered?
  {
    ReachableInv(zc, log, s);
  }

  // ---------------------------------------------------------------- zero copy

  /**
   * Zero-copy completion: when is_done is up, the kernel has reported every id it ever issued, so
   * it holds no reference to any buffer (fewer than 2^31 sends in the session).
   */
  lemma ZeroCopyComplete(zc: bool, log: seq<Action>, s: State)
    requires Reaches(zc, log, s) && s.isDone && s.issued < 0x8000_0000
    ensures forall k :: 0 <= k < s.issued <==> k in s.reported
  {
    ReachableInv(zc, log, s);
    ReportedCard(s.reported, s.issued);
  }

  // ---------------------------------------------------------------- termination

  /** Outside `initialize`, is_terminated_thread means there is no worker left to act. */
  lemma TerminatedMeansGone(zc: bool, log: seq<Action>, s: State)
    requires Reaches(zc, log, s) && s.isTerminated && !s.mpc.MInitWait?
    ensures s.wpc.WNone? || s.wpc.WGone?
    ensures !s.mutex.ByWorker?
    ensures forall c :: !WEnabled(s, c)
  {
    ReachableInv(zc, log, s);
  }

  predicate NoReset(log: seq<Action>) {
    forall i :: 0 <= i < |log| ==> !(log[i].M? && log[i].a.Reset?)
  }

  /** The worker is gone and `initialize` is not waiting for a new one. */
  predicate Gone(s: State) {
    s.isTerminated && !s.mpc.MInitWait?
  }

  /** What the worker left behind. */
  predicate SameVerdict(s: State, t: State) {
    && t.isError == s.isError && t.errorCode == s.errorCode && t.wpc == s.wpc
    && t.wire == s.wire && t.taken == s.taken && t.calls == s.calls && t.reported == s.reported
  }

  lemma GoneStep(s: State, a: Action)
    requires Inv(s) && Gone(s) && Enabled(s, a) && !(a.M? && a.a.Reset?)
    ensures a.M? && Gone(Step(s, a)) && SameVerdict(s, Step(s, a))
  {
    hide HistoryInv, WireInv, FaithInv, ZcInv, MStep;
    assert a.M?;
    MainStepFrame(s, a.a);
    MainKeepsInv(s, a.a);
  }

  /**
   * Termination is published for good: from then to the next session only the main thread
   * moves, and the worker's verdict, the wire and the kernel's books stay as they are.
   */
  lemma {:induction false} VerdictIsFinal(s: State, log: seq<Action>)
    requires Inv(s) && Gone(s) && Legal(s, log) && NoReset(log)
    ensures Gone(After(s, log)) && SameVerdict(s, After(s, log))
    ensures forall i :: 0 <= i < |log| ==> log[i].M?
  {
    hide Inv, Gone, Step, Enabled;
    if log != [] {
      var n := |log| - 1;
      assert log == log[..n] + [log[n]];
      assert NoReset(log[..n]);
      VerdictIsFinal(s, log[..n]);
      RunKeepsInv(s, log[..n]);
      GoneStep(After(s, log[..n]), log[n]);
    }
  }

  /**
   * A ready sender whose worker is gone always finds a specific error: `send` takes neither the
   * "No Thread Available" branch nor the "Unknown error" branch.
   */
  lemma ReadyAndGoneHasError(zc: bool, log: seq<Action>, s: State)
    requires Reaches(zc, log, s) && s.initialized && s.isTerminated
    ensures s.isError && ErrorCode(s.zc, s.errorCode)
  {
    ReachableInv(zc, log, s);
  }
}
