/** What end_sender takes back: a list that the worker has not copied is never copied or sent. */
module HandOffWithdrawal {
  import opened Packets
  import opened HandOff
  import opened HandOffInvariant
  import opened HandOffTheorems

  // ---------------------------------------------------------------- a worker without a list

  /** The worker has no list, and none waits for it. */
  predicate AtRest(s: State) {
    s.packetsList.None? && !Busy(s.wpc) && !s.wpc.WCopy? && !s.wpc.WCopying?
  }

  /** Nothing was copied, sent or marked done. */
  predicate SameWork(s: State, t: State) {
    t.taken == s.taken && t.wire == s.wire && t.calls == s.calls && t.isDone == s.isDone
  }

  lemma RestStarts(s: State, c: WChoice)
    requires AtRest(s) && WEnabled(s, c)
    requires s.wpc.WStart? || s.wpc.WStarted? || s.wpc.WSetup? || s.wpc.WLoopTest? || s.wpc.WLock?
    ensures AtRest(WStep(s, c)) && SameWork(s, WStep(s, c))
  {
    hide KernelSend, Int32, NotificationCount, Range;
  }

  lemma RestLooks(s: State, c: WChoice)
    requires AtRest(s) && WEnabled(s, c) && (s.wpc.WCheckList? || s.wpc.WCheckTerm?)
    ensures AtRest(WStep(s, c)) && SameWork(s, WStep(s, c))
  {
    hide KernelSend, Int32, NotificationCount, Range;
  }

  lemma RestWaits(s: State, c: WChoice)
    requires AtRest(s) && WEnabled(s, c) && (s.wpc.WWait? || s.wpc.WAsleep? || s.wpc.WWoken?)
    ensures AtRest(WStep(s, c)) && SameWork(s, WStep(s, c))
  {
    WaitEffect(s, c);
    hide WStep, WEnabled;
  }

  lemma RestLeaves(s: State, c: WChoice)
    requires AtRest(s) && WEnabled(s, c)
    requires s.wpc.WExitFlag? || s.wpc.WExitCode? || s.wpc.WExitUnlock? || s.wpc.WExitPublish?
    ensures AtRest(WStep(s, c)) && SameWork(s, WStep(s, c))
  {
    hide KernelSend, Int32, NotificationCount, Range;
  }

  /** A worker at rest stays at rest, whatever steps it takes. */
  lemma RestStep(s: State, c: WChoice)
    requires AtRest(s) && WEnabled(s, c)
    ensures AtRest(WStep(s, c)) && SameWork(s, WStep(s, c))
  {
    RestPoints(s, c);
    hide AtRest, WStep, WEnabled, SameWork;
    if Leaving(s.wpc) {
      RestLeaves(s, c);
    } else if s.wpc.WCheckList? || s.wpc.WCheckTerm? {
      RestLooks(s, c);
    } else if s.wpc.WWait? || s.wpc.WAsleep? || s.wpc.WWoken? {
      RestWaits(s, c);
    } else {
      RestStarts(s, c);
    }
  }

  lemma RestPoints(s: State, c: WChoice)
    requires AtRest(s) && WEnabled(s, c)
    ensures !Busy(s.wpc) && !s.wpc.WCopy? && !s.wpc.WCopying? && !s.wpc.WNone? && !s.wpc.WGone? && !s.wpc.WFault?
  {
  }

  /** A worker at rest in `s` is at rest in `t`, with the same work done. */
  predicate Rests(s: State, t: State) {
    AtRest(s) ==> AtRest(t) && SameWork(s, t)
  }

  // ---------------------------------------------------------------- withdrawal

  /** end_sender has emptied the slot: the session is ending, and the worker is not copying. */
  predicate Withdrawn(s: State) {
    && s.terminate && !s.mpc.MEndTerm? && !s.mpc.MEndLocked?
    && s.packetsList.None? && !s.wpc.WCopy? && !s.wpc.WCopying? && !s.wpc.WClear?
  }

  /** A list withdrawn in `s` is still withdrawn in `t`, and nothing was copied. */
  predicate StaysWithdrawn(s: State, t: State) {
    Withdrawn(s) ==> Withdrawn(t) && t.taken == s.taken
  }

  /** The statement of `end_sender` that empties the slot, under the lock. */
  lemma WithdrawalBegins(s: State)
    requires Inv(s) && s.mpc.MEndLocked?
    ensures MEnabled(s, Advance) && Withdrawn(MStep(s, Advance)) && MStep(s, Advance).mpc.MEndCleared?
    ensures MStep(s, Advance).taken == s.taken && MStep(s, Advance).wire == s.wire
  {
    hide ExitInv, HistoryInv, WireInv, FaithInv, ZcInv;
  }

  lemma WithdrawnBusy(s: State, c: WChoice)
    requires Inv(s) && Withdrawn(s) && WEnabled(s, c) && Busy(s.wpc)
    ensures Withdrawn(WStep(s, c)) && WStep(s, c).taken == s.taken
  {
    WorkerKeepsInv(s, c);
    hide WStep, MutexInv, LifeInv, ExitInv, WakeInv, HistoryInv, WireInv, FaithInv, ZcInv;
  }

  lemma WithdrawnWorker(s: State, c: WChoice)
    requires Inv(s) && Withdrawn(s) && WEnabled(s, c)
    ensures Withdrawn(WStep(s, c)) && WStep(s, c).taken == s.taken
    ensures AtRest(s) ==> AtRest(WStep(s, c)) && SameWork(s, WStep(s, c))
  {
    if Busy(s.wpc) {
      WithdrawnBusy(s, c);
    } else {
      hide WStep, WEnabled, MutexInv, LifeInv, ExitInv, WakeInv, HistoryInv, WireInv, FaithInv, ZcInv;
      RestStep(s, c);
      WorkerKeepsInv(s, c);
    }
  }

  /** What the main thread does until a new session, seen from a withdrawn list. */
  predicate Undisturbed(s: State, t: State) {
    && t.taken == s.taken && t.wire == s.wire && t.calls == s.calls && t.packetsList == s.packetsList
    && (t.isDone ==> s.isDone)
    && t.terminate == s.terminate && (t.wpc == s.wpc || (s.wpc.WAsleep? && t.wpc.WWoken?))
  }

  lemma WithdrawnEnd(s: State, m: MAction)
    requires Withdrawn(s) && MEnabled(s, m)
    requires s.mpc.MEndCleared? || s.mpc.MEndLowered? || s.mpc.MEndSignalled? || s.mpc.MEndWait?
    ensures Withdrawn(MStep(s, m)) && Undisturbed(s, MStep(s, m))
    ensures s.mpc.MEndCleared? ==> !MStep(s, m).isDone
  {
  }

  lemma WithdrawnClient(s: State, m: MAction)
    requires LifeInv(s) && Withdrawn(s) && MEnabled(s, m) && InClient(s.mpc) && !(s.mpc.MIdle? && m.Reset?)
    ensures Withdrawn(MStep(s, m)) && Undisturbed(s, MStep(s, m))
  {
  }

  lemma WithdrawnMain(s: State, m: MAction)
    requires Inv(s) && Withdrawn(s) && MEnabled(s, m) && !(s.mpc.MIdle? && m.Reset?)
    ensures Withdrawn(MStep(s, m)) && Undisturbed(s, MStep(s, m))
  {
    EndPoints(s);
    hide MStep, MEnabled, MutexInv, LifeInv, ExitInv, WakeInv, HistoryInv, WireInv, FaithInv, ZcInv, Withdrawn,
        Undisturbed;
    if InClient(s.mpc) {
      WithdrawnClient(s, m);
    } else {
      WithdrawnEnd(s, m);
    }
  }

  lemma EndPoints(s: State)
    requires LifeInv(s) && Withdrawn(s)
    ensures InClient(s.mpc) || s.mpc.MEndCleared? || s.mpc.MEndLowered? || s.mpc.MEndSignalled? || s.mpc.MEndWait?
  {
  }

  /**
   * A withdrawn list stays withdrawn: until the next session the worker copies nothing more, and if it
   * was not busy with an earlier list, it sends nothing more and does not mark anything done.
   */
  lemma {:induction false} WithdrawnForGood(s: State, log: seq<Action>)
    requires Inv(s) && Withdrawn(s) && Legal(s, log) && NoReset(log)
    ensures var t := After(s, log);
            && Inv(t) && Withdrawn(t) && t.taken == s.taken
            && (AtRest(s) ==> AtRest(t) && t.wire == s.wire && t.calls == s.calls && (t.isDone ==> s.isDone))
  {
    hide Inv, Withdrawn, WStep, MStep, WEnabled, MEnabled, AtRest;
    if log != [] {
      var n := |log| - 1;
      assert NoReset(log[..n]);
      WithdrawnForGood(s, log[..n]);
      var u := After(s, log[..n]);
      StepKeepsInv(u, log[n]);
      match log[n] {
        case W(c) => WithdrawnWorker(u, c);
        case M(m) =>
          assert !m.Reset?;
          WithdrawnMain(u, m);
          if AtRest(u) {
            UndisturbedRest(u, MStep(u, m));
          }
      }
    }
  }

  lemma UndisturbedRest(s: State, t: State)
    requires AtRest(s) && Undisturbed(s, t)
    ensures AtRest(t)
  {
  }

  /**
   * end_sender withdraws the list: whatever run follows the statement that empties the slot, up to the
   * next session the lists taken are those taken before it. What was not copied by then is never sent.
   */
  lemma EndSenderWithdraws(s: State, log: seq<Action>)
    requires Inv(s) && s.mpc.MEndLocked? && Legal(MStep(s, Advance), log) && NoReset(log)
    ensures var t := After(MStep(s, Advance), log);
            && t.taken == s.taken && t.packetsList.None? && !t.wpc.WCopy? && !t.wpc.WCopying?
            && t.wire <= StreamBytes(s.taken)
            && (!Busy(s.wpc) ==> t.wire == s.wire && t.calls == s.calls)
  {
    hide StreamBytes;
    WithdrawalBegins(s);
    MainKeepsInv(s, Advance);
    var u := MStep(s, Advance);
    assert !Busy(s.wpc) ==> AtRest(u) && u.calls == s.calls;
    hide Inv, MStep;
    WithdrawnForGood(u, log);
    InvData(After(u, log));
    WireIsPrefix(After(u, log));
  }

  lemma InvData(s: State)
    requires Inv(s)
    ensures Data(s)
  {
  }

  /** Any worker step, seen from a worker at rest and from a withdrawn list. */
  lemma WorkerRests(s: State, c: WChoice)
    requires Inv(s) && WEnabled(s, c)
    ensures Rests(s, WStep(s, c)) && StaysWithdrawn(s, WStep(s, c))
  {
    hide Inv, AtRest, Withdrawn, SameWork, WStep, WEnabled;
    if AtRest(s) {
      RestStep(s, c);
    }
    if Withdrawn(s) {
      WithdrawnWorker(s, c);
    }
  }

  // ---------------------------------------------------------------- the calls of end_sender

  /**
   * Where a call of end_sender decided what the worker may still send: at the statement that empties
   * the slot (`cleared`), or at the test that found the worker gone.
   */
  datatype Cut = Cut(log: seq<Action>, at: State, cleared: bool) {
    /** The deciding statement lies on the run that the call extended from `start` to `end`. */
    ghost predicate During(zc: bool, start: seq<Action>, end: seq<Action>) {
      && start <= log && log + [M(if cleared then Advance else BeginEnd)] <= end && Reaches(zc, log, at)
      && if cleared then at.mpc.MEndLocked? else at.mpc.MIdle? && at.isTerminated
    }

    /** What the worker had not copied by then is not sent. */
    predicate Kept(t: State) {
      && t.taken == at.taken
      && (cleared ==> t.packetsList.None?)
      && (cleared && !Busy(at.wpc) ==> t.wire == at.wire && t.calls == at.calls && !t.isDone)
    }
  }
}
