/**
 * What happens when the client assigns to an accepted list object before the worker has copied it.
 * Skip mode of RealTimeSystem::run does this (src/systems/real_time_system.cpp:207).
 */
module HandOffOverwrite {
  import opened Packets
  import opened HandOff
  import opened HandOffInvariant
  import opened HandOffTheorems
  import opened HandOffProgress

  /** The worker moves, and the assignment in progress, if there is one, may end. */
  predicate AssignLog(log: seq<Action>) {
    forall i :: 0 <= i < |log| ==> log[i].W? || log[i].a.Advance?
  }

  /** The worker may still copy the object `id`. */
  predicate Pending(s: State, id: ListId) {
    MayCopy(s) && s.packetsList == Some(id)
  }

  // ---------------------------------------------------------------- after an assignment has begun

  /** The assignment of `l` to `id` is in progress, and no copy of `id` has begun. */
  predicate Cutting(t: State, id: ListId, l: PacketList, taken: seq<PacketList>) {
    t.mpc == MAssign(id, l) && Pending(t, id) && !t.wpc.WCopying? && t.taken == taken && Defined(t)
  }

  /** The assignment is over, and the object holds `l`. */
  predicate Waiting(t: State, id: ListId, l: PacketList, taken: seq<PacketList>) {
    t.mpc.MIdle? && Pending(t, id) && id in t.heap && t.heap[id] == l && t.taken == taken && Defined(t)
  }

  /** The worker copied `l`, and the slot is empty or about to be. */
  predicate Copied(t: State, l: PacketList, taken: seq<PacketList>) {
    t.mpc.MIdle? && t.taken == taken + [l] && !MayCopy(t) && (t.packetsList.None? || t.wpc.WClear?)
  }

  predicate GaveUp(t: State, taken: seq<PacketList>) {
    InClient(t.mpc) && t.taken == taken && Leaving(t.wpc)
  }

  predicate AssignOutcome(t: State, id: ListId, l: PacketList, taken: seq<PacketList>) {
    t.torn || Cutting(t, id, l, taken) || Waiting(t, id, l, taken) || Copied(t, l, taken) || GaveUp(t, taken)
  }

  lemma CuttingStep(t: State, c: WChoice, id: ListId, l: PacketList, taken: seq<PacketList>)
    requires Inv(t) && WEnabled(t, c) && Cutting(t, id, l, taken)
    ensures var u := WStep(t, c); u.torn || Cutting(u, id, l, taken) || GaveUp(u, taken)
    ensures t.wpc.WCopy? ==> WStep(t, c).torn
  {
    if !t.wpc.WCopy? {
      hide WStep, MutexInv, LifeInv, ExitInv, WakeInv, HistoryInv, WireInv, FaithInv, ZcInv;
      WorkerKeepsInv(t, c);
    }
  }

  lemma WaitingStep(t: State, c: WChoice, id: ListId, l: PacketList, taken: seq<PacketList>)
    requires Inv(t) && WEnabled(t, c) && Waiting(t, id, l, taken)
    ensures var u := WStep(t, c); Waiting(u, id, l, taken) || Copied(u, l, taken) || GaveUp(u, taken)
  {
    if !t.wpc.WCopying? {
      hide WStep, MutexInv, LifeInv, ExitInv, WakeInv, HistoryInv, WireInv, FaithInv, ZcInv;
      WorkerKeepsInv(t, c);
    }
  }

  lemma CopiedStep(t: State, c: WChoice, l: PacketList, taken: seq<PacketList>)
    requires Inv(t) && WEnabled(t, c) && Copied(t, l, taken)
    ensures Copied(WStep(t, c), l, taken)
  {
    WorkerKeepsInv(t, c);
    if !t.wpc.WClear? {
      hide WStep, MutexInv, LifeInv, ExitInv, HistoryInv, WireInv, FaithInv, ZcInv;
    }
  }

  lemma GaveUpStep(t: State, c: WChoice, taken: seq<PacketList>)
    requires Inv(t) && WEnabled(t, c) && GaveUp(t, taken)
    ensures GaveUp(WStep(t, c), taken)
  {
    hide WStep, MutexInv, LifeInv, ExitInv, WakeInv, HistoryInv, WireInv, FaithInv, ZcInv;
    WorkerKeepsInv(t, c);
  }

  lemma WorkerOutcome(t: State, c: WChoice, id: ListId, l: PacketList, taken: seq<PacketList>)
    requires Inv(t) && WEnabled(t, c) && AssignOutcome(t, id, l, taken)
    ensures AssignOutcome(WStep(t, c), id, l, taken)
  {
    hide Inv, Cutting, Waiting, Copied, GaveUp, WStep, WEnabled;
    if t.torn {
      WorkerKeepsInv(t, c);
    } else if Cutting(t, id, l, taken) {
      CuttingStep(t, c, id, l, taken);
    } else if Waiting(t, id, l, taken) {
      WaitingStep(t, c, id, l, taken);
    } else if Copied(t, l, taken) {
      CopiedStep(t, c, l, taken);
    } else {
      GaveUpStep(t, c, taken);
    }
  }

  /** The end of the assignment */
  lemma AdvanceOutcome(t: State, id: ListId, l: PacketList, taken: seq<PacketList>)
    requires MEnabled(t, Advance) && InClient(t.mpc) && AssignOutcome(t, id, l, taken)
    ensures AssignOutcome(MStep(t, Advance), id, l, taken)
  {
  }

  /**
   * However the run goes on from an assignment of `l` to the waiting object: the assignment cut into
   * a copy, or what the worker copies is `l`, not what was accepted.
   */
  lemma {:induction false} WorkerCopiesObject(s: State, log: seq<Action>, id: ListId, l: PacketList,
      taken: seq<PacketList>)
    requires Inv(s) && InClient(s.mpc) && AssignOutcome(s, id, l, taken) && Legal(s, log) && AssignLog(log)
    ensures var t := After(s, log); Inv(t) && InClient(t.mpc) && AssignOutcome(t, id, l, taken)
  {
    hide Inv, AssignOutcome, WStep, WEnabled, MStep, MEnabled;
    if log != [] {
      var n := |log| - 1;
      assert AssignLog(log[..n]);
      WorkerCopiesObject(s, log[..n], id, l, taken);
      var u := After(s, log[..n]);
      StepKeepsInv(u, log[n]);
      match log[n] {
        case W(c) =>
          WorkerOutcome(u, c, id, l, taken);
          WorkerKeepsInv(u, c);
        case M(a) =>
          AdvanceOutcome(u, id, l, taken);
          AdvanceStaysClient(u);
      }
    }
  }

  lemma AdvanceStaysClient(t: State)
    requires InClient(t.mpc) && MEnabled(t, Advance)
    ensures InClient(MStep(t, Advance).mpc)
  {
  }

  lemma AssignBegins(s: State, l: PacketList)
    requires Inv(s) && s.mpc.MIdle? && MayCopy(s) && Intact(s)
    ensures var id := s.packetsList.value;
            && AssignOutcome(MStep(s, Write(id, l)), id, l, s.taken)
            && InClient(MStep(s, Write(id, l)).mpc)
            && s.taken <= s.posted && |s.posted| == |s.taken| + 1
  {
  }

  /**
   * When an assignment to an accepted list does not cut into its copy, it is harmless exactly for
   * equal contents: after the worker has copied the list, the lists taken are the lists accepted if
   * and only if `l` is what was accepted.
   */
  lemma OverwriteIff(s: State, l: PacketList, log: seq<Action>)
    requires Inv(s) && s.mpc.MIdle? && MayCopy(s) && Intact(s)
    requires var u := MStep(s, Write(s.packetsList.value, l)); Legal(u, log) && AssignLog(log)
    requires var t := After(MStep(s, Write(s.packetsList.value, l)), log); !t.torn && |t.taken| > |s.taken|
    ensures var t := After(MStep(s, Write(s.packetsList.value, l)), log);
            t.taken == s.taken + [l] && (t.taken == s.posted <==> l == s.posted[|s.taken|])
  {
    var id := s.packetsList.value;
    var u := MStep(s, Write(id, l));
    AssignBegins(s, l);
    MainKeepsInv(s, Write(id, l));
    hide MStep, MEnabled, Inv;
    WorkerCopiesObject(u, log, id, l, s.taken);
    assert s.posted[..|s.taken|] == s.taken;
    assert s.posted == s.taken + [s.posted[|s.taken|]];
  }

  // ---------------------------------------------------------------- the condition for a safe assignment

  /** The worker did not read dead memory, and took what was accepted. */
  predicate Harmless(t: State) {
    !t.wpc.WFault? && t.taken <= t.posted
  }

  /** Nothing went wrong so far, and the worker will not copy `id`. */
  predicate Safe(t: State, id: ListId) {
    Intact(t) && !Pending(t, id) && (t.mpc.MIdle? || (t.mpc.MAssign? && t.mpc.id == id))
  }

  lemma SafeBegins(s: State, id: ListId, l: PacketList)
    requires s.mpc.MIdle? && Safe(s, id)
    ensures Safe(MStep(s, Write(id, l)), id)
  {
  }

  lemma SafeStep(t: State, a: Action, id: ListId)
    requires Inv(t) && Enabled(t, a) && Safe(t, id) && (a.W? || a.a.Advance?)
    ensures Safe(Step(t, a), id)
  {
    if a.W? {
      hide WStep, MutexInv, LifeInv, ExitInv, WakeInv, HistoryInv, WireInv, FaithInv, ZcInv;
      WorkerKeepsInv(t, a.c);
    }
  }

  lemma {:induction false} SafeRun(s: State, log: seq<Action>, id: ListId)
    requires Inv(s) && Safe(s, id) && Legal(s, log) && AssignLog(log)
    ensures Inv(After(s, log)) && Safe(After(s, log), id)
  {
    hide Inv, Safe, Step, Enabled;
    if log != [] {
      var n := |log| - 1;
      assert AssignLog(log[..n]);
      SafeRun(s, log[..n], id);
      StepKeepsInv(After(s, log[..n]), log[n]);
      SafeStep(After(s, log[..n]), log[n], id);
    }
  }

  lemma IntactIsHarmless(t: State)
    requires Inv(t) && Intact(t)
    ensures Harmless(t)
  {
  }

  /** Steps of the worker to the copy of the list in the slot. */
  function CopyRank(w: WorkerPc): nat {
    match w
    case WSetup => 5
    case WLoopTest => 4
    case WLock => 3
    case WWoken => 3
    case WCheckList => 2
    case WCopy => 1
    case _ => 0
  }

  lemma CuttingPoint(t: State, id: ListId, l: PacketList)
    requires Inv(t) && Cutting(t, id, l, t.taken)
    ensures CopyRank(t.wpc) > 0 && WEnabled(t, Proceed)
  {
    hide ExitInv, WireInv, ZcInv;
  }

  lemma CuttingStarts(t: State, id: ListId, l: PacketList)
    requires Inv(t) && Cutting(t, id, l, t.taken) && WEnabled(t, Proceed)
    requires t.wpc.WSetup? || t.wpc.WLoopTest?
    ensures var u := WStep(t, Proceed); Cutting(u, id, l, u.taken) && CopyRank(u.wpc) < CopyRank(t.wpc)
  {
    hide ExitInv, WireInv, ZcInv, HistoryInv, WakeInv, MutexInv, FaithInv;
  }

  lemma CuttingLocks(t: State, id: ListId, l: PacketList)
    requires Inv(t) && Cutting(t, id, l, t.taken) && WEnabled(t, Proceed)
    requires t.wpc.WLock? || t.wpc.WWoken? || t.wpc.WCheckList?
    ensures var u := WStep(t, Proceed); Cutting(u, id, l, u.taken) && CopyRank(u.wpc) < CopyRank(t.wpc)
  {
    hide ExitInv, WireInv, ZcInv, HistoryInv, WakeInv, MutexInv, FaithInv;
  }

  lemma CuttingNearer(t: State, id: ListId, l: PacketList)
    requires Inv(t) && Cutting(t, id, l, t.taken) && !t.wpc.WCopy? && WEnabled(t, Proceed) && CopyRank(t.wpc) > 0
    ensures var u := WStep(t, Proceed); Cutting(u, id, l, u.taken) && CopyRank(u.wpc) < CopyRank(t.wpc)
  {
    hide Inv, Cutting, WStep, WEnabled;
    if t.wpc.WSetup? || t.wpc.WLoopTest? {
      CuttingStarts(t, id, l);
    } else {
      CuttingLocks(t, id, l);
    }
  }

  /** While the assignment is in progress the worker can reach the copy, and the copy is torn. */
  lemma {:induction false} CopyCanBeTorn(t: State, id: ListId, l: PacketList) returns (log: seq<Action>)
    requires Inv(t) && Cutting(t, id, l, t.taken)
    ensures Legal(t, log) && AssignLog(log) && Inv(After(t, log)) && After(t, log).torn
    decreases CopyRank(t.wpc)
  {
    hide Inv, WStep, WEnabled, Cutting;
    CuttingPoint(t, id, l);
    var u := WStep(t, Proceed);
    WorkerKeepsInv(t, Proceed);
    LegalSnoc(t, [], W(Proceed));
    assert [] + [W(Proceed)] == [W(Proceed)];
    if t.wpc.WCopy? {
      CuttingStep(t, Proceed, id, l, t.taken);
      log := [W(Proceed)];
    } else {
      CuttingNearer(t, id, l);
      var rest := CopyCanBeTorn(u, id, l);
      LegalConcat(t, [W(Proceed)], rest);
      log := [W(Proceed)] + rest;
    }
  }

  /** A torn copy is followed by the fault. */
  lemma TornFaults(t: State)
    requires Inv(t) && t.torn
    ensures t.wpc.WFault? || (WEnabled(t, Proceed) && WStep(t, Proceed).wpc.WFault?)
  {
    hide MutexInv, LifeInv, ExitInv, WakeInv, HistoryInv, WireInv, ZcInv;
  }

  /** An assignment to a pending list can make the worker read dead memory, whatever its contents. */
  lemma PendingCanFault(s: State, id: ListId, l: PacketList) returns (log: seq<Action>)
    requires Inv(s) && s.mpc.MIdle? && Intact(s) && Pending(s, id)
    ensures var u := MStep(s, Write(id, l)); Legal(u, log) && AssignLog(log) && After(u, log).wpc.WFault?
  {
    assert MEnabled(s, Write(id, l));
    hide Inv, WStep, WEnabled, MStep, MEnabled, Pending, Cutting;
    var u := MStep(s, Write(id, l));
    MainKeepsInv(s, Write(id, l));
    var before := [];
    if !u.torn {
      PendingCuts(s, id, l);
      before := CopyCanBeTorn(u, id, l);
    }
    var t := After(u, before);
    TornFaults(t);
    if t.wpc.WFault? {
      log := before;
    } else {
      LegalSnoc(u, before, W(Proceed));
      log := before + [W(Proceed)];
    }
  }

  lemma PendingCuts(s: State, id: ListId, l: PacketList)
    requires Inv(s) && s.mpc.MIdle? && Intact(s) && Pending(s, id)
    requires !MStep(s, Write(id, l)).torn
    ensures Cutting(MStep(s, Write(id, l)), id, l, s.taken) && MStep(s, Write(id, l)).taken == s.taken
  {
  }

  /**
   * Exactly when an assignment to a list object is safe, whatever its contents: no continuation lets
   * the worker read dead memory or take a list that was not accepted, if and only if the worker can no
   * longer copy that object when the assignment begins.
   */
  lemma AssignmentIsSafeIff(s: State, id: ListId, l: PacketList)
    requires Inv(s) && s.mpc.MIdle? && Intact(s)
    ensures (forall log :: Legal(MStep(s, Write(id, l)), log) && AssignLog(log)
                           ==> Harmless(After(MStep(s, Write(id, l)), log)))
            <==> !Pending(s, id)
  {
    var u := MStep(s, Write(id, l));
    MainKeepsInv(s, Write(id, l));
    if Pending(s, id) {
      var log := PendingCanFault(s, id, l);
      assert !Harmless(After(u, log));
    } else {
      SafeBegins(s, id, l);
      hide Inv, MStep, Safe;
      forall log | Legal(u, log) && AssignLog(log) ensures Harmless(After(u, log)) {
        SafeRun(u, log, id);
        SafeIsIntact(After(u, log), id);
        IntactIsHarmless(After(u, log));
      }
    }
  }

  lemma SafeIsIntact(t: State, id: ListId)
    requires Safe(t, id)
    ensures Intact(t)
  {
  }
}
