/** Concrete runs of the hand-off: what can go wrong, and how. */
module HandOffRuns {
  import opened Packets
  import opened HandOff
  import opened HandOffInvariant
  import opened HandOffTheorems

  lemma Extend(zc: bool, log: seq<Action>, s: State, a: Action) returns (longer: seq<Action>, t: State)
    requires Reaches(zc, log, s) && Enabled(s, a)
    ensures Reaches(zc, longer, t) && t == Step(s, a) && longer == log + [a]
  {
    hide Step, Enabled;
    LegalSnoc(Init(zc), log, a);
    longer, t := log + [a], Step(s, a);
  }

  function Ready(zc: bool): State {
    Init(zc).(isTerminated := false, threadInit := true, initialized := true, wpc := WLoopTest)
  }

  function Accepted(zc: bool, l: PacketList): State {
    Ready(zc).(heap := map[0 := l], packetsList := Some(0), isDone := false, posted := [l])
  }

  /** initialize, with a worker that comes up. */
  lemma RunInitialize(zc: bool) returns (log: seq<Action>)
    ensures Reaches(zc, log, Ready(zc))
  {
    hide Reaches;
    var s := Init(zc);
    log := [];
    assert Reaches(zc, log, s) by { StartsReached(zc); }
    log, s := Extend(zc, log, s, M(Reset(true)));
    log, s := Extend(zc, log, s, W(Proceed));
    log, s := Extend(zc, log, s, W(Proceed));
    log, s := Extend(zc, log, s, W(Proceed));
    log, s := Extend(zc, log, s, M(Advance));
  }

  lemma StartsReached(zc: bool)
    ensures Reaches(zc, [], Init(zc))
  {
  }

  /** send(&l) up to its lock. */
  lemma RunSendChecks(zc: bool, l: PacketList) returns (log: seq<Action>)
    ensures Reaches(zc, log, Ready(zc).(heap := map[0 := l], mpc := MSendChecked(0)))
  {
    hide Reaches;
    var s := Ready(zc);
    log := RunInitialize(zc);
    log, s := Extend(zc, log, s, M(Write(0, l)));
    log, s := Extend(zc, log, s, M(Advance));
    log, s := Extend(zc, log, s, M(BeginSend(0)));
    log, s := Extend(zc, log, s, M(Advance));
  }

  /** send(&l), accepted before the worker reaches the lock. */
  lemma RunSend(zc: bool, l: PacketList) returns (log: seq<Action>)
    ensures Reaches(zc, log, Accepted(zc, l))
  {
    hide Reaches;
    var s := Ready(zc).(heap := map[0 := l], mpc := MSendChecked(0));
    log := RunSendChecks(zc, l);
    log, s := Extend(zc, log, s, M(Advance));
    log, s := Extend(zc, log, s, M(Advance));
    assert s.posted == [l];
    log, s := Extend(zc, log, s, M(Advance));
    log, s := Extend(zc, log, s, M(Advance));
    log, s := Extend(zc, log, s, M(Advance));
  }

  const ONE: DataPacket := Packet(MemoryLocation, [1], 1, 0)
  const TWO: DataPacket := Packet(MemoryLocation, [2], 1, 0)

  /** The object is assigned [TWO] before the worker reaches the lock. */
  lemma RunOverwrite(zc: bool) returns (log: seq<Action>)
    ensures Reaches(zc, log, Accepted(zc, [ONE]).(heap := map[0 := [TWO]], overwritten := true))
  {
    hide Reaches;
    var s := Accepted(zc, [ONE]);
    log := RunSend(zc, [ONE]);
    log, s := Extend(zc, log, s, M(Write(0, [TWO])));
    log, s := Extend(zc, log, s, M(Advance));
    assert s.heap == map[0 := [TWO]];
  }

  /** The worker copies it. */
  lemma RunRace(zc: bool) returns (log: seq<Action>)
    ensures Reaches(zc, log,
                    Accepted(zc, [ONE]).(heap := map[0 := [TWO]], overwritten := true, mutex := ByWorker,
                                         wlocked := true, copy := [TWO], taken := [[TWO]], wpc := WClear))
  {
    hide Reaches;
    var s := Accepted(zc, [ONE]).(heap := map[0 := [TWO]], overwritten := true);
    log := RunOverwrite(zc);
    log, s := Extend(zc, log, s, W(Proceed));
    log, s := Extend(zc, log, s, W(Proceed));
    log, s := Extend(zc, log, s, W(Proceed));
    log, s := Extend(zc, log, s, W(Proceed));
    log, s := Extend(zc, log, s, W(Proceed));
    assert s.taken == [[TWO]];
  }

  lemma RunToSend(zc: bool) returns (log: seq<Action>, s: State)
    ensures Reaches(zc, log, s)
    ensures s.posted == [[ONE]] && s.wpc == WSend && s.i == 0 && s.copy == [TWO]
    ensures s.cursor == 0 && s.remaining == 1 && s.wire == [] && !s.freed
  {
    hide Reaches;
    s := Accepted(zc, [ONE]).(heap := map[0 := [TWO]], overwritten := true, mutex := ByWorker,
                              wlocked := true, copy := [TWO], taken := [[TWO]], wpc := WClear);
    log := RunRace(zc);
    log, s := Extend(zc, log, s, W(Proceed));
    log, s := Extend(zc, log, s, W(Proceed));
    log, s := Extend(zc, log, s, W(Proceed));
  }

  /**
   * Fidelity to the accepted lists fails without the hypothesis on overwriting: a run in which the
   * list [ONE] is accepted, its object is assigned [TWO], and TWO's byte goes on the wire.
   */
  lemma OverwriteReachesWire(zc: bool) returns (log: seq<Action>, s: State)
    ensures Reaches(zc, log, s)
    ensures !s.freed && s.posted == [[ONE]] && s.wire == [2]
    ensures !(s.wire <= StreamBytes(s.posted))
  {
    log, s := RunToSend(zc);
    log, s := Extend(zc, log, s, W(Returned(1)));
    assert s.wire == TWO.data[0..1] == [2];
    hide Reaches, Step;
    OneIsByteOne();
    assert StreamBytes(s.posted) == [1];
    assert s.wire[0] == 2 && [1][0] == 1;
  }

  /** [ONE] is accepted, and the worker begins to copy it. */
  lemma RunToCopy(zc: bool) returns (log: seq<Action>)
    ensures Reaches(zc, log, Accepted(zc, [ONE]).(mutex := ByWorker, wlocked := true, wpc := WCopying))
  {
    hide Reaches;
    var s := Accepted(zc, [ONE]);
    log := RunSend(zc, [ONE]);
    log, s := Extend(zc, log, s, W(Proceed));
    log, s := Extend(zc, log, s, W(Proceed));
    log, s := Extend(zc, log, s, W(Proceed));
    log, s := Extend(zc, log, s, W(Proceed));
  }

  /**
   * Equal contents do not help: a run in which the list [ONE] is accepted, the same [ONE] is assigned
   * to its object while the worker copies it, and the worker reads dead memory.
   */
  lemma EqualContentsFault(zc: bool) returns (log: seq<Action>, s: State)
    ensures Reaches(zc, log, s)
    ensures s.wpc.WFault? && s.posted == [[ONE]] && s.heap == map[0 := [ONE]] && !s.freed && !s.overwritten
  {
    hide Reaches;
    s := Accepted(zc, [ONE]).(mutex := ByWorker, wlocked := true, wpc := WCopying);
    log := RunToCopy(zc);
    log, s := Extend(zc, log, s, M(Write(0, [ONE])));
    log, s := Extend(zc, log, s, W(Proceed));
  }

  lemma OneIsByteOne()
    ensures StreamBytes([[ONE]]) == [1]
  {
    StreamBytesSnoc([], [ONE]);
    assert [[ONE]] == [] + [[ONE]];
    assert ListBytes([ONE]) == ListBytes([]) + Slice(ONE);
  }

  // ---------------------------------------------------------------- a delivery

  /** The worker has copied [ONE] and is about to send it. */
  function Sending(): State {
    Accepted(false, [ONE]).(packetsList := None, copy := [ONE], taken := [[ONE]], remaining := 1, wpc := WSend)
  }

  lemma RunTakes(log: seq<Action>, s: State) returns (longer: seq<Action>)
    requires Reaches(false, log, s)
    requires s == Accepted(false, [ONE]).(mutex := ByWorker, wlocked := true, wpc := WCopying)
    ensures Reaches(false, longer, Sending()) && log <= longer
    ensures forall k :: |log| <= k < |longer| ==> longer[k].W?
  {
    hide Reaches;
    var t := s;
    longer := log;
    longer, t := Extend(false, longer, t, W(Proceed));
    assert t.taken == [[ONE]];
    longer, t := Extend(false, longer, t, W(Proceed));
    longer, t := Extend(false, longer, t, W(Proceed));
    longer, t := Extend(false, longer, t, W(Proceed));
  }

  lemma RunCalls(log: seq<Action>) returns (longer: seq<Action>)
    requires Reaches(false, log, Sending())
    ensures Reaches(false, longer, Sending().(wire := [1], calls := 1, wpc := WSent(1)))
    ensures log <= longer && forall k :: |log| <= k < |longer| ==> longer[k].W?
  {
    hide Reaches;
    var t := Sending();
    longer, t := Extend(false, log, t, W(Returned(1)));
    assert t.wire == ONE.data[0..1] == [1];
  }

  lemma RunUpdates(log: seq<Action>) returns (longer: seq<Action>)
    requires Reaches(false, log, Sending().(wire := [1], calls := 1, wpc := WSent(1)))
    ensures Reaches(false, longer, Sending().(remaining := 0, cursor := 1, wire := [1], calls := 1))
    ensures log <= longer && forall k :: |log| <= k < |longer| ==> longer[k].W?
  {
    hide Reaches;
    var t := Sending().(wire := [1], calls := 1, wpc := WSent(1));
    longer, t := Extend(false, log, t, W(Proceed));
    longer, t := Extend(false, longer, t, W(Proceed));
  }

  lemma RunEndsList(log: seq<Action>) returns (longer: seq<Action>, t: State)
    requires Reaches(false, log, Sending().(remaining := 0, cursor := 1, wire := [1], calls := 1))
    ensures Reaches(false, longer, t) && t.mpc.MIdle? && t.isDone
    ensures log <= longer && forall k :: |log| <= k < |longer| ==> longer[k].W?
  {
    hide Reaches;
    t := Sending().(remaining := 0, cursor := 1, wire := [1], calls := 1);
    longer := log;
    longer, t := Extend(false, longer, t, W(Proceed));
    longer, t := Extend(false, longer, t, W(Proceed));
    longer, t := Extend(false, longer, t, W(Proceed));
  }

  /** [ONE] is accepted and unfinished, and the worker's own steps deliver it. */
  lemma OneIsDelivered() returns (log: seq<Action>, s: State, longer: seq<Action>, t: State)
    ensures Reaches(false, log, s) && s.mpc.MIdle? && !s.isDone
    ensures Reaches(false, longer, t) && t.mpc.MIdle? && t.isDone && log <= longer
    ensures forall k :: |log| <= k < |longer| ==> longer[k].W?
  {
    hide Reaches;
    s := Accepted(false, [ONE]).(mutex := ByWorker, wlocked := true, wpc := WCopying);
    log := RunToCopy(false);
    longer := RunTakes(log, s);
    longer := RunCalls(longer);
    longer := RunUpdates(longer);
    longer, t := RunEndsList(longer);
  }

  // ---------------------------------------------------------------- a worker that fails to start

  /** A ready sender whose worker has not set up its socket yet. */
  function Starting(zc: bool): State {
    Ready(zc).(wpc := WSetup)
  }

  lemma RunToSetup(zc: bool) returns (log: seq<Action>)
    ensures Reaches(zc, log, Starting(zc))
  {
    hide Reaches;
    var s := Init(zc);
    log := [];
    assert Reaches(zc, log, s) by { StartsReached(zc); }
    log, s := Extend(zc, log, s, M(Reset(true)));
    log, s := Extend(zc, log, s, W(Proceed));
    log, s := Extend(zc, log, s, W(Proceed));
    log, s := Extend(zc, log, s, M(Advance));
  }

  /** A ready sender whose worker failed to set its affinity, and is gone. */
  function Dead(zc: bool): State {
    Ready(zc).(isTerminated := true, isError := true, errorCode := CpuAffinity, wpc := WGone)
  }

  /** The worker fails to set its affinity. */
  lemma RunToFailure(zc: bool) returns (log: seq<Action>)
    ensures Reaches(zc, log, Starting(zc).(wpc := WExitFlag(true, CpuAffinity)))
  {
    hide Reaches;
    var s := Starting(zc);
    log := RunToSetup(zc);
    log, s := Extend(zc, log, s, W(Refuse(CpuAffinity)));
  }

  /** The worker stores its verdict. */
  lemma RunToVerdict(zc: bool) returns (log: seq<Action>)
    ensures Reaches(zc, log, Starting(zc).(isError := true, errorCode := CpuAffinity, wpc := WExitUnlock))
  {
    hide Reaches;
    var s := Starting(zc).(wpc := WExitFlag(true, CpuAffinity));
    log := RunToFailure(zc);
    log, s := Extend(zc, log, s, W(Proceed));
    log, s := Extend(zc, log, s, W(Proceed));
  }

  lemma RunToDead(zc: bool) returns (log: seq<Action>)
    ensures Reaches(zc, log, Dead(zc))
  {
    hide Reaches;
    var s := Starting(zc).(isError := true, errorCode := CpuAffinity, wpc := WExitUnlock);
    log := RunToVerdict(zc);
    log, s := Extend(zc, log, s, W(Proceed));
    log, s := Extend(zc, log, s, W(Proceed));
  }

  /**
   * A sender that says it is ready and done although its worker is gone: everything it is given is
   * refused, and is_send_done goes on answering true.
   */
  lemma DeadSenderLooksDone(zc: bool) returns (log: seq<Action>, s: State)
    ensures Reaches(zc, log, s)
    ensures s.mpc.MIdle? && s.initialized && s.isDone && s.isTerminated && Intact(s)
  {
    hide Reaches;
    log := RunToDead(zc);
    s := Dead(zc);
  }

  /**
   * While the worker is setting up its socket nothing is decided: by worker steps alone it can come
   * to wait for a list, or be on its way out with is_terminated_thread still down.
   */
  lemma StartingGoesEitherWay(zc: bool) returns (log: seq<Action>, s: State, good: State, bad: State)
    ensures Reaches(zc, log, s) && s.mpc.MIdle? && s.initialized && s.isDone && !s.isTerminated && s.wpc.WSetup?
    ensures Reaches(zc, log + [W(Proceed)], good) && good == Ready(zc)
    ensures Reaches(zc, log + [W(Refuse(CpuAffinity))], bad) && Leaving(bad.wpc) && bad.isDone && !bad.isTerminated
  {
    hide Reaches;
    s := Starting(zc);
    log := RunToSetup(zc);
    var longer;
    longer, good := Extend(zc, log, s, W(Proceed));
    longer, bad := Extend(zc, log, s, W(Refuse(CpuAffinity)));
  }

  /** A worker on its way out can still accept a list, which it will never copy. */
  lemma LeavingAccepts(zc: bool) returns (log: seq<Action>, s: State)
    ensures Reaches(zc, log, s)
    ensures s.mpc.MSendSignalled? && Leaving(s.wpc) && s.posted == [[ONE]] && s.taken == [] && !s.isDone
  {
    hide Reaches;
    log, s := LeavingAsked(zc);
    log, s := Extend(zc, log, s, M(Advance));
    log, s := Extend(zc, log, s, M(Advance));
    assert s.posted == [[ONE]];
    log, s := Extend(zc, log, s, M(Advance));
    log, s := Extend(zc, log, s, M(Advance));
  }

  lemma LeavingAsked(zc: bool) returns (log: seq<Action>, s: State)
    ensures Reaches(zc, log, s)
    ensures s == Starting(zc).(heap := map[0 := [ONE]], mpc := MSendChecked(0), wpc := WExitFlag(true, CpuAffinity))
  {
    hide Reaches;
    s := Starting(zc).(wpc := WExitFlag(true, CpuAffinity));
    log := RunToFailure(zc);
    log, s := Extend(zc, log, s, M(Write(0, [ONE])));
    log, s := Extend(zc, log, s, M(Advance));
    log, s := Extend(zc, log, s, M(BeginSend(0)));
    log, s := Extend(zc, log, s, M(Advance));
  }
}
