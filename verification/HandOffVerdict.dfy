/** What the worker's verdict, is_error and error_code, says about the run. */
module HandOffVerdict {
  import opened Packets
  import opened HandOff
  import opened HandOffInvariant
  import opened HandOffTheorems

  /**
   * What goes wrong when the worker takes its step at `s` with result `c`: an option cannot be set, a
   * call on the socket fails, a packet has an unknown type, or a notification cannot be had or counts
   * nothing. `code` is the error code that names it.
   */
  predicate Failure(s: State, c: WChoice, code: Code) {
    match s.wpc
    case WSetup => c == Refuse(code)
    case WSend => s.remaining != 0 && c.Returned? && c.n < 0 && code == SendingError
    case WPacket => s.i < |s.copy| && s.copy[s.i].kind.Unknown? && code == NotSupported
    case WPoll =>
      c == Refuse(code) || (c.Report? && NotificationCount(c.lo, c.hi) < 1 && code == NotificationError)
    case _ => false
  }

  /** The error the worker is about to report, or has reported. */
  function Verdict(s: State): Option<Code> {
    match s.wpc
    case WSent(n) => if n < 0 then Some(SendingError) else None
    case WExitFlag(flag, code) => if flag then Some(code) else None
    case WExitCode(code) => if s.isError then Some(code) else None
    case WExitUnlock => if s.isError then Some(s.errorCode) else None
    case WExitPublish => if s.isError then Some(s.errorCode) else None
    case WGone => if s.isError then Some(s.errorCode) else None
    case _ => None
  }

  /** A worker step leads to a verdict exactly by a failure, and keeps one that is there. */
  predicate VerdictGoes(s: State, c: WChoice, t: State) {
    && (Verdict(s).Some? ==> Verdict(t) == Verdict(s))
    && (Verdict(s).None? ==> forall code :: Verdict(t) == Some(code) <==> Failure(s, c, code))
  }

  lemma StartsVerdict(s: State, c: WChoice)
    requires ExitInv(s) && WEnabled(s, c)
    requires s.wpc.WStart? || s.wpc.WStarted? || s.wpc.WSetup? || s.wpc.WLoopTest? || s.wpc.WLock?
    ensures VerdictGoes(s, c, WStep(s, c))
  {
    hide KernelSend, Int32, NotificationCount, Range;
  }

  lemma LooksVerdict(s: State, c: WChoice)
    requires ExitInv(s) && WEnabled(s, c)
    requires s.wpc.WCheckList? || s.wpc.WCheckTerm? || s.wpc.WWait? || s.wpc.WAsleep? || s.wpc.WWoken?
    ensures VerdictGoes(s, c, WStep(s, c))
  {
    hide KernelSend, Int32, NotificationCount, Range;
  }

  lemma TakesVerdict(s: State, c: WChoice)
    requires ExitInv(s) && WEnabled(s, c)
    requires s.wpc.WCopy? || s.wpc.WCopying? || s.wpc.WClear? || s.wpc.WUnlock?
    ensures VerdictGoes(s, c, WStep(s, c))
  {
    hide KernelSend, Int32, NotificationCount, Range;
  }

  lemma PacketVerdict(s: State, c: WChoice)
    requires ExitInv(s) && WEnabled(s, c) && s.wpc.WPacket?
    ensures VerdictGoes(s, c, WStep(s, c))
  {
    hide KernelSend, Int32, NotificationCount, Range;
  }

  lemma SendsVerdict(s: State, c: WChoice)
    requires ExitInv(s) && WEnabled(s, c) && s.wpc.WSend? && s.i < |s.copy|
    ensures VerdictGoes(s, c, WStep(s, c))
  {
    SendEffect(s, c);
    hide WStep, WEnabled, Int32, NotificationCount, Range;
  }

  lemma SentVerdict(s: State, c: WChoice)
    requires ExitInv(s) && WEnabled(s, c) && (s.wpc.WSent? || (s.wpc.WSentTerm? && s.i < |s.copy|))
    ensures VerdictGoes(s, c, WStep(s, c))
  {
    hide KernelSend, Int32, NotificationCount, Range;
  }

  lemma NotifiesVerdict(s: State, c: WChoice)
    requires ExitInv(s) && WEnabled(s, c) && (s.wpc.WNotifyTest? || s.wpc.WMarkDone?)
    ensures VerdictGoes(s, c, WStep(s, c))
  {
    hide KernelSend, Int32, NotificationCount, Range;
  }

  lemma PollsVerdict(s: State, c: WChoice)
    requires ExitInv(s) && WEnabled(s, c) && s.wpc.WPoll?
    ensures VerdictGoes(s, c, WStep(s, c))
  {
    hide KernelSend, Int32, NotificationCount, Range;
  }

  lemma ExitsVerdict(s: State, c: WChoice)
    requires ExitInv(s) && WEnabled(s, c) && (s.wpc.WExitFlag? || s.wpc.WExitCode?)
    ensures VerdictGoes(s, c, WStep(s, c))
  {
    hide KernelSend, Int32, NotificationCount, Range;
  }

  lemma GoesVerdict(s: State, c: WChoice)
    requires ExitInv(s) && WEnabled(s, c) && (s.wpc.WExitUnlock? || s.wpc.WExitPublish?)
    ensures VerdictGoes(s, c, WStep(s, c))
  {
    hide KernelSend, Int32, NotificationCount, Range;
  }

  lemma SendingInList(s: State)
    requires WireInv(s) && (s.wpc.WSend? || s.wpc.WSentTerm?)
    ensures s.i < |s.copy|
  {
  }

  lemma WorkerVerdict(s: State, c: WChoice)
    requires Inv(s) && WEnabled(s, c)
    ensures VerdictGoes(s, c, WStep(s, c))
  {
    hide MutexInv, LifeInv, ExitInv, WakeInv, HistoryInv, WireInv, FaithInv, ZcInv, WStep, VerdictGoes;
    match s.wpc
    case WStart => StartsVerdict(s, c);
    case WStarted => StartsVerdict(s, c);
    case WSetup => StartsVerdict(s, c);
    case WLoopTest => StartsVerdict(s, c);
    case WLock => StartsVerdict(s, c);
    case WCheckList => LooksVerdict(s, c);
    case WCheckTerm => LooksVerdict(s, c);
    case WWait => LooksVerdict(s, c);
    case WAsleep => LooksVerdict(s, c);
    case WWoken => LooksVerdict(s, c);
    case WCopy => TakesVerdict(s, c);
    case WCopying => TakesVerdict(s, c);
    case WClear => TakesVerdict(s, c);
    case WUnlock => TakesVerdict(s, c);
    case WPacket => PacketVerdict(s, c);
    case WSend => SendingInList(s); SendsVerdict(s, c);
    case WSent(_) => SentVerdict(s, c);
    case WSentTerm(_) => SendingInList(s); SentVerdict(s, c);
    case WNotifyTest => NotifiesVerdict(s, c);
    case WMarkDone => NotifiesVerdict(s, c);
    case WPoll => PollsVerdict(s, c);
    case WExitFlag(_, _) => ExitsVerdict(s, c);
    case WExitCode(_) => ExitsVerdict(s, c);
    case WExitUnlock => GoesVerdict(s, c);
    case WExitPublish => GoesVerdict(s, c);
  }

  lemma FrameVerdict(s: State, t: State)
    requires MainFrame(s, t)
    ensures Verdict(t) == Verdict(s)
  {
  }

  /** The main thread changes no verdict, and a new session starts without one. */
  lemma MainVerdict(s: State, a: MAction)
    requires Inv(s) && MEnabled(s, a)
    ensures Verdict(MStep(s, a)) == if s.mpc.MIdle? && a.Reset? then None else Verdict(s)
  {
    if s.mpc.MIdle? && a.Reset? {
      hide Inv;
    } else {
      hide MutexInv, LifeInv, ExitInv, WakeInv, HistoryInv, WireInv, FaithInv, ZcInv, MStep, MainFrame, Verdict;
      MainStepFrame(s, a);
      FrameVerdict(s, MStep(s, a));
    }
  }

  // ---------------------------------------------------------------- over runs

  /** Action k of the run is the failure that `code` names. */
  predicate FailsAt(zc: bool, log: seq<Action>, k: nat, code: Code)
    requires k < |log|
  {
    Legal(Init(zc), log[..k]) && log[k].W? && Failure(After(Init(zc), log[..k]), log[k].c, code)
  }

  /** The session in progress at the end of the run holds the failure that `code` names. */
  ghost predicate Caused(zc: bool, log: seq<Action>, code: Code) {
    exists k :: 0 <= k < |log| && FailsAt(zc, log, k, code) && NoReset(log[k..])
  }

  lemma CausedBefore(zc: bool, log: seq<Action>, a: Action, code: Code)
    requires Caused(zc, log, code) && !(a.M? && a.a.Reset?)
    ensures Caused(zc, log + [a], code)
  {
    var k :| 0 <= k < |log| && FailsAt(zc, log, k, code) && NoReset(log[k..]);
    var longer := log + [a];
    assert longer[..k] == log[..k] && longer[k..] == log[k..] + [a];
    assert FailsAt(zc, longer, k, code);
  }

  lemma CausedNow(zc: bool, log: seq<Action>, c: WChoice, code: Code)
    requires Legal(Init(zc), log) && Failure(After(Init(zc), log), c, code)
    ensures Caused(zc, log + [W(c)], code)
  {
    var longer := log + [W(c)];
    assert longer[..|log|] == log && longer[|log|..] == [W(c)];
    assert FailsAt(zc, longer, |log|, code);
  }

  lemma CausedEarlier(zc: bool, log: seq<Action>, a: Action, code: Code)
    requires Legal(Init(zc), log) && Caused(zc, log + [a], code)
    ensures !(a.M? && a.a.Reset?)
    ensures Caused(zc, log, code) || (a.W? && Failure(After(Init(zc), log), a.c, code))
  {
    var longer := log + [a];
    var k :| 0 <= k < |longer| && FailsAt(zc, longer, k, code) && NoReset(longer[k..]);
    assert longer[k..][|log| - k] == a;
    if k < |log| {
      assert longer[..k] == log[..k] && longer[k..][..|log| - k] == log[k..];
      assert FailsAt(zc, log, k, code);
    } else {
      assert longer[..k] == log;
    }
  }

  /** In every run the verdict is the failure that the session holds, and there is none without one. */
  lemma {:induction false} VerdictIsCaused(zc: bool, log: seq<Action>, code: Code)
    requires Legal(Init(zc), log)
    ensures Verdict(After(Init(zc), log)) == Some(code) <==> Caused(zc, log, code)
  {
    hide Inv, Verdict, Failure, WStep, MStep, WEnabled, MEnabled, Caused;
    if log == [] {
      NothingCaused(zc, code);
    } else {
      var n := |log| - 1;
      var before, a := log[..n], log[n];
      assert log == before + [a];
      var s := After(Init(zc), before);
      VerdictIsCaused(zc, before, code);
      InitInv(zc);
      RunKeepsInv(Init(zc), before);
      match a {
        case W(c) => OneVerdictStep(zc, before, c, code);
        case M(m) => OneMainStep(zc, before, m, code);
      }
    }
  }

  lemma NothingCaused(zc: bool, code: Code)
    ensures Verdict(After(Init(zc), [])).None? && !Caused(zc, [], code)
  {
  }

  lemma OneVerdictStep(zc: bool, log: seq<Action>, c: WChoice, code: Code)
    requires Legal(Init(zc), log) && Inv(After(Init(zc), log)) && WEnabled(After(Init(zc), log), c)
    requires Verdict(After(Init(zc), log)) == Some(code) <==> Caused(zc, log, code)
    ensures Verdict(WStep(After(Init(zc), log), c)) == Some(code) <==> Caused(zc, log + [W(c)], code)
  {
    hide Inv, Verdict, Failure, WStep, WEnabled, Caused;
    var s := After(Init(zc), log);
    WorkerVerdict(s, c);
    NoFailureAfterVerdict(s, c, code);
    if Caused(zc, log, code) {
      CausedBefore(zc, log, W(c), code);
    }
    if Failure(s, c, code) {
      CausedNow(zc, log, c, code);
    }
    if Caused(zc, log + [W(c)], code) {
      CausedEarlier(zc, log, W(c), code);
    }
  }

  /** A worker with a verdict does not fail again. */
  lemma NoFailureAfterVerdict(s: State, c: WChoice, code: Code)
    ensures Verdict(s).Some? ==> !Failure(s, c, code)
  {
  }

  lemma OneMainStep(zc: bool, log: seq<Action>, m: MAction, code: Code)
    requires Legal(Init(zc), log) && Inv(After(Init(zc), log)) && MEnabled(After(Init(zc), log), m)
    requires Verdict(After(Init(zc), log)) == Some(code) <==> Caused(zc, log, code)
    ensures Verdict(MStep(After(Init(zc), log), m)) == Some(code) <==> Caused(zc, log + [M(m)], code)
  {
    hide Inv, Verdict, Failure, MStep, MEnabled, Caused;
    var s := After(Init(zc), log);
    MainVerdict(s, m);
    if !m.Reset? && Caused(zc, log, code) {
      CausedBefore(zc, log, M(m), code);
    }
    if Caused(zc, log + [M(m)], code) {
      CausedEarlier(zc, log, M(m), code);
    }
    if m.Reset? {
      ResetOnlyIdle(s, m);
    }
  }

  lemma ResetOnlyIdle(s: State, m: MAction)
    requires MEnabled(s, m) && m.Reset?
    ensures s.mpc.MIdle?
  {
  }

  /**
   * The verdict names what went wrong: when the worker is gone, is_error is up with `code` if and only if
   * its session holds the failure that `code` names.
   */
  lemma ErrorIffFailure(zc: bool, log: seq<Action>, s: State, code: Code)
    requires Reaches(zc, log, s) && s.wpc.WGone?
    ensures s.isError && s.errorCode == code <==> Caused(zc, log, code)
  {
    hide Caused;
    VerdictIsCaused(zc, log, code);
  }
}
