/**
 * The hand-off between the main thread of a sender and its worker thread, as a step relation.
 *
 * One model serves TCPSender (`zc == false`) and TCPSenderZC (`zc == true`): the two sources
 * differ only in the zero-copy counters and the notification loop. Every read or write of a
 * shared variable, every lock operation and every system call is one step, so that any
 * interleaving of the two threads is a sequence of steps. Copying a list and assigning to one take
 * two steps each, so that the one can cut into the other.
 */
module HandOff {
  import opened Packets

  /** Identity of a caller's DataPacketsList object. */
  type ListId = nat

  datatype Code =
    | CpuAffinity | SocketTimeout | SendingError | NotSupported | NoError | SocketBuffers
    | PollError | RecvError | NotificationError

  datatype Holder = Free | ByMain | ByWorker

  /** Program points of the worker; a point names the action the worker takes next. */
  datatype WorkerPc =
    | WNone                           // no thread was created in this session
    | WStart                          // is_terminated_thread = false
    | WStarted                        // thread_initialized = true
    | WSetup                          // affinity and socket options
    | WLoopTest                       // while(!terminate_thread)
    | WLock                           // lock_block
    | WCheckList                      // while(packets_list == NULL)
    | WCheckTerm                      // if(terminate_thread)
    | WWait                           // pthread_cond_wait: release and sleep
    | WAsleep                         // asleep on the condition variable
    | WWoken                          // pthread_cond_wait: re-acquire
    | WCopy                           // data_to_be_sent = *packets_list: begin
    | WCopying                        // data_to_be_sent = *packets_list: the packets are read
    | WClear                          // packets_list = NULL
    | WUnlock                         // unlock
    | WPacket                         // for test, and the choice on data_ptr_type
    | WSend                           // while(remaining_data != 0), and the system call
    | WSent(n: int)                   // error test on the result
    | WSentTerm(n: int)               // termination test, then the state update
    | WNotifyTest                     // while(last_sending_counter < sending_counter)
    | WPoll                           // poll, recvmsg, read_notification_zc
    | WMarkDone                       // is_done = true
    | WExitFlag(flag: bool, code: Code) // END_THREAD_ERROR: is_error = flag
    | WExitCode(code: Code)           // error_code = code
    | WExitUnlock                     // ~MutexRAII
    | WExitPublish                    // ~AtomicValRAII: is_terminated_thread = true
    | WGone
    | WFault                          // a read of memory that is not live: the model ends here

  /** Program points of the main thread inside the sender; `MIdle` is client code. */
  datatype MainPc =
    | MIdle
    | MAssign(id: ListId, l: PacketList) // client: inside an assignment to a list object
    | MSendAlive(id: ListId)          // send: worker seen alive, is_done not yet read
    | MSendChecked(id: ListId)        // send: is_done seen true
    | MSendLocked(id: ListId)
    | MSendListed                     // packets_list = list written
    | MSendLowered                    // is_done = false written
    | MSendSignalled
    | MEndAlive                       // end_sender: worker seen alive
    | MEndTerm                        // terminate_thread = true written
    | MEndLocked
    | MEndCleared                     // packets_list = NULL written
    | MEndLowered                     // is_done = false written
    | MEndSignalled
    | MEndWait                        // polling is_terminated_thread
    | MInitWait                       // initialize: polling thread_initialized

  datatype State = State(
    zc: bool,
    // SenderWorkerData
    packetsList: Option<ListId>,
    isDone: bool,
    isError: bool,
    terminate: bool,
    threadInit: bool,
    isTerminated: bool,
    errorCode: Code,
    mutex: Holder,
    // the main thread
    mpc: MainPc,
    initialized: bool,
    heap: map<ListId, PacketList>,
    // the worker thread
    wpc: WorkerPc,
    wlocked: bool,                    // is_locked_ of the worker's MutexRAII
    copy: PacketList,                 // data_to_be_sent
    i: nat,
    cursor: int,                      // data_sent, or the file offset
    remaining: int,
    sendingCounter: int,
    lastCounter: int,
    // the kernel, per session
    wire: seq<Byte>,
    calls: nat,                       // send and sendfile calls that returned
    issued: nat,                      // zero-copy ids handed out: 0..issued
    reported: set<nat>,               // zero-copy ids reported as released
    // history, per session
    posted: seq<PacketList>,          // contents of each accepted list when it was accepted
    taken: seq<PacketList>,           // contents of each list when the worker copied it
    overwritten: bool,                // an accepted list was changed before the worker copied it
    freed: bool,                      // an accepted list was destroyed before the worker copied it
    torn: bool                        // an accepted list was assigned to while the worker copied it
  )

  /** The result of a system call, or `Proceed` where the step has only one outcome. */
  datatype WChoice = Proceed | Refuse(code: Code) | Returned(n: int) | Report(lo: nat, hi: nat)

  datatype MAction =
    | Write(id: ListId, l: PacketList)  // client: begin to assign to (or create) a list object
    | Destroy(id: ListId)               // client: destroy a list object
    | BeginSend(id: ListId)             // send, up to the is_terminated_thread test
    | BeginEnd                          // end_sender, up to the is_terminated_thread test
    | Reset(spawned: bool)              // initialize: reset, connect and perhaps create the thread
    | Advance                           // the next statement of the call in progress

  datatype Action = W(c: WChoice) | M(a: MAction)

  // ---------------------------------------------------------------- 32-bit counters

  const TWO31: nat := 0x8000_0000
  const TWO32: nat := 0x1_0000_0000

  /** Conversion to a 32-bit int, two's complement. */
  function Int32(x: int): int {
    (x + TWO31) % TWO32 - TWO31
  }

  /** read_notification_zc: ee_data - ee_info + 1 in 32-bit unsigned arithmetic, then an int. */
  function NotificationCount(lo: nat, hi: nat): int {
    Int32((hi % TWO32 - lo % TWO32 + 1) % TWO32)
  }

  /** The ids lo..hi, both included. */
  function Range(lo: nat, hi: int): (r: set<nat>)
    ensures forall k :: k in r <==> lo <= k <= hi
    decreases hi - lo + 1
  {
    if hi < lo then {} else Range(lo, hi - 1) + {hi}
  }

  // ---------------------------------------------------------------- initial state

  function Init(zc: bool): State {
    State(zc, None, true, false, false, false, true, CpuAffinity, Free,
          MIdle, false, map[],
          WNone, false, [], 0, 0, 0, 0, 0,
          [], 0, 0, {}, [], [], false, false, false)
  }

  /** A list is accepted and has not been copied. */
  predicate Untaken(s: State) {
    s.packetsList.Some? && !s.wpc.WClear?
  }

  /** The worker is on its way out and will not touch the slot again. */
  predicate Leaving(w: WorkerPc) {
    w.WExitFlag? || w.WExitCode? || w.WExitUnlock? || w.WExitPublish? || w.WGone? || w.WFault?
  }

  /** The worker may still read the accepted list object. */
  predicate MayCopy(s: State) {
    Untaken(s) && !Leaving(s.wpc)
  }

  /** The client is inside an assignment to the object in the slot. */
  predicate Assigning(s: State) {
    s.mpc.MAssign? && s.packetsList == Some(s.mpc.id)
  }

  /** The worker has not been made to read memory that is not live. */
  predicate Defined(s: State) {
    !s.freed && !s.torn
  }

  /** No accepted list was changed, destroyed or assigned to under the worker's copy. */
  predicate Intact(s: State) {
    !s.overwritten && Defined(s)
  }

  // ---------------------------------------------------------------- worker steps

  predicate WEnabled(s: State, c: WChoice) {
    match s.wpc
    case WNone => false
    case WGone => false
    case WFault => false
    case WSetup => c.Proceed? || (c.Refuse? && c.code in {CpuAffinity, SocketTimeout, SocketBuffers})
    case WLock => c.Proceed? && s.mutex.Free?
    case WWoken => c.Proceed? && s.mutex.Free?
    case WSend => if s.remaining == 0 then c.Proceed? else c.Returned? && c.n <= s.remaining
    case WPoll =>
      || (c.Refuse? && c.code in {PollError, RecvError, NotificationError})
      || (c.Report? && c.lo <= c.hi < s.issued && Range(c.lo, c.hi) !! s.reported)
    case _ => c.Proceed?
  }

  function WStep(s: State, c: WChoice): State
    requires WEnabled(s, c)
  {
    match s.wpc
    case WStart => s.(isTerminated := false, wpc := WStarted)
    case WStarted => s.(threadInit := true, wpc := WSetup)
    case WSetup =>
      s.(sendingCounter := if c.Refuse? then s.sendingCounter else 0,
         lastCounter := if c.Refuse? then s.lastCounter else 0,
         wpc := if c.Refuse? then WExitFlag(true, c.code) else WLoopTest)
    case WLoopTest =>
      s.(wlocked := !s.terminate,
         wpc := if s.terminate then WExitFlag(false, NoError) else WLock)
    case WLock => s.(mutex := ByWorker, wpc := WCheckList)
    case WCheckList => s.(wpc := if s.packetsList.None? then WCheckTerm else WCopy)
    case WCheckTerm => s.(wpc := if s.terminate then WExitFlag(false, NoError) else WWait)
    case WWait => s.(mutex := Free, wpc := WAsleep)
    case WAsleep => s.(wpc := WWoken)
    case WWoken => s.(mutex := ByWorker, wpc := WCheckList)
    case WCopy => s.(torn := s.torn || Assigning(s), wpc := WCopying)
    case WCopying =>
      var live := !s.torn && s.packetsList.Some? && s.packetsList.value in s.heap;
      var l := if live then s.heap[s.packetsList.value] else [];
      s.(copy := l, taken := if live then s.taken + [l] else s.taken, wpc := if live then WClear else WFault)
    case WClear => s.(packetsList := None, wpc := WUnlock)
    case WUnlock => s.(mutex := Free, wlocked := false, i := 0, wpc := WPacket)
    case WPacket =>
      var known := s.i < |s.copy| && !s.copy[s.i].kind.Unknown?;
      s.(cursor := if known then s.copy[s.i].offset else s.cursor,
         remaining := if known then s.copy[s.i].size else s.remaining,
         wpc := if known then WSend
                else if s.i < |s.copy| then WExitFlag(true, NotSupported)
                else if s.zc then WNotifyTest
                else WMarkDone)
    case WSend =>
      if s.remaining == 0 then s.(i := s.i + 1, wpc := WPacket) else KernelSend(s, c.n)
    case WSent(n) => s.(wpc := if n < 0 then WExitFlag(true, SendingError) else WSentTerm(n))
    case WSentTerm(n) =>
      var ok := s.i < |s.copy|;
      s.(cursor := if !s.terminate && ok && s.copy[s.i].kind.MemoryLocation? then s.cursor + n else s.cursor,
         remaining := if !s.terminate then s.remaining - n else s.remaining,
         wpc := if s.terminate then WExitFlag(false, NoError) else if ok then WSend else WFault)
    case WNotifyTest => s.(wpc := if s.lastCounter < s.sendingCounter then WPoll else WMarkDone)
    case WPoll =>
      var ret := if c.Report? then NotificationCount(c.lo, c.hi) else -1;
      s.(reported := if c.Report? then s.reported + Range(c.lo, c.hi) else s.reported,
         lastCounter := if ret < 1 then s.lastCounter else Int32(s.lastCounter + ret),
         wpc := if c.Refuse? then WExitFlag(true, c.code)
                else if ret < 1 then WExitFlag(true, NotificationError)
                else WNotifyTest)
    case WMarkDone => s.(isDone := true, wpc := WLoopTest)
    case WExitFlag(flag, code) => s.(isError := flag, wpc := WExitCode(code))
    case WExitCode(code) => s.(errorCode := code, wpc := WExitUnlock)
    case WExitUnlock => s.(mutex := if s.wlocked then Free else s.mutex, wlocked := false, wpc := WExitPublish)
    case WExitPublish => s.(isTerminated := true, wpc := WGone)
  }

  /**
   * send(..., MSG_ZEROCOPY or 0) from memory, or sendfile: the kernel puts the bytes at the
   * cursor on the wire; sendfile also advances the offset. A read outside the buffer faults.
   */
  function KernelSend(s: State, n: int): State {
    var inList := s.i < |s.copy|;
    var counted := s.zc && inList && s.copy[s.i].kind.MemoryLocation?;
    var within := inList && 0 <= s.cursor <= s.cursor + n <= |s.copy[s.i].data|;
    s.(calls := s.calls + 1,
       sendingCounter := if counted then Int32(s.sendingCounter + 1) else s.sendingCounter,
       wire := if within then s.wire + s.copy[s.i].data[s.cursor..s.cursor + n] else s.wire,
       cursor := if within && s.copy[s.i].kind.FileDescriptor? then s.cursor + n else s.cursor,
       issued := if counted && 0 <= n then s.issued + 1 else s.issued,
       wpc := if inList && (n < 0 || within) then WSent(n) else WFault)
  }

  // ---------------------------------------------------------------- main thread steps

  predicate MEnabled(s: State, a: MAction) {
    match s.mpc
    case MIdle =>
      (match a
       case Write(_, _) => true
       case Destroy(id) => id in s.heap
       case BeginSend(id) => id in s.heap && s.initialized && !s.isTerminated
       case BeginEnd => true
       case Reset(_) => !s.initialized && s.isTerminated
       case Advance => false)
    case MSendChecked(_) => a.Advance? && s.mutex.Free?
    case MEndTerm => a.Advance? && s.mutex.Free?
    case _ => a.Advance?
  }

  function MStep(s: State, a: MAction): State
    requires MEnabled(s, a)
  {
    match s.mpc
    case MIdle =>
      (match a
       case Write(id, l) =>
         s.(torn := s.torn || (s.wpc.WCopying? && s.packetsList == Some(id)), mpc := MAssign(id, l))
       case Destroy(id) =>
         s.(heap := s.heap - {id},
            freed := s.freed || (MayCopy(s) && s.packetsList.value == id))
       case BeginSend(id) => s.(mpc := MSendAlive(id))
       case BeginEnd => s.(initialized := false, mpc := if s.isTerminated then MIdle else MEndAlive)
       case Reset(spawned) => ResetState(s, spawned))
    case MAssign(id, l) =>
      s.(heap := s.heap[id := l],
         overwritten := s.overwritten ||
           (MayCopy(s) && s.packetsList.value == id && (id !in s.heap || s.heap[id] != l)),
         mpc := MIdle)
    case MSendAlive(id) => s.(mpc := if s.isDone then MSendChecked(id) else MIdle)
    case MSendChecked(id) => s.(mutex := ByMain, mpc := MSendLocked(id))
    case MSendLocked(id) =>
      s.(packetsList := Some(id), mpc := MSendListed,
         posted := s.posted + [if id in s.heap then s.heap[id] else []])
    case MSendListed => s.(isDone := false, mpc := MSendLowered)
    case MSendLowered => s.(wpc := Signalled(s.wpc), mpc := MSendSignalled)
    case MSendSignalled => s.(mutex := Free, mpc := MIdle)
    case MEndAlive => s.(terminate := true, mpc := MEndTerm)
    case MEndTerm => s.(mutex := ByMain, mpc := MEndLocked)
    case MEndLocked => s.(packetsList := None, mpc := MEndCleared)
    case MEndCleared => s.(isDone := false, mpc := MEndLowered)
    case MEndLowered => s.(wpc := Signalled(s.wpc), mpc := MEndSignalled)
    case MEndSignalled => s.(mutex := Free, mpc := MEndWait)
    case MEndWait => s.(mpc := if s.isTerminated then MIdle else MEndWait)
    case MInitWait => s.(initialized := s.threadInit, mpc := if s.threadInit then MIdle else MInitWait)
  }

  /** pthread_cond_signal: wakes the worker if it is asleep, and is lost otherwise. */
  function Signalled(w: WorkerPc): WorkerPc {
    if w.WAsleep? then WWoken else w
  }

  /** initialize after its end_sender: no worker runs, so the writes are taken as one step. */
  function ResetState(s: State, spawned: bool): State {
    Init(s.zc).(heap := s.heap,
                wpc := if spawned then WStart else WNone,
                mpc := if spawned then MInitWait else MIdle)
  }

  // ---------------------------------------------------------------- runs

  predicate Enabled(s: State, a: Action) {
    match a
    case W(c) => WEnabled(s, c)
    case M(m) => MEnabled(s, m)
  }

  function Step(s: State, a: Action): State
    requires Enabled(s, a)
  {
    match a
    case W(c) => WStep(s, c)
    case M(m) => MStep(s, m)
  }

  /** The actions of `log` can be taken one after the other from `s`. */
  predicate Legal(s: State, log: seq<Action>)
    decreases |log|, 0
  {
    log == [] ||
    (Legal(s, log[..|log| - 1]) && Enabled(After(s, log[..|log| - 1]), log[|log| - 1]))
  }

  /** The state that the run `log` from `s` ends in. */
  function After(s: State, log: seq<Action>): State
    requires Legal(s, log)
    decreases |log|, 1
  {
    if log == [] then s else Step(After(s, log[..|log| - 1]), log[|log| - 1])
  }

  lemma LegalSnoc(s: State, log: seq<Action>, a: Action)
    requires Legal(s, log) && Enabled(After(s, log), a)
    ensures Legal(s, log + [a]) && After(s, log + [a]) == Step(After(s, log), a)
  {
    assert (log + [a])[..|log|] == log;
  }

  lemma {:induction false} LegalPrefix(s: State, log: seq<Action>, k: nat)
    requires Legal(s, log) && k <= |log|
    ensures Legal(s, log[..k])
  {
    if k < |log| {
      LegalPrefix(s, log[..|log| - 1], k);
      assert log[..|log| - 1][..k] == log[..k];
    } else {
      assert log[..k] == log;
    }
  }

  lemma {:induction false} LegalConcat(s: State, one: seq<Action>, two: seq<Action>)
    requires Legal(s, one) && Legal(After(s, one), two)
    ensures Legal(s, one + two) && After(s, one + two) == After(After(s, one), two)
  {
    if two == [] {
      assert one + two == one;
    } else {
      var m := |two| - 1;
      LegalConcat(s, one, two[..m]);
      assert (one + two)[..|one + two| - 1] == one + two[..m];
    }
  }
}
