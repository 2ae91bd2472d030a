# Real-time data transfer: the hand-off, the ticks and the run loop

The program sends, at a fixed frequency, the packets a user function hands it. A *timer* puts the
process to sleep until the next tick. A *sender* owns a worker thread that writes lists of packets to a
TCP socket. A *system* asks the user function for one list per slot, gives it to the sender, and sleeps.
This project models the three and proves what they guarantee together.

| file | contents |
|---|---|
| `Packets.dfy` | packets, lists of packets, and the bytes they put on the wire |
| `HandOff.dfy` | `TCPSender` and `TCPSenderZC` as a step relation of two threads, the kernel and the client |
| `HandOffInvariant.dfy` | the invariant of that relation, in eight parts, and its preservation by every step |
| `HandOffTheorems.dfy` | stream fidelity, publication of `is_done` and of termination, wake-ups, zero copy |
| `HandOffProgress.dfy` | bounded shutdown and bounded delivery |
| `HandOffVerdict.dfy` | `is_error` and `error_code`: exactly the failure that the session holds |
| `HandOffWithdrawal.dfy` | what `end_sender` takes back: a list not copied by then is never copied or sent |
| `HandOffOverwrite.dfy` | assigning to a list that is waiting to be copied: exactly when it is safe |
| `HandOffRuns.dfy` | concrete runs in which something goes wrong |
| `Sender.dfy` | the methods of the main thread, with the worker moving between their statements |
| `Worker.dfy` | the worker function, with the main thread moving between its statements |
| `TimeArithmetic.dfy` | 64-bit unsigned conversions, `TIMESPEC_DIFF_NS`, `ADD_NS_TO_TIMESPEC` |
| `TickSpec.dfy` | which deadline follows which, the closed form of the n-th deadline, drift |
| `Clock.dfy` | a monotone clock, and the sleeps built on it |
| `Timers.dfy` | `BusyWaitTimer`, `FreeWaitTimer`, `WorstCaseTimer` |
| `RunLog.dfy` | the calls of the user function in one run, and what they add up to |
| `System.dfy` | `RealTimeSystem`: setters, `initialize`, `send_before_run`, `run` |

## How the model is built

**Hand-off.** `HandOff.State` holds the shared variables, both program counters, the worker's locals, the
kernel's books (`wire`, issued and reported zero-copy ids) and the history of the session (`posted`: what
was accepted, `taken`: what the worker copied). Each access to a shared variable, each lock operation and
each system call is a step of its own. A run is a sequence of worker, main-thread and client actions, and
every theorem of the hand-off is about all runs. A session goes from one `initialize` to the next.

`Sender.TcpSender` has the source's fields. Each statement of `send`, `end_sender` and `initialize` assigns
to them, and `Executed` demands that the fields then agree with the step relation; between any two
statements `Interfere` lets the worker take any number of steps with any results. `Worker.TcpWorker` is the
mirror image for `tcp_worker_function`: its locals are fields, its loops are the source's loops. So the
relation is tied to the statements of both threads. `TcpSender.world` and `TcpWorker.world` carry
the rest of the system.

A list of packets is an object with an identity (`ListId`), because the sender keeps the caller's pointer.
Assigning to a list and copying one take two steps each, so that the one can cut into the other: the
assignment frees the packets that the worker is reading. Three flags record what can spoil a session:
`overwritten` (an accepted list was changed before the worker copied it), `freed` (it was destroyed before)
and `torn` (it was assigned to while the worker copied it, whatever the contents). After `freed` or `torn` the
worker reads dead memory. That read is the program point `WFault`, where the model of the worker ends, because
the behaviour of the source is undefined from there on. `Defined` says that neither happened, `Intact` that none
of the three did.

**Time.** `Clock.MonotonicClock` gives readings that never decrease; `nanosleep` may return early or late. Ghost fields
keep every reading, every request to `nanosleep` and every call of `nanoseconds_sleep`.
Timers are classes with the source's fields, and all three are proved against one predicate,
`Timers.TickOutcome`, over the tick state `TickSpec.Tick`; how each waits is stated over those ghost fields.

**System.** `RealTimeSystem.Run` returns its calls of the user function as a log (`RunLog.Call`), and the naps,
polls, call and tick sleep of each turn of its loop (`RunLog.CallTurn`), which the clock's diary records. Theorems about a run
are about that log, the turns, the sender's history and the clock. The worker moves while the user function runs,
while the list variable is assigned to, and while the timer sleeps. A run in which the assignment tears a copy is
followed up to there and ends as `Torn`.

## Assumptions

- Atomics are sequentially consistent, and the mutex and condition variable follow POSIX, with spurious wake-ups.
- `send` and `sendfile` return an error or a count from 0 to the bytes asked for, and put exactly those bytes on
  the wire; `sendfile` moves its offset by that count. A memory send with `MSG_ZEROCOPY` takes one id unless
  it fails. The kernel reports ranges of issued ids, each id at most once.
- The slice of a packet lies inside its buffer, and buffers do not change while they are being sent.
- The hand-written destructor calls of `END_THREAD_ERROR` followed by `pthread_exit`
  (src/senders/tcp_sender.cpp:5-10) write `is_terminated_thread` once.
- When `end_sender` or `initialize` polls, or the main thread waits for the mutex, a worker that can move gets
  at least one step. When the worker waits for the mutex, a main thread that holds it gets its next step.
- No reading of the clock comes 2^62 ns or more after the one before, and only finitely many readings in a row
  show the same instant. 64-bit wrap-around itself is modelled; statements that need an elapsed time below 2^64 ns
  say so.
- The zero-copy counters are 32-bit; `ZeroCopyComplete` is for sessions of fewer than 2^31 zero-copy sends.
- `SetFrequency` of a timer needs a frequency other than 0: the source divides by it.

## Where the code differs from its documentation

- The delay told to the user function is documented in milliseconds
  (includes/real_time_system.h). A skipped slot passes milliseconds (src/systems/real_time_system.cpp:205), any other
  slot passes naps of half a millisecond (:226). `DelayInMillisecondsIff` proves that the documented unit is right if and
  only if the slot is skipped or took no nap. `HalfMillisecondTold` gives a turn where it is not.
- `send_before_run` promises that true means sent. The result of the sender's `send` is not looked at
  (:120). A true return has the list on the wire if and only if, in the two states of the run in which `send` reads them,
  is_terminated_thread was down and is_done was up (`Asked.Accepts`, with `Asked.During` placing the states on the run).
  Before the call, that is sure if and only if the worker is set up and waits for a list (`SendIsSureIff`). Otherwise
  an earlier list may be unfinished, the worker gone (then true is returned with nothing sent), or still setting up its
  socket (then either can happen): `ReadyCases`, with `DeadSenderLooksDone`, `StartingGoesEitherWay` and
  `LeavingAccepts` as reachable instances.
- A failing `initialize` leaves `initialized_` as it was, true included (:64-109).
- "1 ns each 2^23 ticks" (src/timers/busy_wait_timer.cpp:78-80) is exact for every deadline if and only if the
  frequency divides 10^9. Otherwise the truncated period also loses up to 1 ps a tick.
- In skip mode `run` assigns to the list that may still wait in the slot (:207). That is safe if and only if the worker
  can no longer copy the list when the assignment begins (`AssignmentIsSafeIff`). Otherwise the assignment can cut into the
  copy, also for equal contents (`EqualContentsFault`). If it does not, the lists taken are the lists accepted if and
  only if the contents are equal (`OverwriteIff`).
- `start_timer` does not ask for a frequency, and the frequency check is the timer's alone.

## Model

| member | source | states |
|---|---|---|
| HandOffInvariant.StepKeepsInv | src/senders/tcp_sender.cpp:20-131 | each step of either thread keeps the whole invariant |
| HandOffInvariant.RunKeepsInv | src/senders/tcp_sender_zc.cpp:39-198 | so does every run of any length, for both senders |
| HandOffInvariant.CountExact | src/senders/tcp_sender_zc.cpp:36 | the 32-bit count of a notification is the number of ids it reports, below 2^31 |
| HandOffInvariant.WorkerPollsZc | src/senders/tcp_sender_zc.cpp:148-190 | a notification keeps the counter equal to the number of distinct ids reported |
| HandOffTheorems.StreamFidelity | src/senders/tcp_sender.cpp:57-128 | under every interleaving and any short writes the wire is a prefix of the lists taken, in order, and, while the session is intact, of the lists accepted; at most one accepted list waits |
| HandOffTheorems.DoneMeansDelivered | src/senders/tcp_sender.cpp:126-128 | is_done up means an empty slot, a worker between lists, everything taken on the wire, and, while the session is intact, every accepted byte |
| HandOffTheorems.NoFault | src/senders/tcp_sender.cpp:73-75 | the worker reads dead memory only if an accepted list was destroyed before, or assigned to while, it was copied |
| HandOffTheorems.MutualExclusion | src/utils/mutex_raii.cpp:6-30 | never are both threads in their critical sections, and a sleeping or finished worker holds no lock |
| HandOffTheorems.NoLostWakeup | src/senders/tcp_sender.cpp:62-77 | the worker sleeps on a waiting list or a shutdown only before the signal that announces it |
| HandOffTheorems.ZeroCopyComplete | src/senders/tcp_sender_zc.cpp:148-194 | is_done up means that the kernel has released every id it ever issued |
| HandOffTheorems.TerminatedMeansGone | includes/atomic_val_raii.h:38-41 | is_terminated_thread seen outside the start of a session means no worker can act and the mutex is not the worker's |
| HandOffTheorems.VerdictIsFinal | src/senders/tcp_sender.cpp:5-10 | from then to the next session is_error, error_code, the wire and the kernel's books never change again |
| HandOffTheorems.ReadyAndGoneHasError | src/senders/tcp_sender.cpp:318-344 | send takes neither the "No Thread Available" nor the "Unknown error" branch |
| HandOffVerdict.VerdictIsCaused | src/senders/tcp_sender_zc.cpp:39-198 | in every run, and from the failure on, the verdict that the worker carries to its end or has stored is the failure that the session holds, and there is none without one |
| HandOffVerdict.ErrorIffFailure | src/senders/tcp_sender.cpp:5-123 | a finished worker reports an error code if and only if the session holds the failure that this code names: an option that could not be set, a call on the socket below 0, a packet of unknown type, or a notification that failed or counted nothing |
| HandOffProgress.ShutdownIsBounded | src/senders/tcp_sender_zc.cpp:78-198 | after terminate_thread the worker takes at most ShutdownRank more steps and completes at most one more socket call, whatever the main thread does |
| HandOffProgress.ShutdownNeverStuck | src/senders/tcp_sender.cpp:386-388 | while end_sender polls, the worker is neither asleep nor blocked |
| HandOffProgress.DeliveryIsBounded | src/senders/tcp_sender.cpp:57-128 | an accepted list is delivered or given up within DeliveryRank worker steps that make progress, whatever refused sends and changes to other lists the main thread puts between them |
| HandOffProgress.DeliveryNeverStuck | src/senders/tcp_sender.cpp:355-361 | after send has returned, the worker can move until then, without a spurious wake-up |
| HandOffWithdrawal.EndSenderWithdraws | src/senders/tcp_sender.cpp:377-388 | from the statement of end_sender that empties the slot, along every run up to the next session, no list is copied any more; a worker between lists then sends nothing at all |
| HandOffOverwrite.WorkerCopiesObject | src/senders/tcp_sender.cpp:73-75 | after an assignment to a waiting list began, the copy is torn, or the worker takes the new contents and nothing else |
| HandOffOverwrite.OverwriteIff | src/systems/real_time_system.cpp:203-222 | when the assignment does not cut into the copy, the lists taken are the lists accepted if and only if the contents are equal |
| HandOffOverwrite.AssignmentIsSafeIff | src/systems/real_time_system.cpp:203-222 | whatever its contents, an assignment has no continuation with a read of dead memory or a list not accepted, if and only if the worker can no longer copy the object when it begins |
| HandOffRuns.OverwriteReachesWire | src/systems/real_time_system.cpp:207 | a concrete run in which an overwritten list reaches the wire |
| HandOffRuns.EqualContentsFault | includes/data_packets.h:80-98 | a concrete run in which an assignment of equal contents makes the worker read dead memory |
| HandOffRuns.DeadSenderLooksDone | src/systems/real_time_system.cpp:119-142 | a reachable sender that is ready and done with its worker gone |
| HandOffRuns.StartingGoesEitherWay | src/senders/tcp_sender.cpp:33-55 | a ready and done sender in set-up, which the worker alone can take to waiting or to leaving |
| HandOffRuns.LeavingAccepts | src/senders/tcp_sender.cpp:346-361 | a run in which a leaving worker's sender accepts a list that is never copied |
| Sender.HolderMoves | src/utils/mutex_raii.cpp:10-13 | a blocked main thread waits for at most five worker steps |
| Sender.TcpSender.Send | src/senders/tcp_sender.cpp:309-363 | the list is accepted if and only if both tests pass in the states of the run in which they read, and otherwise the history is untouched; which refusal means what, and that a worker error names a failure of the session; a waiting worker means acceptance, a finished one a specific error |
| Sender.SendIsSureIff | src/senders/tcp_sender.cpp:317-350 | in a ready sender both tests pass wherever the worker may have moved, if and only if the worker is set up and waits for a list |
| Sender.ReadyCases | src/senders/tcp_sender.cpp:309-350 | a ready and done sender has a waiting worker, a finished one, or one in set-up, and only one of them |
| Sender.TcpSender.IsSendDone | src/senders/tcp_sender_zc.cpp:442-444 | reads is_done and moves nothing |
| Sender.TcpSender.EndSender | src/senders/tcp_sender.cpp:369-389 | terminates, with the worker gone, also when the worker moves before the call looks; a list not copied when the slot was emptied is never copied or sent, and the caller's lists can be destroyed; the verdict of a worker that was gone stays |
| Sender.TcpSender.Initialize | src/senders/tcp_sender.cpp:214-307 | a fresh session: nothing accepted, is_done up, no error unless the new worker is leaving, and ready if and only if the thread was created |
| Sender.TcpSender.AwaitLock | src/utils/mutex_raii.cpp:10-13 | the wait for the mutex ends |
| Sender.TcpSender.AwaitTermination | src/senders/tcp_sender_zc.cpp:463-465 | the wait for is_terminated_thread ends |
| Sender.TcpSender.AwaitWorker | src/senders/tcp_sender.cpp:300-305 | the wait for thread_initialized ends |
| Sender.TcpSender.Assign | includes/data_packets.h:80-98 | an assignment with the worker moving inside it: nothing is spoiled unless the worker could copy the object when it began |
| Worker.TcpWorker.WorkerFunction | src/senders/tcp_sender_zc.cpp:39-198 | the statements form a legal run of the step relation whatever the main thread and its client do, for as many statements as are observed or until the thread is gone with its verdict: the code of the failure that the session holds, or a requested stop; or it read a list that was destroyed or assigned to |
| Worker.TcpWorker.SendPackets | src/senders/tcp_sender.cpp:81-124 | the for loop appends exactly the bytes of the copied list to the wire, unless the thread ends or the observation does |
| Worker.TcpWorker.AwaitNotifications | src/senders/tcp_sender_zc.cpp:148-190 | the notification loop ends and moves no byte |
| Worker.TcpWorker.AwaitList | src/senders/tcp_sender.cpp:64-72 | the wait ends in front of a list, or with the thread gone, or with the observation |
| Worker.TcpWorker.FinishCopy | src/senders/tcp_sender.cpp:73-74 | the slot's list is copied whole, unless it was destroyed or an assignment cut into the copy |
| Worker.TcpWorker.EndThread | src/senders/tcp_sender.cpp:5-10 | END_THREAD_ERROR leaves the worker gone with exactly the flag and the code it was given |
| TimeArithmetic.SecToNsExact | includes/timers_utils.h:20-22 | the chained products wrap like one product |
| TimeArithmetic.DiffExact | includes/timers_utils.h:54-55 | TIMESPEC_DIFF_NS is the true difference modulo 2^64, for any two timespecs |
| TimeArithmetic.AddExact | includes/timers_utils.h:57-59 | ADD_NS_TO_TIMESPEC moves the instant by exactly ns and keeps tv_nsec below 10^9 |
| TimeArithmetic.AddThenDiff | includes/timers_utils.h:54-59 | adding and then differencing gives ns back |
| TickSpec.ProductFits | src/timers/busy_wait_timer.cpp:89-91 | period times counter never reaches 2^64 |
| TickSpec.NextTickGood | src/timers/busy_wait_timer.cpp:73-91 | a tick keeps the counter in 1..2^23, and a re-base moves start_time_ to the deadline |
| TickSpec.ClosedForm | src/timers/busy_wait_timer.cpp:46-91 | after n ticks the timer sleeps to T(n + 1), across any number of re-bases |
| TickSpec.FirstDeadlines | src/timers/busy_wait_timer.cpp:46-91 | up to tick 8388608 the deadline is n periods rounded down, plus 1 ns; the next tick starts from it |
| TickSpec.DeadlineGap | src/timers/free_wait_timer.cpp:80-89 | consecutive deadlines are one period apart, rounded down or up, also across a re-base |
| TickSpec.DriftBound | src/timers/worst_case_timer.cpp:85-103 | n periods - n/1000 ns < T(n) <= n periods + one ns for each re-base + 1, multiplied out by 1000 f |
| TickSpec.RebaseErrorIff | src/timers/busy_wait_timer.cpp:73-81 | the error is exactly 1 ns for each re-base, for all deadlines, if and only if the frequency divides 10^9 |
| Clock.NanosecondsSleep | src/timers/timers_utils.cpp:10-29 | never early, however often nanosleep is cut short; each request is a valid timespec for exactly the time left, and the clock is read once more after each |
| Clock.MillisecondsSleep | src/timers/timers_utils.cpp:35-37 | sleeps at least the milliseconds asked for, each request being the time left of them; their conversion is exact below 2^64 ns |
| Clock.MicrosecondsSleep | src/timers/timers_utils.cpp:31-33 | the same for microseconds |
| Timers.CallsFollowDeadlines | src/timers/busy_wait_timer.cpp:58-94 | after n successful ticks, tick n succeeds if and only if its first reading is at most T(n + 1) after the start, and returns at or after it |
| Timers.LateForever | src/timers/free_wait_timer.cpp:60-66 | after a failed tick every later one fails and the state stays, until a restart |
| Timers.TimersAgree | src/timers/worst_case_timer.cpp:59-106 | any two timers from the same state, with the same readings at entry, succeed and fail together and pass through the same states |
| Timers.BusyWaitTimer.SleepToNextTick | src/timers/busy_wait_timer.cpp:58-94 | the busy wait meets TickOutcome: decided by the first reading, back at or after the deadline, next state as specified; it never naps, and reads the clock again only before the deadline |
| Timers.FreeWaitTimer.SleepToNextTick | src/timers/free_wait_timer.cpp:58-92 | so does the blocking timer; it asks once for a sleep of exactly what was left of the tick at its first reading, and for none when late |
| Timers.WorstCaseTimer.SleepToNextTick | src/timers/worst_case_timer.cpp:59-106 | so does the blocking and then spinning timer; it asks for a sleep of what was left less the worst delay, if as much was left, and otherwise only spins |
| Timers.WorstCaseTimer.BlockThenSpin | src/timers/worst_case_timer.cpp:70-83 | neither subtraction wraps, both branches reach the deadline, and which one is taken and how long it blocks is decided by what was left |
| Timers.NapsAimAtDeadline | src/timers/free_wait_timer.cpp:68-69 | each nap of a blocking timer is at most what was left, and aims at the deadline less the worst delay, moved only by the time between its first two readings |
| Timers.WorstCaseTimer.StartTimer | src/timers/worst_case_timer.cpp:35-53 | fails if and only if the timer runs already; otherwise the first deadline is one period after now |
| Timers.FreeWaitTimer.SetFrequency | src/timers/free_wait_timer.cpp:17-28 | accepts exactly the frequencies up to 100, and a refusal changes nothing |
| RunLog.DeliveriesAndSkips | src/systems/real_time_system.cpp:213-224 | served calls are deliveries or skips, and nothing else |
| RunLog.StreakIsTail | src/systems/real_time_system.cpp:177-183 | the streak counted is the run of skips at the end of the log |
| RunLog.CallInSlot | src/systems/real_time_system.cpp:173-246 | call n begins no earlier than n periods less n/1000 ns, and a call on time ends by the next deadline, within the drift bound |
| RunLog.DelayInMillisecondsIff | src/systems/real_time_system.cpp:205-226 | the delay told is the milliseconds slept in the turn before the call if and only if the slot is skipped or took no nap |
| RunLog.HalfMillisecondTold | src/systems/real_time_system.cpp:226 | a turn, with the polls of a reachable delivery, whose call is told a delay of 1 after half a millisecond |
| System.RoundsAreLogarithmic | src/systems/real_time_system.cpp:122-137 | the waiting loop takes floor(log2(t + 1)) rounds when the send never finishes |
| System.Log2Floor | src/systems/real_time_system.cpp:122-127 | Log2 is the floor of the binary logarithm |
| System.HalvingWait | src/systems/real_time_system.cpp:122-137 | the naps and polls of each round; slept plus left is always the limit; it stops early only when a poll finds the send done |
| System.SendAndWait | src/systems/real_time_system.cpp:119-148 | success has everything accepted on the wire; failure comes only after every round and a last poll, and leaves the sender shut down |
| System.WaitTolerated | src/systems/real_time_system.cpp:185-193 | one poll before each nap of half a millisecond, and an early end only on a poll answered true |
| System.ChooseMode | src/systems/real_time_system.cpp:185-203 | a slot is given up or skipped if and only if its last poll, after the whole tolerance, found the send unfinished |
| System.TakeResult | src/systems/real_time_system.cpp:204-228 | one call of the user function, told its number, skip flag and delay, with the worker moving during it and the assignment: a finished send is never disturbed |
| System.SkipSlot | src/systems/real_time_system.cpp:202-222 | a skipped result is never accepted; it is told the naps halved; a missed tick was late; every return shuts the sender down |
| System.SendSlot | src/systems/real_time_system.cpp:223-245 | the result is accepted or the run ends; send is refused only by a sender that was not ready, or with the stored verdict of a worker that is gone; the delay told is the naps; a missed tick was late; every return shuts the sender down |
| System.OneSlot | src/systems/real_time_system.cpp:185-245 | what one turn of the loop adds to the log, the diary, the history and the time, its one tick sleep included, and exactly why it may end the run |
| System.Turn | src/systems/real_time_system.cpp:173-246 | a turn keeps the books of the whole run, or ends it with everything RunEnds says |
| System.RunLoop | src/systems/real_time_system.cpp:168-246 | the end-to-end theorem, for any number of slots: accepted lists are the results of the calls not skipped, in order; call n is told number n in slot n, and there is one call a slot; the skip count is the current streak, and the run ends at exactly 3 f of them; a missed tick is past its deadline, a given-up send unfinished after the tolerance, a refusal the worker's verdict; on return the sender is shut down and the list variable can be destroyed |
| System.CallsAddUp | src/systems/real_time_system.cpp:173-246 | user calls are deliveries plus skips plus at most one refused or stopping call |
| System.ToleranceRoom | src/systems/real_time_system.cpp:104-105 | 1000/f - 5 does not wrap |
| System.ToleranceFits | src/systems/real_time_system.cpp:187-193 | the whole tolerance wait leaves at least 5 ms of every slot |
| System.RealTimeSystem.SetFrequency | src/systems/real_time_system.cpp:46-50 | takes any frequency and withdraws initialized_ |
| System.RealTimeSystem.Initialize | src/systems/real_time_system.cpp:64-109 | when it succeeds, what initialized_ promises and the tolerance it leaves; when it fails, that initialized_ stays as it was, and what became of timer and sender: untouched before the timer is prepared, the sender untouched unless the timer took the frequency, and shut down when it could not be set up |
| System.RealTimeSystem.SendBeforeRun | src/systems/real_time_system.cpp:111-149 | what a true return means, the states of send's two tests on which delivery depends, and that a false return took the whole limit and shut the sender down; when not initialized nothing is touched |
| System.RealTimeSystem.Run | src/systems/real_time_system.cpp:152-248 | the theorem of the loop for the whole method, from initialized_ on; nothing is touched when it is down; a worker error that ends the run names a failure of the session; without skip mode always, and with it if no result was assigned to a list still pending, no copy is torn and the wire is a prefix of what was accepted before and the results not skipped |
| System.CleanRun | src/systems/real_time_system.cpp:168-246 | what the end of any run says about the wire, and that a refusal with a worker error names a failure of the session |

## Left out

- create_server, get_client, socket options and closing of descriptors: the success of connecting and of creating the thread is one parameter of `Initialize`.
- convert_rt_thread, thread attributes, priorities and affinity: one parameter of `RealTimeSystem.Initialize`, one failing step of the worker.
- Error strings: every failure is a value of `SendResult`, `Code` or `Outcome`.
- Control messages of recvmsg and the flags of poll: a notification is a range of ids or an error.
- malloc, free and memcpy in DataPacketsList: a list is a sequence, an assignment copies it in one step; running out of memory is not modelled.
- What happens after the worker has read dead memory: the worker's model ends at `WFault`, and a run of the system as `Torn`.
- The order of the single reads and writes inside an assignment or a copy: each is one interval, and any overlap of the two counts as torn.
- The second run of the destructors that pthread_exit may cause after END_THREAD_ERROR: see the assumptions.
- The reset in initialize is one step, because no worker runs then.
- lock_non_block, seconds_sleep, get_frequency and the remaining conversion macros: unused by the modelled code.
- The index `i` of the worker's for loop and num_packets are unbounded: a list of 2^31 packets or more is not modelled. The sequence number is unbounded, too.
- The 5 ms and 50 ms naps between the polls of initialize and end_sender: the worker's steps between two polls are modelled, the time they take is not.
- The destructors of the senders, which call end_sender.
- The user function is any list, any choice and any running time; what it reads and changes is not modelled.
- System.RunLoop: observed for a given number of slots, since the source loops forever; the theorem is for every such number.
- Worker.TcpWorker.WorkerFunction: observed for at least a given number of its statements (`budget`), for the same reason; only then may it end as `Watched`.
- System.RealTimeSystem.SendBeforeRun: for limits up to 2^63 ns (292 years); beyond that the conversion to ns may wrap, or a nap may not end.
- System.HalvingWait: for the same limits, for the same reason.
- Clock.NanosecondsSleep: for durations up to 2^63 ns; for longer ones the elapsed time may wrap between two readings, and the loop need not end.
- Clock.MillisecondsSleep: for conversions up to 2^63 ns, for the same reason.
- Clock.MicrosecondsSleep: for conversions up to 2^63 ns, for the same reason.
- Timers.FreeWaitTimer.SetFrequency: not for frequency 0, by which the source divides; the system never passes it.
- The example receiver, the scripts and the build files.
