# The hand-over protocol of php-tokio, verified

php-tokio lets PHP fibers wait for Rust futures. The futures run on Tokio's worker threads; PHP runs on a single thread.
This project models how the two sides meet (`src/event_loop.rs` and `src/notify.rs`) and proves what the comments of those
files claim: that no wakeup is lost, that `suspend_on` may lend its stack to a future, that a runtime is never dropped
under a running future, that a forked child disturbs nobody, that the waits end.

## How it is modelled

- **Memory** (`State.dfy`): the whole memory of a process, field by field: the loops, one generation after another, with
  their suspensions, channel, flag, counters and runtime; the calls, with their task, slot and caller's frame; the program
  counter of the PHP thread. Sockets belong to the kernel, and are shared by processes that fork. A few fields are history
  (which IDs were collected, unregistered, abandoned; which runtimes were released; how many writes straddled the last
  drain): no step reads them, but that a new loop gets a new name.
- **Steps** (`Steps.dfy`): every atomic operation, send, receive, socket read or write, and mutex critical section is one
  step; a task takes and releases the lock of its slot by steps of their own. A task can step at any moment between any two steps of PHP, in any order with the other tasks. PHP code, and the
  environment, may call any entry point, resume any suspended caller (a third party included), throw an exception or an
  exit into it, free callers once `shutdown` returned, and fork.
- **Components** (`Slot.dfy`, `TaskCounters.dfy`, `Notify.dfy`, `Resume.dfy`): the objects of the source as classes; their
  critical sections are specified by the functions that the steps use.
- **Invariant** (`Invariant.dfy`, `Keeps*.dfy`, `World.dfy`): what holds in every reachable state of every process, for any
  number of tasks, loops, worker threads and processes. Each group of it is kept by every step, given the few groups it
  depends on: a step that leaves alone what a group is about keeps it by one frame lemma, the others one by one.
- **Theorems** (`Theorems.dfy`, `Prompt.dfy`, `Progress.dfy`, `Isolation.dfy`, `Once.dfy`, `Order.dfy`,
  `Sent.dfy`, `Unlisted.dfy`): what follows.
- **The code** (`Process.dfy`, `Going.dfy`, `Meanwhile.dfy`, `Gather.dfy`): `init`, `suspend_on`, `wakeup`, `drain`,
  `shutdown`, `resume`, both waits, a fork, and the end of a task, as methods that update the memory in place. Each of their
  critical sections is proved to be exactly one step; between two of them, any tasks run (`Others`), and, where PHP code
  runs, any steps (`Elsewhere`). Their loops are proved to end, with tasks running meanwhile.
- **Runs** (`Scenarios.dfy`, `Findings.dfy`): runs that reach states that the comments exclude.

## Where the code and its comments disagree

- The socket is said to hold one or two bytes at most (`src/notify.rs:41-42`). That depends on its callers: PHP code is to
  call `wakeup` when the stream is readable (`src/event_loop.rs:278-283`). The socket holds at most one byte, writes in
  flight included, and one more for each call of `wakeup` or `drain` that came when it was not (`Prompts.BytesBound`):
  none such, one byte (`Prompts.OneByte`); one, two bytes; two, three bytes, as a run with a single worker thread shows
  (`Findings.SocketFills`). Each such call may straddle a write of a worker that stalls between its swap and its write.
  `drain` exists to be called before the stream is readable: for that use, its caller has no guard. However many the calls,
  the bytes are at most two more than the writes in flight when the socket was last found empty (`Theorems.SocketBound`),
  and `Findings.SocketFills` reaches both bounds for any number of worker threads. So a write finds room in a socket that
  holds two bytes more than there are worker threads.
- A caller resumed by `wakeup` is said not to block (`src/event_loop.rs:378-379`, `src/event_loop.rs:398`). It may, when
  the suspension that `wakeup` resumes is by then suspended in another call. Revolt gives a fiber the same suspension every
  time. So if the first call of a fiber returned early, since someone else resumed it, or since it was interrupted when its ID
  was already in a ready list, and the fiber made a second call, then the `resume` call for the first ID resumes the second
  call. `Findings.ResumedBlocks` says exactly when the caller blocks; `Findings.StaleResumeHappens` gives a run, with `wakeup`
  called only on a readable stream. The result is still the caller's own (`Theorems.ResultIsOwn`).
- In a forked child, a pending call is said to unwind rather than wait forever (`src/event_loop.rs:369-371`). Interrupted, it
  does (`Isolation.InterruptedChildUnwinds`). Resumed by someone, it waits forever if, and only if, at the fork its future was
  running, or a worker held the lock of its slot, in `set` or in `finish` (`Isolation.ResumedChild`, `Isolation.HangsAsForked`,
  `Isolation.HungForever`): the lock of the child's copy stays taken, although the slot may be over
  (`Findings.LockedSlotHangs`). Else it returns its own result. While the child runs PHP code, a pending call is always off
  the stack (`Isolation.PendingOffStack`).

## Assumptions

Sequential consistency (the flag uses SeqCst, the rest locks and a channel). A critical section is one step, but for
those of a task on the lock of its slot: that lock is taken and released by steps of their own, since a fork may catch it
held. No other lock of an inherited loop is taken in a child: its entry points stop at `check_owned`. PHP forks in PHP code,
holding no lock; that no task waits for a lock that PHP keeps while it blocks is read off the code, which waits on the
condition variables, and drops the runtime with the lock released (`src/event_loop.rs:126`, `199`, `207-209`). Process IDs
and loops are never reused, and NEXT_ID does not wrap. A future that is polled ends, for the statements about termination only. A socket has room for two
bytes more than there are worker threads; a write below that succeeds. A worker thread keeps its task from the moment the
future ends to the end of `Task::drop` (there is no `await` in between). Revolt gives a fiber one suspension, and a fiber
is suspended in one call at a time.

## Model

| member | source | states |
|---|---|---|
| Theorems.BorrowSafety | src/event_loop.rs:336-356 | while a future of `suspend_on` is alive, its caller's frame is alive and `shutdown` did not return |
| Theorems.NoLostWakeup | src/notify.rs:82-93 | outside `wakeup` and `drain`, with no notification under way, a waiting completion makes the stream readable |
| Theorems.NoLostCompletion | src/event_loop.rs:144-151 | a registered caller whose task sent its ID has it in the channel, and a byte is there or on its way |
| SentIds.SentIsAccepted | src/event_loop.rs:147-148 | a loop in use received, or has in its channel, exactly the IDs that its tasks sent, once each |
| SentIds.ChannelsMoveOn | src/event_loop.rs:147-148 | no step loses an ID; a channel that `shutdown` closed does not change any more |
| Theorems.SocketBound | src/notify.rs:41-44 | bytes and writes in flight are at most two and the straddling writes, at most one a worker thread; no write meets a full buffer |
| Findings.SocketFills | src/notify.rs:41-44 | both bounds are reached by a run, whatever the number of worker threads: two bytes more than they are, and one more than such calls |
| Prompts.BytesBound | src/notify.rs:41-42 | bytes and writes in flight are at most one and the number of calls of `wakeup` and `drain` that came on an unreadable stream; so are the straddling writes, without the one |
| Prompts.OneByte | src/notify.rs:41-42 | with `wakeup` and `drain` called only on a readable stream, the socket never holds more than one byte, writes in flight included, and no write straddles a drain |
| Orders.StuckForever | src/notify.rs:82-90 | with the flag set, the socket empty and no write in flight, no run makes the stream readable unless PHP calls by itself |
| Orders.NeverStuck | src/notify.rs:82-90 | the code never reaches that state |
| Findings.RearmingFirstGetsStuck | src/notify.rs:88-90 | clearing the flag before draining does, with one thread and two futures, and `wakeup` called only on a readable stream |
| Progress.WorkShrinks | src/event_loop.rs:216-234 | every step of a task strictly decreases what all the tasks have left to do |
| Progress.SleepersHaveWorkers | src/event_loop.rs:123-132 | whenever PHP sleeps on its own futures, or waits for the lock of the slot of one, some task can step |
| Progress.SleepEnds | src/event_loop.rs:196-201 | task steps alone are finitely many, and stop only with PHP awake, and not waiting for such a lock |
| Progress.WakeupComes | src/notify.rs:73-80 | a completion that waits is at most two task steps away from making the stream readable |
| Theorems.SleepersAreNotified | src/event_loop.rs:123-132 | a sleeper in either wait still has a notification to come |
| Theorems.NoBlockingAfterHandover | src/event_loop.rs:397-399 | a collected caller, and a caller of `suspend_on` after `shutdown`, finds its slot over, and not locked |
| Findings.ResumedBlocks | src/event_loop.rs:378-379 | a caller resumed by `wakeup` blocks if and only if the ID was that of another call of its fiber, and its own future runs, or its task holds the lock of its slot |
| Findings.StaleResumeHappens | src/event_loop.rs:397-399 | such a resumption happens, with `wakeup` called only on a readable stream |
| Theorems.ResultIsOwn | src/event_loop.rs:380 | a caller returns the value of its own future, panics only if its own future did, and a result is moved out once |
| Isolation.OutcomesAreGiven | src/event_loop.rs:435-440 | the outcome of a call is what its own future ended with, when its task polled it; no other step gives or changes it |
| Isolation.SlotsUnderLock | src/event_loop.rs:108-132 | a slot changes only under its lock, held by its task, or taken in `Slot::wait` when it is free |
| Theorems.CountersCount | src/event_loop.rs:170-193 | the counters count the live tasks, never underflow, and at zero borrowing every future of `suspend_on` is dropped, over and sent |
| Theorems.RuntimeInOnePlace | src/event_loop.rs:162-176 | an owned runtime is in exactly one place, and parked only while a future runs |
| Theorems.RuntimeOutlivesFutures | src/event_loop.rs:155-158 | whoever drops a runtime, all its tasks are over and none can start: no future is cancelled |
| Theorems.RuntimeReleasedOnce | src/event_loop.rs:553-556 | after `shutdown` and the last task, the runtime was released exactly once |
| Theorems.OneFate | src/event_loop.rs:425-465 | every ID has one fate, of four; it is collected at most once, after its slot left Running |
| Unlisted.UnresumedUnlisted | src/event_loop.rs:459-463 | a caller that could not suspend, or was interrupted, is registered no more, neither in the loop of EVENTLOOP nor in any loop of its process: nothing resumes it later |
| Once.ResumedOnce | src/event_loop.rs:483-487 | in any run, an ID gets at most one `resume` call |
| Isolation.DecisionsStay | src/event_loop.rs:89-96 | slots only move forward; no step takes back a result, a collection, an unregistration or a release |
| Isolation.OldTasksStayAway | src/event_loop.rs:144-151 | what a task of an old loop does changes nothing of a newer loop |
| Isolation.OldCallersStayAway | src/event_loop.rs:459-463 | an old caller that unregisters itself changes no newer loop |
| Isolation.IdsNeverRepeat | src/event_loop.rs:74-76 | calls keep their IDs, and a new call gets an ID that no call of the process had |
| Isolation.OthersUndisturbed | src/event_loop.rs:476-479 | no step of one process changes the memory of another, nor a socket of its loops |
| Isolation.ForkedEntryPoints | src/event_loop.rs:499-501 | in a child, inherited loops do nothing: `spawn`, `wakeup` and `drain` change nothing, `shutdown` forgets, no task runs |
| Isolation.RuntimeOfThisProcess | src/event_loop.rs:604-611 | a usable loop runs its futures on a runtime created by this very process |
| Isolation.PendingOffStack | src/event_loop.rs:369-377 | while PHP code runs, in a child or not, a pending call is off the stack: it can be interrupted, resumed if it is suspended, and continue if it was; once EVENTLOOP is empty, PHP can free it |
| Isolation.InterruptedChildUnwinds | src/event_loop.rs:369-375 | interrupted in a child, a pending call leaves without waiting: `suspend_on` unwinds, `try_suspend_on` returns |
| Isolation.ResumedChild | src/event_loop.rs:114-132 | resumed in a child, it hangs if and only if its slot is Running, or locked; otherwise it returns its own result at once |
| Isolation.HangsAsForked | src/event_loop.rs:114-132 | if and only if, when the process forked, its slot was Running, or a worker held its lock, whatever happened since |
| Isolation.ResumedChildHangs | src/event_loop.rs:360-380 | resumed in a child, it waits for a slot that nobody sets, or for a lock that nobody releases |
| Findings.LockedSlotHangs | src/event_loop.rs:108-124 | a run forks while `set`, or `finish`, holds the lock of a slot that is over: the child hangs |
| Isolation.HungForever | src/event_loop.rs:360-380 | and no run of any processes ends that wait |
| Findings.FromStartReachable | src/event_loop.rs:78-80 | the runs that the findings give are runs of the world that the theorems are about |
| Worlds.StepKeepsInv | src/event_loop.rs:108-234 | every step, of PHP, of a task or of the environment, keeps the whole invariant |
| Worlds.WorldStepKeepsInv | src/event_loop.rs:544-557 | so does a step of one process among many, and a fork |
| Worlds.RunKeepsInv | src/event_loop.rs:336-558 | so the invariant holds at the end of every run of any processes |
| Worlds.Footprint | src/event_loop.rs:476-479 | no step of a process changes a socket other than those of the loops it initialized itself |
| Processes.Process.SuspendOn | src/event_loop.rs:336-404 | a whole call: once PHP code comes back to it, the caller leaves, unless it is still suspended and not interrupted. Resumed, it leaves with the result of its own future; not resumed, it is unregistered, and `suspend_on` leaves with that result, `try_suspend_on` with what interrupted it. Without a usable loop, or a suspension, the call is refused |
| Processes.Process.Wakeup | src/event_loop.rs:471-488 | it collects the registered callers whose IDs are in the channel, then calls `resume` for each, in channel order, and leaves the first exception pending; once it is back, they are not suspended any more. Without a loop it fails, in a child it does nothing |
| Processes.Process.WakeupReady | src/event_loop.rs:471-486 | collects all that was in the channel, in order, exactly the registered ones; does nothing in a child |
| Processes.Process.Drain | src/event_loop.rs:496-523 | it receives while somebody is registered, until nobody is, or the deadline passed with an empty channel; then it collects and resumes as `wakeup` does; without a loop of this process it does nothing |
| Processes.Process.DrainReady | src/event_loop.rs:496-521 | collects as `wakeup` does, by the same relation; it left its receive loop, with the first of the IDs, without a registered caller, or late on an empty channel |
| Processes.Process.Resume | src/event_loop.rs:673-687 | each caller of the ready list gets one `resume` call, in order, whichever throw, although a call may run PHP code; the first exception that these calls threw stays pending; unless PHP code runs, nothing else changes |
| Processes.Process.WaitSlot | src/event_loop.rs:123-132 | the wait ends, whenever it can, with what the caller's own future produced, or None if it panicked; a caller that was handed over never blocks |
| Processes.Process.Shutdown | src/event_loop.rs:544-558 | it ends, and then no future of the loop borrows: all are dropped, over, and sent; the runtime that it owned is released, or left to its last task |
| Processes.Process.Spawn | src/event_loop.rs:410-443 | the call has a new ID, is registered, and its task launched; without a usable loop, or a suspension, it fails and nothing changes |
| Processes.Process.Unwind | src/event_loop.rs:336-381 | not resumed, the caller is unregistered; `suspend_on` leaves only with the result of its dropped future, or unwinds in a child; `try_suspend_on` never waits |
| Gathering.SiftIsExact | src/event_loop.rs:483-485 | the ready list holds exactly the received IDs that were registered, once each |
| Gathering.SiftInOrder | src/event_loop.rs:483-485 | in channel order |
| Gathering.SiftConserves | src/event_loop.rs:516-519 | no caller is lost: it is in the ready list or still registered, and not both |
| Resuming.FirstIsFirst | src/event_loop.rs:681 | the exception kept is the first one thrown, or none |
| Processes.Process.DrainSocket | src/notify.rs:98-102 | the loop ends although tasks write meanwhile, and nothing of PHP's memory changed |
| Processes.Process.CollectRest | src/event_loop.rs:513-519 | drain, rearm and collect: the ready list and the map are what `Sift` and `Remove` make of the received IDs |
| Processes.Process.CollectAll | src/event_loop.rs:483-485 | the loop ends on an empty channel although tasks send meanwhile |
| Processes.Process.ReceiveAll | src/event_loop.rs:502-512 | the receive loop ends, without a registered caller, or late on an empty channel; each ID was received with somebody registered |
| Processes.Process.ReceiveMore | src/event_loop.rs:503-511 | one turn: an ID is received, or the loop is exhausted |
| Processes.Process.AwaitReceive | src/event_loop.rs:504-506 | blocks until an ID is there or the deadline passed |
| Processes.Process.Sleep | src/event_loop.rs:125-127 | a wait on a condition variable ends, since tasks end, under spurious wakeups |
| Processes.Process.AcquireSlot | src/event_loop.rs:124 | the lock of the slot is taken once it is free; the task that holds it releases it |
| Processes.Process.CheckSlot | src/event_loop.rs:124-131 | one turn: the result is the caller's own; a caller that was handed over does not block |
| Processes.Process.WaitBorrowing | src/event_loop.rs:196-201 | the wait ends |
| Processes.Process.ResumeNext | src/event_loop.rs:676 | the call that the fiber is suspended in becomes resumable, as handed over if it is that of the ID; without one, the call throws; then the collected caller is not suspended |
| Slots.Slot.Set | src/event_loop.rs:108-111 | the value is stored, and a sleeper notified after the lock is released |
| Slots.Slot.Finish | src/event_loop.rs:114-120 | a slot that never got a value is over too, as panicked; a value is kept |
| Slots.Slot.Check | src/event_loop.rs:123-132 | sleeps exactly on a running slot; otherwise the result is moved out, once |
| TaskCounters.Tasks.Start | src/event_loop.rs:185-193 | one more task runs, and borrows or not |
| TaskCounters.Tasks.CheckBorrowing | src/event_loop.rs:196-201 | sleeps exactly while a borrowing task runs |
| TaskCounters.Tasks.Release | src/event_loop.rs:205-213 | the runtime is dropped by the caller if nothing runs, parked otherwise |
| TaskCounters.Tasks.End | src/event_loop.rs:216-228 | the counters drop, the sleeper is notified, and the last task takes the parked runtime |
| Notify.Notifier.Swap | src/notify.rs:74 | returns the former flag, and sets it |
| Notify.Notifier.Notify | src/notify.rs:73-80 | a byte is written only by whoever finds the flag clear |
| Notify.Notifier.Rearm | src/notify.rs:91-93 | the flag is clear |
| Notify.Socket.Read | src/notify.rs:99-101 | takes up to a buffer of bytes; returns zero exactly on an empty socket |
| Notify.Receiver.Drain | src/notify.rs:98-102 | alone, the loop ends with the socket empty (with tasks writing meanwhile: Processes.Process.DrainSocket) |
| Processes.Process.constructor | src/event_loop.rs:78-80 | a process starts without a loop |
| Processes.Process.Poll | src/event_loop.rs:435-440 | the future ends, and is dropped first |
| Processes.Process.Lock | src/event_loop.rs:109-115 | exactly one step: `set`, or `finish`, holds the lock of the slot |
| Processes.Process.Unlock | src/event_loop.rs:109-120 | exactly one step: the lock is free |
| Processes.Process.StoreValue | src/event_loop.rs:109 | exactly one step: the value is in the slot |
| Processes.Process.NotifySlot | src/event_loop.rs:110 | exactly one step: the sleeper on that slot is awake |
| Processes.Process.Finish | src/event_loop.rs:115-119 | exactly one step: the slot is over and its sleeper awake |
| Processes.Process.Send | src/event_loop.rs:147-148 | exactly one step: the ID is queued, unless the receiver is dropped |
| Processes.Process.Swap | src/notify.rs:74 | exactly one step: the flag is set; a write follows if it was clear |
| Processes.Process.Write | src/notify.rs:79 | exactly one step: a byte more, if there is room |
| Processes.Process.End | src/event_loop.rs:216-228 | exactly one step: counters, notification, and the parked runtime taken by the last task |
| Processes.Process.ReleaseInBackground | src/event_loop.rs:229-232 | exactly one step: the runtime is released |
| Processes.Process.Work | src/event_loop.rs:144-151 | the sections of a task come in the order of its drops |
| Processes.Process.Read | src/notify.rs:98-102 | exactly one step of the loop |
| Processes.Process.Rearm | src/notify.rs:91-93 | exactly one step: the flag is clear |
| Processes.Process.Remove | src/event_loop.rs:483-485 | the first ID leaves the channel; its caller leaves the map, into the ready list |
| Processes.Process.CollectNext | src/event_loop.rs:483-485 | exactly one step of the loop |
| Processes.Process.ReceiveNext | src/event_loop.rs:503-511 | exactly one step: an ID is received, or the loop ends without a registered caller, or late on an empty channel |
| Processes.Process.CheckBorrowing | src/event_loop.rs:197-199 | exactly one step of the loop |
| Processes.Process.Release | src/event_loop.rs:205-213 | exactly one step: the runtime is in the caller's hands, or parked |
| Processes.Process.DropRuntime | src/event_loop.rs:207-209 | exactly one step: the runtime is released |
| Processes.Process.DropLoop | src/event_loop.rs:544-557 | exactly one step: callers still registered are abandoned, and later sends fail |
| Processes.Process.TakeLoop | src/event_loop.rs:545-552 | exactly one step: a loop of another process is only forgotten |
| Processes.Process.RegisterNow | src/event_loop.rs:424-425 | exactly one step: the caller is registered under the next ID |
| Processes.Process.Start | src/event_loop.rs:428 | exactly one step: the task is counted before it is launched |
| Processes.Process.Launch | src/event_loop.rs:435-440 | exactly one step: the future can be polled from now on |
| Processes.Process.Unregister | src/event_loop.rs:459-463 | exactly one step: the ID leaves the loop of EVENTLOOP, if it is there |
| Processes.Process.Return | src/event_loop.rs:357-377 | exactly one step: who waits, and who leaves with what |
| Processes.Process.Initialize | src/event_loop.rs:313-326 | without a loop, and with a runtime of its own, or the shared one of this process, created then if nobody has, there is a usable loop on it; with a loop, nothing changes; the two FORKED errors |
| Processes.Process.Forked | src/event_loop.rs:236-248 | the child starts with a copy of the memory, and owns no loop |
| Processes.Process.Suspend | src/event_loop.rs:447-458 | exactly one step: the caller is suspended, or could not be |
| Processes.Process.Continue | src/event_loop.rs:453 | exactly one step: resumed, the caller waits for its slot |
| Processes.Process.Interrupt | src/event_loop.rs:449-452 | exactly one step: interrupted, the caller is about to unregister |
| Processes.Process.ResumeCall | src/event_loop.rs:676 | exactly one step: the fiber's suspended call is resumed, if there is one |

## Left out

- The FFI with PHP and Zend (streams, zvals, exceptions, `exit_pending`): only their outcomes, chosen by the environment.
- `php_stream` and a stream closed too early: no protocol state.
- `initialize` failing (no runtime, no socket, no Revolt): it leaves EVENTLOOP empty, as before the call.
- PHP code that `getSuspension` may run in `spawn`, such as a fork.
- `pending`: it reads the size of the map.
- Threads of a ZTS build: each has its own EVENTLOOP; one PHP thread a process is modelled.
- Windows: there is no fork, and everything else is the same.
- Weak memory, and real time: a deadline passes at any moment after the channel was found empty, once.
- Tokio's scheduler: any task may step next; a future is polled when a worker thread is free.
- Worker threads that the loops of a shared runtime share: each loop is given that many, so more interleavings are covered than happen.
- Cancellation of the tasks of a dropped runtime: not modelled, since a runtime is proved to be dropped only after its tasks.
- A write to a socket whose other end is closed: it succeeds in the model; nobody reads that socket any more.
- Memory: a process is one object with a map for each field of its loops and calls, not one object each; reference counts of the shared parts are left out.
- Processes.Process.SuspendOn: PHP code that never comes back to the caller, or not within `fuel` steps, leaves it suspended; `Processes.Process.Resume` likewise.
- Processes.Process.Sleep: spurious wakeups are any number, but finitely many, as otherwise no wait ends.
- Processes.Process.Unwind: the exception of an interrupted `suspend_on`, pending for its caller, is not recorded.
- Processes.Process.Others: the tasks of one process; what other processes do meanwhile touches none of its memory and sockets (`Isolation.OthersUndisturbed`).
- Theorems.RuntimeInOnePlace: a runtime being shut down in the background counts as released.
