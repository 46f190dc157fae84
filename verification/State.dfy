/** The memory of one PHP process, and the sockets of the kernel. */
module States {
  import opened Basics
  import opened Slots
  import opened TaskCounters

  /** Where a task stands: everything from `Tasks::start` to the end of `Task::drop`. */
  datatype Phase =
    | Unstarted       // registered, not counted yet
    | Unlaunched      // counted, not handed to Tokio yet
    | Polling         // handed to Tokio: the future is alive
    | Setting         // the future was dropped, with a value: `Slot::set` comes next
    | Storing         // `set` holds the lock of the slot
    | Stored          // and stored the value
    | SetNotifying    // `set` unlocked the slot: its notification comes next
    | Finishing       // `Completion::drop`: `Slot::finish` comes next
    | Closing         // `finish` holds the lock of the slot
    | Closed          // and ended the slot
    | Sending         // the ID is sent next
    | Swapping        // `Notifier::notify`: the flag is swapped next
    | Writing         // the flag was clear: a byte is written next
    | Ending          // `Task::drop`: the counters are decremented next
    | Releasing(runtime: LoopId)   // the last task shuts the parked runtime down next
    | Ended

  /** A call of `suspend_on` (borrowing) or `try_suspend_on`: what never changes. */
  datatype Call = Call(loop: LoopId, borrowing: bool, fiber: Fiber)

  /** Its task. `outcome` is history: how the future ended. */
  datatype Task = Task(phase: Phase, outcome: Option<Outcome>)

  /** Why a caller that left `suspend` was running again. */
  datatype Wake =
    | Handed          // resumed by the `resume` call for its own ID
    | Foreign         // resumed by anyone else
    | Unsuspended     // it could not suspend
    | Interrupted     // by an exception or an exit

  /** How a call of `suspend_on` or `try_suspend_on` left. */
  datatype Exit =
    | Returned(value: Value)
    | FuturePanicked        // the PANICKED panic, or error
    | PendingAcrossFork     // the PENDING_ACROSS_FORK panic
    | SuspendFailed | Exited | Threw    // `try_suspend_on` only

  /** How a caller that waited for its future leaves. */
  function ExitOf(outcome: Outcome): Exit {
    match outcome
    case Produced(v) => Returned(v)
    case Panic => FuturePanicked
  }

  /** How `suspend` ended, other than by a resumption. */
  datatype Ending = Failing | Exiting | Throwing

  /** Its caller's frame. */
  datatype Caller =
    | Spawning                     // in `spawn`, or about to suspend
    | Suspended                    // off the PHP stack, in `suspension.suspend()`
    | Resumable(wake: Wake)        // resumed: it continues once the PHP event loop runs it
    | Unwinding                    // at the end of `suspend`, without having been resumed
    | Waiting(why: Wake)           // in `Slot::wait`
    | Left(exit: Exit)
    | Freed                        // its memory freed without unwinding it, after a fatal error

  /** Why an entry point fails. */
  datatype Refusal =
    | Uninitialized     // `init()` must be called first
    | ForkedLoop        // the FORKED error
    | ForkedRuntime     // the FORKED_RUNTIME error
    | Unsuspendable     // no suspension

  /** One `EventLoop`: what never changes. */
  datatype Loop = Loop(pid: Pid, runtimePid: Pid, ownsRuntime: bool, workers: nat, socket: Sock, capacity: nat)

  /** The `mpsc` channel of the IDs of the completed futures. `received` is history. */
  datatype Channel = Channel(queue: seq<Id>, receiving: bool, received: seq<Id>)

  /** `Notifier::pending`. `straddlers` is history: the writes in flight when the socket was last found empty. */
  datatype Flag = Flag(pending: bool, straddlers: nat)

  /** `EventLoop::tasks` and `EventLoop::runtime`. */
  datatype Keeper = Keeper(tasks: TasksState, runtime: Option<LoopId>)

  /** Where the PHP thread stands. */
  datatype Pc =
    | Idle                                        // running PHP code, `resume` calls included
    | Registered(id: Id)                          // `spawn`: `Tasks::start` comes next
    | Started(id: Id)                             // `spawn`: handing the task to Tokio comes next
    | Suspending(id: Id)                          // `suspension.suspend()` comes next
    | Unregistering(id: Id, how: Ending)          // the end of `suspend`: `suspensions.remove(&id)` comes next
    | Unregistered(id: Id, how: Ending)           // back in `suspend_on` or `try_suspend_on`
    | Receiving(ready: seq<Id>, late: bool)       // the receive loop of `drain`
    | Draining(ready: seq<Id>)                    // `Receiver::drain`
    | Rearming(ready: seq<Id>)                    // `Notifier::rearm`
    | Collecting(ready: seq<Id>)                  // the `try_iter` of `wakeup` and `drain`
    | SlotWaiting(id: Id, asleep: bool)           // `Slot::wait`
    | BorrowWaiting(loop: LoopId, asleep: bool)   // `Tasks::wait_borrowing`
    | ReleasingRuntime(loop: LoopId)              // `shutdown`: `Tasks::release` comes next
    | Dropping(loop: LoopId, runtime: Option<LoopId>)   // `shutdown`: drops a runtime, then the loop

  /** The order of `Receiver::drain` and `Notifier::rearm`: the code drains first. */
  datatype Order = DrainFirst | RearmFirst

  /** The loops and the calls are kept field by field: each map is one field of theirs. */
  datatype Proc = Proc(
    pid: Pid, order: Order,
    // The loops, one after another.
    loops: map<LoopId, Loop>, current: Option<LoopId>,
    suspensions: map<LoopId, map<Id, Fiber>>,
    channels: map<LoopId, Channel>,
    flags: map<LoopId, Flag>,
    keepers: map<LoopId, Keeper>,
    // The calls.
    nextId: Id,
    calls: map<Id, Call>, tasks: map<Id, Task>, slots: map<Id, SlotState>, callers: map<Id, Caller>,
    // The PHP thread.
    pc: Pc,
    sharedRuntime: Option<Pid>,      // RUNTIME_PID, once RUNTIME exists
    toResume: set<Id>,               // in a ready list, their `resume` call still to come
    // History.
    collected: seq<Id>,              // moved into a ready list, in order
    unregistered: set<Id>,           // removed from `suspensions` by their own interrupted caller
    abandoned: set<Id>,              // dropped with `suspensions` by `shutdown`
    released: multiset<LoopId>)      // runtimes shut down

  datatype State = State(p: Proc, sockets: map<Sock, nat>)

  const NOBODY: map<Id, Fiber> := map[]

  function InitialProc(pid: Pid, order: Order): Proc {
    Proc(pid, order, map[], None, map[], map[], map[], map[], 0, map[], map[], map[], map[],
         Idle, None, {}, [], {}, {}, multiset{})
  }

  /** All the fields of `l` are there. */
  predicate KnownLoop(p: Proc, l: LoopId) {
    l in p.loops && l in p.suspensions && l in p.channels && l in p.flags && l in p.keepers
  }

  predicate KnownCall(p: Proc, id: Id) {
    id in p.calls && id in p.tasks && id in p.slots && id in p.callers
  }

  /** The loops that pass `check_owned`. */
  function Own(pid: Pid, loops: map<LoopId, Loop>): set<LoopId> {
    set l | l in loops && loops[l].pid == pid
  }

  /** Whether EVENTLOOP holds a loop that passes `check_owned`. */
  predicate Usable(p: Proc) {
    p.current.Some? && KnownLoop(p, p.current.value) && p.loops[p.current.value].pid == p.pid
  }

  /** EVENTLOOP, then `check_owned`. */
  function Refuses(current: Option<LoopId>, loops: map<LoopId, Loop>, pid: Pid): Option<Refusal> {
    if current == None then Some(Uninitialized)
    else if current.value in loops && loops[current.value].pid == pid then None
    else Some(ForkedLoop)
  }

  predicate OwnCall(p: Proc, id: Id) {
    KnownCall(p, id) && KnownLoop(p, p.calls[id].loop) && p.loops[p.calls[id].loop].pid == p.pid
  }

  /** The future exists: on the caller's stack, or in the task. */
  predicate FutureAlive(t: Phase) {
    t.Unstarted? || t.Unlaunched? || t.Polling?
  }

  /** Its `Task` exists. */
  predicate Counted(t: Phase) {
    !t.Unstarted? && !t.Releasing? && !t.Ended?
  }

  /** Its task holds the lock of its slot. PHP holds it only inside its own steps. */
  predicate Locked(t: Phase) {
    t.Storing? || t.Stored? || t.Closing? || t.Closed?
  }

  /** Its ID was sent. */
  predicate Sent(t: Phase) {
    t.Swapping? || t.Writing? || t.Ending? || t.Releasing? || t.Ended?
  }

  /** On a worker thread, between two suspension points: it keeps the thread until it ends. */
  predicate Occupying(t: Phase) {
    !FutureAlive(t) && !t.Ended?
  }

  predicate FrameAlive(c: Caller) {
    c.Spawning? || c.Suspended? || c.Resumable? || c.Unwinding? || c.Waiting?
  }

  // ----- The tasks of a loop, by phase

  function Tokens(calls: map<Id, Call>, tasks: map<Id, Task>, l: LoopId): set<Id> {
    set id | id in calls && id in tasks && calls[id].loop == l && Counted(tasks[id].phase)
  }

  function Borrowers(calls: map<Id, Call>, tasks: map<Id, Task>, l: LoopId): set<Id> {
    set id | id in calls && id in tasks && calls[id].loop == l && Counted(tasks[id].phase) && calls[id].borrowing
  }

  function Swappers(calls: map<Id, Call>, tasks: map<Id, Task>, l: LoopId): set<Id> {
    set id | id in calls && id in tasks && calls[id].loop == l && tasks[id].phase.Swapping?
  }

  /** The writes in flight. */
  function Writers(calls: map<Id, Call>, tasks: map<Id, Task>, l: LoopId): set<Id> {
    set id | id in calls && id in tasks && calls[id].loop == l && tasks[id].phase.Writing?
  }

  /** The tasks that keep a worker thread. */
  function Busy(calls: map<Id, Call>, tasks: map<Id, Task>, l: LoopId): set<Id> {
    set id | id in calls && id in tasks && calls[id].loop == l && Occupying(tasks[id].phase)
  }

  /** The tasks that hold a runtime to shut down. */
  function Releasers(calls: map<Id, Call>, tasks: map<Id, Task>, l: LoopId): set<Id> {
    set id | id in calls && id in tasks && calls[id].loop == l && tasks[id].phase.Releasing?
  }
}
