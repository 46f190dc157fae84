/** The atomic steps: each is one atomic operation, one send or receive, one socket read or write, or
    one critical section of a mutex. PHP-thread steps follow the program counter; `Work` is the next
    step of one task, on a worker thread, at any moment. */
module Steps {
  import opened Basics
  import opened Slots
  import opened TaskCounters
  import Notify
  import opened States

  datatype Step =
    // PHP code calls an entry point.
    | Init(owned: bool, loop: LoopId, socket: Sock, workers: nat, capacity: nat)
    | Spawn(fiber: Fiber, borrowing: bool)
    | Wakeup
    | Drain
    | Shutdown
    // PHP code, or the environment, acts on suspended callers.
    | ResumeCall(id: Id, target: Option<Id>)
    | ForeignResume(id: Id)
    | Continue(id: Id)
    | Interrupt(id: Id, exit: bool)
    | Free(id: Id)
    // The PHP thread goes on inside php-tokio.
    | Start
    | Launch
    | Suspend(ok: bool)
    | Unregister
    | Return
    | DeadlinePasses
    | Receive
    | Read
    | Rearm
    | Collect
    | CheckSlot
    | CheckBorrowing
    | WakeSpuriously
    | Release
    | DropRuntime
    | DropLoop
    // A worker thread.
    | Work(id: Id, outcome: Outcome)

  // ----- PHP code calls an entry point

  /** The loop and its socket are new; the socket has room for a byte of each worker thread, and two more. */
  predicate CanInit(s: State, l: LoopId, k: Sock, workers: nat, capacity: nat) {
    && s.p.pc.Idle? && l !in s.p.loops && l !in s.p.released && k !in s.sockets
    && 1 <= workers && workers + 2 <= capacity
  }

  /** Without a loop yet, and, for the shared runtime, in the process that created it (else FORKED_RUNTIME).
      With a loop, `initialize` runs `check_owned`, and hands out the stream it already has. */
  predicate Initializes(p: Proc, owned: bool) {
    p.current.None? && (owned || p.sharedRuntime.None? || p.sharedRuntime.value == p.pid)
  }

  function DoInit(s: State, owned: bool, l: LoopId, k: Sock, workers: nat, capacity: nat): State {
    var p := s.p;
    var shared := if owned || p.sharedRuntime.Some? then p.sharedRuntime else Some(p.pid);
    State(p.(sharedRuntime := shared, current := Some(l),
             loops := p.loops[l := Loop(p.pid, if owned then p.pid else shared.value, owned, workers, k, capacity)],
             suspensions := p.suspensions[l := NOBODY],
             channels := p.channels[l := Channel([], true, [])],
             flags := p.flags[l := Flag(false, 0)],
             keepers := p.keepers[l := Keeper(NO_TASKS, if owned then Some(l) else None)]),
          s.sockets[k := 0])
  }

  /** One fiber makes one call at a time. */
  predicate CanSpawn(s: State, f: Fiber) {
    s.p.pc.Idle? &&
    forall id | id in s.p.calls && id in s.p.callers :: s.p.calls[id].fiber == f ==> !FrameAlive(s.p.callers[id])
  }

  function DoSpawn(s: State, f: Fiber, borrowing: bool): State
    requires Usable(s.p)
  {
    var p, id, l := s.p, s.p.nextId, s.p.current.value;
    s.(p := p.(nextId := id + 1,
               suspensions := p.suspensions[l := p.suspensions[l][id := f]],
               calls := p.calls[id := Call(l, borrowing, f)],
               tasks := p.tasks[id := Task(Unstarted, None)],
               slots := p.slots[id := Running],
               callers := p.callers[id := Spawning],
               pc := Registered(id)))
  }

  /** The first half of the wakeup sequence: `drain`, then `rearm` (in the code). */
  function FirstHalf(order: Order, ready: seq<Id>): Pc {
    if order == DrainFirst then Draining(ready) else Rearming(ready)
  }

  function DoWakeup(s: State): State {
    s.(p := s.p.(pc := FirstHalf(s.p.order, [])))
  }

  function DoDrain(s: State): State {
    s.(p := s.p.(pc := Receiving([], false)))
  }

  /** A loop inherited across a fork is forgotten. */
  function DoShutdown(s: State): State {
    s.(p := s.p.(current := None, pc := if Usable(s.p) then BorrowWaiting(s.p.current.value, false) else Idle))
  }

  // ----- Suspended callers

  predicate OffStack(c: Caller) {
    c.Suspended? || c.Resumable?
  }

  predicate IdleWith(s: State, id: Id) {
    s.p.pc.Idle? && KnownCall(s.p, id)
  }

  /** `resume` on the suspension of `id` resumes whichever call its fiber is suspended in, if any. */
  predicate CanResume(s: State, id: Id, target: Option<Id>) {
    && IdleWith(s, id) && id in s.p.toResume
    && match target
       case Some(t) => KnownCall(s.p, t) && s.p.calls[t].fiber == s.p.calls[id].fiber && s.p.callers[t].Suspended?
       case None =>
         forall t | t in s.p.calls && t in s.p.callers ::
           s.p.calls[t].fiber == s.p.calls[id].fiber ==> !s.p.callers[t].Suspended?
  }

  /** Without a target, `resume` throws. */
  function DoResumeCall(s: State, id: Id, target: Option<Id>): State {
    s.(p := s.p.(toResume := s.p.toResume - {id},
                 callers := if target.None? then s.p.callers
                            else s.p.callers[target.value := Resumable(if target.value == id then Handed else Foreign)]))
  }

  function DoForeignResume(s: State, id: Id): State {
    s.(p := s.p.(callers := s.p.callers[id := Resumable(Foreign)]))
  }

  predicate CanContinue(s: State, id: Id) {
    IdleWith(s, id) && s.p.callers[id].Resumable?
  }

  function DoContinue(s: State, id: Id): State
    requires CanContinue(s, id)
  {
    s.(p := s.p.(callers := s.p.callers[id := Waiting(s.p.callers[id].wake)], pc := SlotWaiting(id, false)))
  }

  predicate CanInterrupt(s: State, id: Id) {
    IdleWith(s, id) && OffStack(s.p.callers[id])
  }

  /** An exception, or an exit, is thrown into `suspension.suspend()`. */
  function DoInterrupt(s: State, id: Id, exit: bool): State {
    s.(p := s.p.(callers := s.p.callers[id := Unwinding], pc := Unregistering(id, if exit then Exiting else Throwing)))
  }

  /** PHP frees the callers at the end of the request, once `shutdown` returned. */
  predicate CanFree(s: State, id: Id) {
    IdleWith(s, id) && s.p.current.None? && OffStack(s.p.callers[id])
  }

  function DoFree(s: State, id: Id): State {
    s.(p := s.p.(callers := s.p.callers[id := Freed]))
  }

  // ----- Inside `spawn` and `suspend`

  predicate CanStart(s: State) {
    s.p.pc.Registered? && OwnCall(s.p, s.p.pc.id)
  }

  function DoStart(s: State): State
    requires CanStart(s)
  {
    var p, id := s.p, s.p.pc.id;
    var l := p.calls[id].loop;
    s.(p := p.(tasks := p.tasks[id := p.tasks[id].(phase := Unlaunched)],
               keepers := p.keepers[l := p.keepers[l].(tasks := AfterStart(p.keepers[l].tasks, p.calls[id].borrowing))],
               pc := Started(id)))
  }

  predicate CanLaunch(s: State) {
    s.p.pc.Started? && KnownCall(s.p, s.p.pc.id)
  }

  function DoLaunch(s: State): State
    requires CanLaunch(s)
  {
    var id := s.p.pc.id;
    s.(p := s.p.(tasks := s.p.tasks[id := s.p.tasks[id].(phase := Polling)], pc := Suspending(id)))
  }

  predicate CanSuspend(s: State) {
    s.p.pc.Suspending? && KnownCall(s.p, s.p.pc.id)
  }

  function DoSuspend(s: State, ok: bool): State
    requires CanSuspend(s)
  {
    var id := s.p.pc.id;
    s.(p := s.p.(callers := s.p.callers[id := if ok then Suspended else Unwinding],
                 pc := if ok then Idle else Unregistering(id, Failing)))
  }

  predicate CanUnregister(s: State) {
    s.p.pc.Unregistering?
  }

  /** Whether the loop of EVENTLOOP, whichever it is by now, still has the ID. */
  predicate Has(p: Proc, id: Id) {
    p.current.Some? && p.current.value in p.suspensions && id in p.suspensions[p.current.value]
  }

  function DoUnregister(s: State): State
    requires CanUnregister(s)
  {
    var p, id := s.p, s.p.pc.id;
    s.(p := p.(suspensions := if Has(p, id) then p.suspensions[p.current.value := p.suspensions[p.current.value] - {id}]
                              else p.suspensions,
               unregistered := if Has(p, id) then p.unregistered + {id} else p.unregistered,
               pc := Unregistered(id, p.pc.how)))
  }

  predicate CanReturn(s: State) {
    s.p.pc.Unregistered? && KnownCall(s.p, s.p.pc.id) && s.p.calls[s.p.pc.id].loop in s.p.loops
  }

  /** What a caller that was not resumed does: `try_suspend_on` returns; `suspend_on` waits for its future,
      unless it was interrupted in a process forked since it was called. */
  function AfterSuspend(how: Ending, borrowing: bool, forked: bool): Caller {
    if !borrowing then Left(match how case Failing => SuspendFailed case Exiting => Exited case Throwing => Threw)
    else if !how.Failing? && forked then Left(PendingAcrossFork)
    else Waiting(if how.Failing? then Unsuspended else Interrupted)
  }

  function DoReturn(s: State): State
    requires CanReturn(s)
  {
    var p, id := s.p, s.p.pc.id;
    var c := AfterSuspend(p.pc.how, p.calls[id].borrowing, p.loops[p.calls[id].loop].pid != p.pid);
    s.(p := p.(callers := p.callers[id := c], pc := if c.Left? then Idle else SlotWaiting(id, false)))
  }

  // ----- Inside `wakeup` and `drain`

  /** Receives the first ID of the channel: `suspensions.remove(&id)` moves its caller into the ready list. */
  function Pop(s: State, pc: Pc): State
    requires Usable(s.p) && s.p.channels[s.p.current.value].queue != []
  {
    var p, l := s.p, s.p.current.value;
    var c := p.channels[l];
    var id := c.queue[0];
    s.(p := p.(channels := p.channels[l := c.(queue := c.queue[1..], received := c.received + [id])],
               suspensions := p.suspensions[l := p.suspensions[l] - {id}],
               collected := if id in p.suspensions[l] then p.collected + [id] else p.collected,
               pc := pc))
  }

  /** The ready list after receiving the first ID of the channel. */
  function Extended(p: Proc, ready: seq<Id>): seq<Id>
    requires Usable(p) && p.channels[p.current.value].queue != []
  {
    var id := p.channels[p.current.value].queue[0];
    if id in p.suspensions[p.current.value] then ready + [id] else ready
  }

  /** The receive loop of `drain` ends without a registered caller, or, late, on an empty channel. */
  predicate ReceiveEnds(p: Proc)
    requires Usable(p)
  {
    p.suspensions[p.current.value] == NOBODY || p.channels[p.current.value].queue == []
  }

  /** A blocking receive goes on once an ID is there, or the deadline passed. */
  predicate CanReceive(s: State) {
    s.p.pc.Receiving? && Usable(s.p) &&
    (s.p.suspensions[s.p.current.value] == NOBODY || s.p.channels[s.p.current.value].queue != [] || s.p.pc.late)
  }

  function DoReceive(s: State): State
    requires CanReceive(s) && !ReceiveEnds(s.p)
  {
    Pop(s, Receiving(Extended(s.p, s.p.pc.ready), s.p.pc.late))
  }

  function DoStopReceiving(s: State): State
    requires CanReceive(s)
  {
    s.(p := s.p.(pc := FirstHalf(s.p.order, s.p.pc.ready)))
  }

  /** One turn of the receive loop. */
  function DoReceiveNext(s: State): State
    requires CanReceive(s)
  {
    if ReceiveEnds(s.p) then DoStopReceiving(s) else DoReceive(s)
  }

  function DoDeadline(s: State): State
    requires s.p.pc.Receiving?
  {
    s.(p := s.p.(pc := Receiving(s.p.pc.ready, true)))
  }

  predicate CanRead(s: State) {
    s.p.pc.Draining? && Usable(s.p) && s.p.loops[s.p.current.value].socket in s.sockets
  }

  predicate Readable(s: State)
    requires CanRead(s)
  {
    s.sockets[s.p.loops[s.p.current.value].socket] > 0
  }

  function DoRead(s: State): State
    requires CanRead(s)
  {
    var k := s.p.loops[s.p.current.value].socket;
    s.(sockets := s.sockets[k := Notify.AfterRead(s.sockets[k])])
  }

  /** The read that would block. */
  function DoReadNothing(s: State): State
    requires CanRead(s)
  {
    var p, l, ready := s.p, s.p.current.value, s.p.pc.ready;
    s.(p := p.(flags := p.flags[l := p.flags[l].(straddlers := |Writers(p.calls, p.tasks, l)|)],
               pc := if p.order == DrainFirst then Rearming(ready) else Collecting(ready)))
  }

  /** One turn of `Receiver::drain`. */
  function DoReadNext(s: State): State
    requires CanRead(s)
  {
    if Readable(s) then DoRead(s) else DoReadNothing(s)
  }

  predicate CanRearm(s: State) {
    s.p.pc.Rearming? && Usable(s.p)
  }

  function DoRearm(s: State): State
    requires CanRearm(s)
  {
    var p, l, ready := s.p, s.p.current.value, s.p.pc.ready;
    s.(p := p.(flags := p.flags[l := p.flags[l].(pending := false)],
               pc := if p.order == DrainFirst then Collecting(ready) else Draining(ready)))
  }

  predicate CanCollect(s: State) {
    s.p.pc.Collecting? && Usable(s.p)
  }

  predicate CollectEnds(p: Proc)
    requires Usable(p)
  {
    p.channels[p.current.value].queue == []
  }

  function DoCollect(s: State): State
    requires CanCollect(s) && !CollectEnds(s.p)
  {
    Pop(s, Collecting(Extended(s.p, s.p.pc.ready)))
  }

  function DoStopCollecting(s: State): State
    requires CanCollect(s)
  {
    s.(p := s.p.(pc := Idle, toResume := s.p.toResume + set id | id in s.p.pc.ready))
  }

  /** One turn of `try_iter`. */
  function DoCollectNext(s: State): State
    requires CanCollect(s)
  {
    if CollectEnds(s.p) then DoStopCollecting(s) else DoCollect(s)
  }

  // ----- The waits, and `shutdown`

  /** PHP takes the lock of the slot, once it is free. */
  predicate CanCheckSlot(s: State) {
    s.p.pc.SlotWaiting? && !s.p.pc.asleep && KnownCall(s.p, s.p.pc.id) && !Locked(s.p.tasks[s.p.pc.id].phase)
  }

  /** The slot is over: its result is moved out. */
  function DoTake(s: State): State
    requires CanCheckSlot(s)
  {
    var p, id := s.p, s.p.pc.id;
    var exit := match Result(p.slots[id]) case Some(v) => Returned(v) case None => FuturePanicked;
    s.(p := p.(slots := p.slots[id := Taken], callers := p.callers[id := Left(exit)], pc := Idle))
  }

  function DoSleep(s: State): State
    requires CanCheckSlot(s)
  {
    s.(p := s.p.(pc := SlotWaiting(s.p.pc.id, true)))
  }

  /** One turn of `Slot::wait`. */
  function DoCheckSlot(s: State): State
    requires CanCheckSlot(s)
  {
    if s.p.slots[s.p.pc.id] == Running then DoSleep(s) else DoTake(s)
  }

  predicate CanCheckBorrowing(s: State) {
    s.p.pc.BorrowWaiting? && !s.p.pc.asleep && KnownLoop(s.p, s.p.pc.loop)
  }

  function DoCheckBorrowing(s: State): State
    requires CanCheckBorrowing(s)
  {
    var l := s.p.pc.loop;
    s.(p := s.p.(pc := if s.p.keepers[l].tasks.borrowing > 0 then BorrowWaiting(l, true) else ReleasingRuntime(l)))
  }

  predicate Asleep(pc: Pc) {
    (pc.SlotWaiting? && pc.asleep) || (pc.BorrowWaiting? && pc.asleep)
  }

  function DoWakeSpuriously(s: State): State
    requires Asleep(s.p.pc)
  {
    s.(p := s.p.(pc := if s.p.pc.SlotWaiting? then SlotWaiting(s.p.pc.id, false) else BorrowWaiting(s.p.pc.loop, false)))
  }

  predicate CanRelease(s: State) {
    s.p.pc.ReleasingRuntime? && KnownLoop(s.p, s.p.pc.loop)
  }

  /** `runtime.take()`, then `tasks.release(runtime)`. */
  function AfterTake(k: Keeper): (Keeper, Option<LoopId>) {
    match k.runtime
    case None => (k, None)
    case Some(r) => var (tasks, dropped) := AfterRelease(k.tasks, r); (Keeper(tasks, None), dropped)
  }

  function DoRelease(s: State): State
    requires CanRelease(s)
  {
    var p, l := s.p, s.p.pc.loop;
    s.(p := p.(keepers := p.keepers[l := AfterTake(p.keepers[l]).0], pc := Dropping(l, AfterTake(p.keepers[l]).1)))
  }

  predicate CanDropRuntime(s: State) {
    s.p.pc.Dropping? && s.p.pc.runtime.Some?
  }

  function DoDropRuntime(s: State): State
    requires CanDropRuntime(s)
  {
    s.(p := s.p.(released := s.p.released + multiset{s.p.pc.runtime.value}, pc := Dropping(s.p.pc.loop, None)))
  }

  predicate CanDropLoop(s: State) {
    s.p.pc.Dropping? && s.p.pc.runtime.None? && KnownLoop(s.p, s.p.pc.loop)
  }

  function DoDropLoop(s: State): State
    requires CanDropLoop(s)
  {
    var p, l := s.p, s.p.pc.loop;
    s.(p := p.(suspensions := p.suspensions[l := NOBODY],
               channels := p.channels[l := p.channels[l].(receiving := false)],
               abandoned := p.abandoned + p.suspensions[l].Keys,
               pc := Idle))
  }

  // ----- A worker thread

  /** `notify_all` on the slot of `id`. */
  function SlotNotified(pc: Pc, id: Id): Pc {
    if pc.SlotWaiting? && pc.id == id then SlotWaiting(id, false) else pc
  }

  /** `notify_all` on the `borrowing_ended` of `l`. */
  function BorrowNotified(pc: Pc, l: LoopId): Pc {
    if pc.BorrowWaiting? && pc.loop == l then BorrowWaiting(l, false) else pc
  }

  function Moved(p: Proc, id: Id, phase: Phase): map<Id, Task>
    requires id in p.tasks
  {
    p.tasks[id := p.tasks[id].(phase := phase)]
  }

  /** The future ends, and is dropped. */
  function WorkPoll(s: State, id: Id, outcome: Outcome): State {
    s.(p := s.p.(tasks := s.p.tasks[id := Task(if outcome.Produced? then Setting else Finishing, Some(outcome))]))
  }

  predicate HasValue(t: Task) {
    t.outcome.Some? && t.outcome.value.Produced?
  }

  /** Takes the lock of the slot, or releases it. */
  function WorkLock(s: State, id: Id, phase: Phase): State
    requires OwnCall(s.p, id)
  {
    s.(p := s.p.(tasks := Moved(s.p, id, phase)))
  }

  function WorkSet(s: State, id: Id): State
    requires OwnCall(s.p, id) && HasValue(s.p.tasks[id])
  {
    s.(p := s.p.(tasks := Moved(s.p, id, Stored), slots := s.p.slots[id := AfterSet(s.p.tasks[id].outcome.value.value)]))
  }

  function WorkNotifySet(s: State, id: Id): State
    requires OwnCall(s.p, id)
  {
    s.(p := s.p.(tasks := Moved(s.p, id, Finishing), pc := SlotNotified(s.p.pc, id)))
  }

  function WorkFinish(s: State, id: Id): State
    requires OwnCall(s.p, id)
  {
    s.(p := s.p.(tasks := Moved(s.p, id, Closed), slots := s.p.slots[id := AfterFinish(s.p.slots[id])],
                 pc := SlotNotified(s.p.pc, id)))
  }

  /** Sending fails once the receiver is dropped, and the failure is ignored. */
  function WorkSend(s: State, id: Id): State
    requires OwnCall(s.p, id)
  {
    var l := s.p.calls[id].loop;
    var c := s.p.channels[l];
    s.(p := s.p.(tasks := Moved(s.p, id, Swapping),
                 channels := s.p.channels[l := if c.receiving then c.(queue := c.queue + [id]) else c]))
  }

  function WorkSwap(s: State, id: Id): State
    requires OwnCall(s.p, id)
  {
    var l := s.p.calls[id].loop;
    var f := s.p.flags[l];
    s.(p := s.p.(tasks := Moved(s.p, id, if f.pending then Ending else Writing), flags := s.p.flags[l := f.(pending := true)]))
  }

  function WorkWrite(s: State, id: Id): State
    requires OwnCall(s.p, id) && s.p.loops[s.p.calls[id].loop].socket in s.sockets
  {
    var loop := s.p.loops[s.p.calls[id].loop];
    State(s.p.(tasks := Moved(s.p, id, Ending)),
          s.sockets[loop.socket := Notify.AfterWrite(s.sockets[loop.socket], loop.capacity)])
  }

  /** `Task::drop`, up to the end of its critical section. */
  function WorkEnd(s: State, id: Id): State
    requires OwnCall(s.p, id)
  {
    var l := s.p.calls[id].loop;
    var (tasks, taken) := AfterEnd(s.p.keepers[l].tasks, s.p.calls[id].borrowing);
    s.(p := s.p.(tasks := Moved(s.p, id, if taken.Some? then Releasing(taken.value) else Ended),
                 keepers := s.p.keepers[l := s.p.keepers[l].(tasks := tasks)],
                 pc := BorrowNotified(s.p.pc, l)))
  }

  /** `shutdown_background`. */
  function WorkRelease(s: State, id: Id): State
    requires OwnCall(s.p, id) && s.p.tasks[id].phase.Releasing?
  {
    s.(p := s.p.(tasks := Moved(s.p, id, Ended), released := s.p.released + multiset{s.p.tasks[id].phase.runtime}))
  }

  /** A task has a step unless it is over, not launched, or its future needs a worker thread and all are kept. */
  predicate CanWork(s: State, id: Id) {
    && OwnCall(s.p, id)
    && var l := s.p.calls[id].loop;
       match s.p.tasks[id].phase
       case Unstarted => false
       case Unlaunched => false
       case Polling => |Busy(s.p.calls, s.p.tasks, l)| < s.p.loops[l].workers
       case Storing => HasValue(s.p.tasks[id])
       case Writing => s.p.loops[l].socket in s.sockets
       case Ended => false
       case _ => true
  }

  function DoWork(s: State, id: Id, outcome: Outcome): State
    requires CanWork(s, id)
  {
    match s.p.tasks[id].phase
    case Polling => WorkPoll(s, id, outcome)
    case Setting => WorkLock(s, id, Storing)
    case Storing => WorkSet(s, id)
    case Stored => WorkLock(s, id, SetNotifying)
    case SetNotifying => WorkNotifySet(s, id)
    case Finishing => WorkLock(s, id, Closing)
    case Closing => WorkFinish(s, id)
    case Closed => WorkLock(s, id, Sending)
    case Sending => WorkSend(s, id)
    case Swapping => WorkSwap(s, id)
    case Writing => WorkWrite(s, id)
    case Ending => WorkEnd(s, id)
    case Releasing(_) => WorkRelease(s, id)
  }

  // ----- All of them

  /** The steps that PHP code or the environment takes. */
  predicate Outer(step: Step) {
    step.Init? || step.Spawn? || step.Wakeup? || step.Drain? || step.Shutdown? || step.ResumeCall?
    || step.ForeignResume? || step.Continue? || step.Interrupt? || step.Free?
  }

  predicate OuterEnabled(s: State, step: Step) {
    match step
    case Init(_, l, k, workers, capacity) => CanInit(s, l, k, workers, capacity)
    case Spawn(f, _) => CanSpawn(s, f)
    case Wakeup => s.p.pc.Idle?
    case Drain => s.p.pc.Idle?
    case Shutdown => s.p.pc.Idle?
    case ResumeCall(id, t) => CanResume(s, id, t)
    case ForeignResume(id) => IdleWith(s, id) && s.p.callers[id].Suspended?
    case Continue(id) => CanContinue(s, id)
    case Interrupt(id, _) => CanInterrupt(s, id)
    case Free(id) => CanFree(s, id)
    case _ => false
  }

  function ApplyOuter(s: State, step: Step): State
    requires OuterEnabled(s, step)
  {
    match step
    case Init(owned, l, k, workers, capacity) =>
      if Initializes(s.p, owned) then DoInit(s, owned, l, k, workers, capacity) else s
    case Spawn(f, borrowing) => if Usable(s.p) then DoSpawn(s, f, borrowing) else s   // no event loop, or FORKED
    case Wakeup => if Usable(s.p) then DoWakeup(s) else s
    case Drain => if Usable(s.p) then DoDrain(s) else s
    case Shutdown => DoShutdown(s)
    case ResumeCall(id, t) => DoResumeCall(s, id, t)
    case ForeignResume(id) => DoForeignResume(s, id)
    case Continue(id) => DoContinue(s, id)
    case Interrupt(id, exit) => DoInterrupt(s, id, exit)
    case Free(id) => DoFree(s, id)
  }

  predicate InnerEnabled(s: State, step: Step) {
    match step
    case Start => CanStart(s)
    case Launch => CanLaunch(s)
    case Suspend(_) => CanSuspend(s)
    case Unregister => CanUnregister(s)
    case Return => CanReturn(s)
    case DeadlinePasses => s.p.pc.Receiving? && !s.p.pc.late
    case Receive => CanReceive(s)
    case Read => CanRead(s)
    case Rearm => CanRearm(s)
    case Collect => CanCollect(s)
    case CheckSlot => CanCheckSlot(s)
    case CheckBorrowing => CanCheckBorrowing(s)
    case WakeSpuriously => Asleep(s.p.pc)
    case Release => CanRelease(s)
    case DropRuntime => CanDropRuntime(s)
    case DropLoop => CanDropLoop(s)
    case _ => false
  }

  function ApplyInner(s: State, step: Step): State
    requires InnerEnabled(s, step)
  {
    match step
    case Start => DoStart(s)
    case Launch => DoLaunch(s)
    case Suspend(ok) => DoSuspend(s, ok)
    case Unregister => DoUnregister(s)
    case Return => DoReturn(s)
    case DeadlinePasses => DoDeadline(s)
    case Receive => DoReceiveNext(s)
    case Read => DoReadNext(s)
    case Rearm => DoRearm(s)
    case Collect => DoCollectNext(s)
    case CheckSlot => DoCheckSlot(s)
    case CheckBorrowing => DoCheckBorrowing(s)
    case WakeSpuriously => DoWakeSpuriously(s)
    case Release => DoRelease(s)
    case DropRuntime => DoDropRuntime(s)
    case DropLoop => DoDropLoop(s)
  }

  predicate Enabled(s: State, step: Step) {
    if step.Work? then CanWork(s, step.id)
    else if Outer(step) then OuterEnabled(s, step)
    else InnerEnabled(s, step)
  }

  function Apply(s: State, step: Step): State
    requires Enabled(s, step)
  {
    if step.Work? then DoWork(s, step.id, step.outcome)
    else if Outer(step) then ApplyOuter(s, step)
    else ApplyInner(s, step)
  }
}
