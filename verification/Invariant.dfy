/** What holds in every reachable state of a process: one predicate per concern, over the fields it is about. */
module Invariant {
  import opened Basics
  import opened Slots
  import opened TaskCounters
  import opened States

  type Suspensions = map<LoopId, map<Id, Fiber>>
  type Calls = map<Id, Call>
  type TaskMap = map<Id, Task>

  function AsNat(b: bool): nat { if b then 1 else 0 }

  /** Every loop and every call has all its fields; names resolve. */
  ghost predicate Shape(p: Proc) {
    && p.suspensions.Keys == p.loops.Keys && p.channels.Keys == p.loops.Keys
    && p.flags.Keys == p.loops.Keys && p.keepers.Keys == p.loops.Keys
    && p.tasks.Keys == p.calls.Keys && p.slots.Keys == p.calls.Keys && p.callers.Keys == p.calls.Keys
    && (forall id | id in p.calls :: id < p.nextId && p.calls[id].loop in p.loops)
    && (p.current.Some? ==> p.current.value in p.loops)
  }

  /** The loops of this process have sockets of their own. */
  ghost predicate SocketsOk(loops: map<LoopId, Loop>, own: set<LoopId>, sockets: map<Sock, nat>) {
    && (forall l | l in own :: l in loops && loops[l].socket in sockets)
    && (forall l, m | l in own && m in own && l != m :: loops[l].socket != loops[m].socket)
  }

  predicate Spawns(p: Proc, id: Id) {
    KnownCall(p, id) && Usable(p) && p.calls[id].loop == p.current.value && p.callers[id].Spawning?
  }

  /** What the program counter says. */
  ghost predicate PcOk(p: Proc) {
    match p.pc
    case Idle => true
    case Registered(id) => Spawns(p, id) && p.tasks[id].phase.Unstarted?
    case Started(id) => Spawns(p, id) && p.tasks[id].phase.Unlaunched?
    case Suspending(id) => Spawns(p, id)
    case Unregistering(id, how) => KnownCall(p, id) && p.callers[id].Unwinding? && (how.Failing? ==> OwnCall(p, id))
    case Unregistered(id, how) => KnownCall(p, id) && p.callers[id].Unwinding? && (how.Failing? ==> OwnCall(p, id))
    case SlotWaiting(id, _) => KnownCall(p, id) && p.callers[id].Waiting?
    case BorrowWaiting(l, _) => l in p.loops && p.loops[l].pid == p.pid && p.current.None?
    case ReleasingRuntime(l) => l in p.loops && p.loops[l].pid == p.pid && p.current.None?
    case Dropping(l, _) => l in p.loops && p.loops[l].pid == p.pid && p.current.None?
    case _ => Usable(p)
  }

  predicate SpawnsIn(pc: Pc, id: Id) {
    (pc.Registered? || pc.Started? || pc.Suspending?) && pc.id == id
  }

  /** What says the program counter. */
  ghost predicate PlacesOk(pc: Pc, tasks: TaskMap, callers: map<Id, Caller>) {
    && (forall id | id in tasks ::
          && (tasks[id].phase.Unstarted? ==> pc == Registered(id))
          && (tasks[id].phase.Unlaunched? ==> pc == Started(id)))
    && (forall id | id in callers ::
          && (callers[id].Spawning? ==> SpawnsIn(pc, id))
          && (callers[id].Unwinding? ==> (pc.Unregistering? || pc.Unregistered?) && pc.id == id)
          && (callers[id].Waiting? ==> pc.SlotWaiting? && pc.id == id))
  }

  /** The slot of a future that ended so, once `finish` ran: its result, or nothing any more. */
  predicate SlotOver(slot: SlotState, outcome: Outcome) {
    slot == Taken || slot == if outcome.Produced? then Completed(outcome.value) else Panicked
  }

  /** Before `finish`: the slot of a future that panicked still runs. */
  predicate EndOk(t: Task, slot: SlotState) {
    t.outcome.Some? && if t.outcome.value.Panic? then slot == Running else SlotOver(slot, t.outcome.value)
  }

  /** The slot follows the task. */
  predicate SlotOk(t: Task, slot: SlotState) {
    match t.phase
    case Setting => t.outcome.Some? && t.outcome.value.Produced? && slot == Running
    case Storing => t.outcome.Some? && t.outcome.value.Produced? && slot == Running
    case Stored => t.outcome.Some? && t.outcome.value.Produced? && slot == Completed(t.outcome.value.value)
    case SetNotifying => t.outcome.Some? && t.outcome.value.Produced? && SlotOver(slot, t.outcome.value)
    case Finishing => EndOk(t, slot)
    case Closing => EndOk(t, slot)
    case _ => if FutureAlive(t.phase) then t.outcome == None && slot == Running
              else t.outcome.Some? && SlotOver(slot, t.outcome.value)
  }

  /** The result is the future's own, moved out once. */
  predicate ResultOk(t: Task, slot: SlotState, c: Caller) {
    && (slot == Taken <==> c.Left? && (c.exit.Returned? || c.exit.FuturePanicked?))
    && (c.Left? && c.exit.Returned? ==> t.outcome == Some(Produced(c.exit.value)))
    && (c.Left? && c.exit.FuturePanicked? ==> t.outcome == Some(Panic))
  }

  ghost predicate SlotsOk(tasks: TaskMap, slots: map<Id, SlotState>) {
    forall id | id in tasks && id in slots :: SlotOk(tasks[id], slots[id])
  }

  ghost predicate ResultsOk(tasks: TaskMap, slots: map<Id, SlotState>, callers: map<Id, Caller>) {
    forall id | id in tasks && id in slots && id in callers :: ResultOk(tasks[id], slots[id], callers[id])
  }

  /** `suspensions` holds calls of its own loop. */
  ghost predicate RegistryOk(calls: Calls, suspensions: Suspensions) {
    forall l, id | l in suspensions && id in suspensions[l] ::
      id in calls && calls[id].loop == l && suspensions[l][id] == calls[id].fiber
  }

  predicate ShutsDown(pc: Pc, l: LoopId) {
    (pc.BorrowWaiting? || pc.ReleasingRuntime? || pc.Dropping?) && pc.loop == l
  }

  /** A loop in use receives; a loop that was shut down holds nothing. */
  ghost predicate ClosedOk(own: set<LoopId>, current: Option<LoopId>, pc: Pc, suspensions: Suspensions,
                           channels: map<LoopId, Channel>)
  {
    forall l | l in own && l in suspensions && l in channels ::
      if current == Some(l) || ShutsDown(pc, l) then channels[l].receiving
      else !channels[l].receiving && suspensions[l] == NOBODY
  }

  function Accepted(c: Channel): seq<Id> {
    c.received + c.queue
  }

  /** An ID is sent at most once, by its task. */
  ghost predicate ChannelOk(calls: Calls, tasks: TaskMap, channels: map<LoopId, Channel>) {
    forall l | l in channels ::
      && Distinct(Accepted(channels[l]))
      && forall id | id in Accepted(channels[l]) :: id in calls && id in tasks && calls[id].loop == l && Sent(tasks[id].phase)
  }

  /** A registered caller whose task sent its ID has it in the channel: no completion is lost. */
  ghost predicate DeliveryOk(tasks: TaskMap, suspensions: Suspensions, channels: map<LoopId, Channel>) {
    forall l, id | l in suspensions && id in suspensions[l] ::
      id in tasks && Sent(tasks[id].phase) && l in channels && channels[l].receiving ==> id in channels[l].queue
  }

  /** The counters count the tasks. */
  ghost predicate CountersOk(calls: Calls, tasks: TaskMap, keepers: map<LoopId, Keeper>) {
    forall l | l in keepers ::
      && keepers[l].tasks.running == |Tokens(calls, tasks, l)|
      && keepers[l].tasks.borrowing == |Borrowers(calls, tasks, l)|
  }

  /** Each busy task has a worker thread of its own; the socket has room for them. */
  ghost predicate WorkersOk(loops: map<LoopId, Loop>, calls: Calls, tasks: TaskMap) {
    forall l | l in loops ::
      |Busy(calls, tasks, l)| <= loops[l].workers && 1 <= loops[l].workers && loops[l].workers + 2 <= loops[l].capacity
  }

  /** In the wakeup sequence of `l`, at `pc`. */
  predicate Now(current: Option<LoopId>, l: LoopId, at: bool) {
    current == Some(l) && at
  }

  /** A clear flag leaves no completion behind: its task will set it, or PHP is collecting. */
  ghost predicate FlagClearOk(own: set<LoopId>, current: Option<LoopId>, pc: Pc, calls: Calls, tasks: TaskMap,
                              channels: map<LoopId, Channel>, flags: map<LoopId, Flag>)
  {
    forall l | l in own && l in channels && l in flags ::
      channels[l].queue != [] && channels[l].receiving && !flags[l].pending ==>
        Now(current, l, pc.Collecting?) || Swappers(calls, tasks, l) != {}
  }

  /** A set flag has its byte, in the socket or about to be written, or PHP is about to clear it. */
  ghost predicate FlagSetOk(own: set<LoopId>, current: Option<LoopId>, pc: Pc, loops: map<LoopId, Loop>, calls: Calls,
                            tasks: TaskMap, flags: map<LoopId, Flag>, sockets: map<Sock, nat>)
  {
    forall l | l in own && l in flags && l in loops && loops[l].socket in sockets ::
      flags[l].pending ==>
        sockets[loops[l].socket] > 0 || Writers(calls, tasks, l) != {} || Now(current, l, pc.Draining? || pc.Rearming?)
  }

  /** What may be in the socket: the writes that straddled the last drain, and two more. */
  ghost predicate OccupancyOk(own: set<LoopId>, current: Option<LoopId>, pc: Pc, loops: map<LoopId, Loop>, calls: Calls,
                              tasks: TaskMap, flags: map<LoopId, Flag>, sockets: map<Sock, nat>)
  {
    forall l | l in own && l in flags && l in loops && loops[l].socket in sockets ::
      && sockets[loops[l].socket] + |Writers(calls, tasks, l)| + AsNat(!flags[l].pending) + AsNat(Now(current, l, pc.Rearming?))
           <= flags[l].straddlers + 2
      && flags[l].straddlers <= loops[l].workers
  }

  /** Only the loop of EVENTLOOP, or one that `shutdown` still waits for, has futures that borrow. */
  ghost predicate ShutOk(own: set<LoopId>, current: Option<LoopId>, pc: Pc, keepers: map<LoopId, Keeper>) {
    forall l | l in own && l in keepers && current != Some(l) ::
      (pc.BorrowWaiting? && pc.loop == l) || keepers[l].tasks.borrowing == 0
  }

  /** A future that borrows from its caller never outlives the caller's frame. */
  ghost predicate BorrowOk(own: set<LoopId>, calls: Calls, tasks: TaskMap, callers: map<Id, Caller>) {
    forall id | id in calls && id in tasks && id in callers ::
      calls[id].loop in own && calls[id].borrowing && FutureAlive(tasks[id].phase) ==> FrameAlive(callers[id])
  }

  predicate StillRegistered(calls: Calls, suspensions: Suspensions, id: Id) {
    id in calls && calls[id].loop in suspensions && id in suspensions[calls[id].loop]
  }

  /** Each ID has one fate: registered, collected, unregistered by its caller, or abandoned by `shutdown`. */
  ghost predicate FatesOk(calls: Calls, suspensions: Suspensions, collected: seq<Id>, unregistered: set<Id>,
                          abandoned: set<Id>)
  {
    forall id ::
      AsNat(StillRegistered(calls, suspensions, id)) + AsNat(id in collected) + AsNat(id in unregistered)
        + AsNat(id in abandoned) == AsNat(id in calls)
  }

  /** The ready list being built. */
  function Ready(pc: Pc): seq<Id> {
    if pc.Receiving? || pc.Draining? || pc.Rearming? || pc.Collecting? then pc.ready else []
  }

  /** Callers are collected once, after their task sent their ID. */
  ghost predicate CollectedOk(pc: Pc, tasks: TaskMap, callers: map<Id, Caller>, toResume: set<Id>, collected: seq<Id>) {
    && Distinct(collected)
    && (forall id | id in collected :: id in tasks && Sent(tasks[id].phase))
    && (forall id | id in toResume || id in Ready(pc) :: id in collected)
    && (forall id | id in callers :: callers[id] == Resumable(Handed) || callers[id] == Waiting(Handed) ==> id in collected)
  }

  /** `set` stored the value, and is about to notify. */
  predicate WillNotify(t: Phase) {
    t.Stored? || t.SetNotifying?
  }

  /** A sleeping PHP thread still has a notification to come. */
  ghost predicate MonitorOk(pc: Pc, tasks: TaskMap, slots: map<Id, SlotState>, keepers: map<LoopId, Keeper>) {
    && (pc.SlotWaiting? && pc.asleep ==>
          pc.id in tasks && pc.id in slots && (slots[pc.id] == Running || WillNotify(tasks[pc.id].phase)))
    && (pc.BorrowWaiting? && pc.asleep ==> pc.loop in keepers && keepers[pc.loop].tasks.borrowing > 0)
  }

  /** `shutdown` did not take the runtime yet. */
  predicate HoldsRuntime(current: Option<LoopId>, pc: Pc, l: LoopId) {
    current == Some(l) || ((pc.BorrowWaiting? || pc.ReleasingRuntime?) && pc.loop == l)
  }

  /** An owned runtime is in one place: the loop, parked, in `shutdown`'s hands, in the last task's hands, or released. */
  ghost predicate RuntimeOk(l: LoopId, owns: bool, current: Option<LoopId>, pc: Pc, k: Keeper, releasers: set<Id>,
                            released: nat)
  {
    && k.runtime == (if owns && HoldsRuntime(current, pc, l) then Some(l) else None)
    && (k.tasks.release == None || k.tasks.release == Some(l))
    && AsNat(k.runtime.Some?) + AsNat(k.tasks.release.Some?) + AsNat(pc == Dropping(l, Some(l))) + |releasers| + released
         == AsNat(owns)
    && (k.tasks.release.Some? ==> k.tasks.running > 0)
    && (releasers != {} || released > 0 || pc == Dropping(l, Some(l)) ==> k.tasks.running == 0 && current != Some(l))
  }

  ghost predicate RuntimesOk(p: Proc) {
    && (forall l | l in Own(p.pid, p.loops) && l in p.keepers ::
          RuntimeOk(l, p.loops[l].ownsRuntime, p.current, p.pc, p.keepers[l], Releasers(p.calls, p.tasks, l), p.released[l]))
    && (p.pc.Dropping? && p.pc.runtime.Some? ==> p.pc.runtime.value == p.pc.loop)
    && (forall id | id in p.calls && id in p.tasks && p.tasks[id].phase.Releasing? ::
          p.tasks[id].phase.runtime == p.calls[id].loop)
  }

  /** A loop of this process runs its futures on a runtime created in this process. */
  ghost predicate OriginOk(loops: map<LoopId, Loop>) {
    forall l | l in loops :: loops[l].runtimePid == loops[l].pid
  }

  /** A fiber is in one call at a time. */
  ghost predicate FibersOk(calls: Calls, callers: map<Id, Caller>) {
    forall i, j | i in calls && j in calls && i in callers && j in callers && i != j ::
      FrameAlive(callers[i]) && FrameAlive(callers[j]) ==> calls[i].fiber != calls[j].fiber
  }

  // ----- The invariant, in groups: each is kept by every step, given the few it depends on

  /** Program counter, tasks and callers agree. */
  ghost predicate StructureInv(s: State) {
    s.p.order == DrainFirst && Shape(s.p) && PcOk(s.p) && PlacesOk(s.p.pc, s.p.tasks, s.p.callers)
  }

  /** The loops have sockets and runtimes of their own process. */
  ghost predicate SocketInv(s: State) {
    SocketsOk(s.p.loops, Own(s.p.pid, s.p.loops), s.sockets) && OriginOk(s.p.loops)
  }

  /** The slots follow the tasks, and sleepers are notified. */
  ghost predicate SlotInv(s: State) {
    var p := s.p;
    SlotsOk(p.tasks, p.slots) && ResultsOk(p.tasks, p.slots, p.callers) && MonitorOk(p.pc, p.tasks, p.slots, p.keepers)
  }

  /** Registered callers and sent IDs meet. */
  ghost predicate RegistryInv(s: State) {
    var p := s.p;
    && RegistryOk(p.calls, p.suspensions)
    && ClosedOk(Own(p.pid, p.loops), p.current, p.pc, p.suspensions, p.channels)
    && ChannelOk(p.calls, p.tasks, p.channels) && DeliveryOk(p.tasks, p.suspensions, p.channels)
  }

  /** What became of each ID. */
  ghost predicate FateInv(s: State) {
    var p := s.p;
    && FatesOk(p.calls, p.suspensions, p.collected, p.unregistered, p.abandoned)
    && CollectedOk(p.pc, p.tasks, p.callers, p.toResume, p.collected)
  }

  /** Who may still borrow. */
  ghost predicate BorrowInv(s: State) {
    var own := Own(s.p.pid, s.p.loops);
    ShutOk(own, s.p.current, s.p.pc, s.p.keepers) && BorrowOk(own, s.p.calls, s.p.tasks, s.p.callers)
  }

  /** The tasks and the threads are counted. */
  ghost predicate CountInv(s: State) {
    CountersOk(s.p.calls, s.p.tasks, s.p.keepers) && WorkersOk(s.p.loops, s.p.calls, s.p.tasks)
  }

  /** The wakeup protocol: the flag, and the bytes in the socket. */
  ghost predicate WakeupInv(s: State) {
    var p := s.p;
    var own := Own(p.pid, p.loops);
    && FlagClearOk(own, p.current, p.pc, p.calls, p.tasks, p.channels, p.flags)
    && FlagSetOk(own, p.current, p.pc, p.loops, p.calls, p.tasks, p.flags, s.sockets)
    && OccupancyOk(own, p.current, p.pc, p.loops, p.calls, p.tasks, p.flags, s.sockets)
  }

  ghost predicate Inv(s: State) {
    && StructureInv(s) && SocketInv(s) && SlotInv(s) && RegistryInv(s) && FateInv(s) && BorrowInv(s) && CountInv(s)
    && RuntimesOk(s.p) && WakeupInv(s) && FibersOk(s.p.calls, s.p.callers)
  }

  lemma InitialInv(pid: Pid, sockets: map<Sock, nat>)
    ensures Inv(State(InitialProc(pid, DrainFirst), sockets))
  {
  }
}
