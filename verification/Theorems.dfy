/** What the code promises, in every reachable state of every process. */
module Theorems {
  import opened Basics
  import opened Slots
  import opened States
  import opened Steps
  import opened Invariant
  import opened Worlds

  ghost predicate In(w: World, pid: Pid) {
    Reachable(w) && pid in w.procs
  }

  lemma InvIn(w: World, pid: Pid)
    requires In(w, pid)
    ensures Inv(At(w, pid)) && w.procs[pid].pid == pid
  {
    ReachableInv(w);
  }

  // What each theorem needs of it.

  lemma StructureIn(w: World, pid: Pid)
    requires In(w, pid)
    ensures StructureInv(At(w, pid)) && w.procs[pid].pid == pid
  {
    InvIn(w, pid);
  }

  lemma SocketsIn(w: World, pid: Pid)
    requires In(w, pid)
    ensures SocketInv(At(w, pid)) && w.procs[pid].pid == pid
  {
    InvIn(w, pid);
  }

  lemma SlotsIn(w: World, pid: Pid)
    requires In(w, pid)
    ensures SlotInv(At(w, pid))
  {
    InvIn(w, pid);
  }

  lemma RegistryIn(w: World, pid: Pid)
    requires In(w, pid)
    ensures RegistryInv(At(w, pid))
  {
    InvIn(w, pid);
  }

  lemma FatesIn(w: World, pid: Pid)
    requires In(w, pid)
    ensures FateInv(At(w, pid))
  {
    InvIn(w, pid);
  }

  lemma BorrowsIn(w: World, pid: Pid)
    requires In(w, pid)
    ensures BorrowInv(At(w, pid))
  {
    InvIn(w, pid);
  }

  lemma CountsIn(w: World, pid: Pid)
    requires In(w, pid)
    ensures CountInv(At(w, pid))
  {
    InvIn(w, pid);
  }

  lemma RuntimesIn(w: World, pid: Pid)
    requires In(w, pid)
    ensures RuntimesOk(w.procs[pid])
  {
    InvIn(w, pid);
  }

  lemma WakeupIn(w: World, pid: Pid)
    requires In(w, pid)
    ensures WakeupInv(At(w, pid))
  {
    InvIn(w, pid);
  }

  /** A loop of this process, whose `shutdown` returned. */
  predicate ShutDown(p: Proc, l: LoopId) {
    l in p.loops && p.loops[l].pid == p.pid && p.current != Some(l) && !ShutsDown(p.pc, l)
  }

  /** Outside `wakeup` and `drain`. */
  predicate Outside(pc: Pc) {
    !pc.Receiving? && !pc.Draining? && !pc.Rearming? && !pc.Collecting?
  }

  // ----- Borrowing

  lemma NoFutureBorrows(s: State, id: Id)
    requires StructureInv(s) && SlotsOk(s.p.tasks, s.p.slots) && BorrowInv(s) && CountersOk(s.p.calls, s.p.tasks, s.p.keepers)
    requires id in s.p.calls && ShutDown(s.p, s.p.calls[id].loop)
    ensures s.p.calls[id].borrowing ==> Sent(s.p.tasks[id].phase)
    ensures s.p.calls[id].borrowing ==> s.p.slots[id] != Running
  {
    var l := s.p.calls[id].loop;
    assert l in Own(s.p.pid, s.p.loops);
    if s.p.calls[id].borrowing {
      assert s.p.keepers[l].tasks.borrowing == |Borrowers(s.p.calls, s.p.tasks, l)|;
      assert id !in Borrowers(s.p.calls, s.p.tasks, l);
      assert SlotOk(s.p.tasks[id], s.p.slots[id]);
    }
  }

  lemma NoFutureBorrowsIn(w: World, pid: Pid, id: Id)
    requires In(w, pid) && id in w.procs[pid].calls && ShutDown(w.procs[pid], w.procs[pid].calls[id].loop)
    ensures id in w.procs[pid].tasks && id in w.procs[pid].slots
    ensures w.procs[pid].calls[id].borrowing ==> Sent(w.procs[pid].tasks[id].phase) && w.procs[pid].slots[id] != Running
  {
    StructureIn(w, pid);
    SlotsIn(w, pid);
    BorrowsIn(w, pid);
    CountsIn(w, pid);
    NoFutureBorrows(At(w, pid), id);
  }

  /** The claim of `suspend_on`: while a future that may borrow from its caller is alive, the caller's frame is
      alive, and `shutdown` did not return. */
  lemma BorrowSafety(w: World, pid: Pid, id: Id)
    requires In(w, pid) && OwnCall(w.procs[pid], id)
    ensures var p := w.procs[pid];
      p.calls[id].borrowing && FutureAlive(p.tasks[id].phase) ==>
        FrameAlive(p.callers[id]) && !ShutDown(p, p.calls[id].loop)
  {
    StructureIn(w, pid);
    BorrowsIn(w, pid);
    var p := w.procs[pid];
    assert p.calls[id].loop in Own(p.pid, p.loops);
    if ShutDown(p, p.calls[id].loop) {
      NoFutureBorrowsIn(w, pid, id);
    }
  }

  // ----- Wakeups

  /** No lost wakeup: outside `wakeup` and `drain`, once every task that sent its ID ended its notification, a
      completion that waits makes the stream readable. */
  lemma NoLostWakeup(w: World, pid: Pid)
    requires In(w, pid) && Usable(w.procs[pid]) && Outside(w.procs[pid].pc)
    ensures var p, l := w.procs[pid], w.procs[pid].current.value;
      p.channels[l].queue != [] && Swappers(p.calls, p.tasks, l) == {} && Writers(p.calls, p.tasks, l) == {} ==>
        p.loops[l].socket in w.sockets && w.sockets[p.loops[l].socket] > 0
  {
    StructureIn(w, pid);
    SocketsIn(w, pid);
    RegistryIn(w, pid);
    WakeupIn(w, pid);
    var p := w.procs[pid];
    assert p.current.value in Own(p.pid, p.loops);
  }

  /** No lost completion: a registered caller whose task sent its ID has it in the channel, and the stream is
      readable, or a task is on its way to make it so. */
  lemma NoLostCompletion(w: World, pid: Pid, id: Id)
    requires In(w, pid) && Usable(w.procs[pid]) && id in w.procs[pid].suspensions[w.procs[pid].current.value]
    requires id in w.procs[pid].tasks && Sent(w.procs[pid].tasks[id].phase)
    ensures var p, l := w.procs[pid], w.procs[pid].current.value;
      && id in p.channels[l].queue
      && (Outside(p.pc) ==>
            p.loops[l].socket in w.sockets
            && (w.sockets[p.loops[l].socket] > 0 || Swappers(p.calls, p.tasks, l) != {} || Writers(p.calls, p.tasks, l) != {}))
  {
    StructureIn(w, pid);
    SocketsIn(w, pid);
    RegistryIn(w, pid);
    WakeupIn(w, pid);
    var p, l := w.procs[pid], w.procs[pid].current.value;
    assert l in Own(p.pid, p.loops);
    assert id in p.channels[l].queue;
  }

  /** The bytes in the socket, with the writes in flight: two, and those that straddled the last drain, at most one a
      worker thread. So a write always finds room. */
  lemma SocketBound(w: World, pid: Pid, l: LoopId)
    requires In(w, pid) && l in Own(pid, w.procs[pid].loops)
    ensures Shape(w.procs[pid])
    ensures var p := w.procs[pid];
      && p.loops[l].socket in w.sockets
      && w.sockets[p.loops[l].socket] + |Writers(p.calls, p.tasks, l)| <= p.flags[l].straddlers + 2
      && p.flags[l].straddlers <= p.loops[l].workers
      && (Writers(p.calls, p.tasks, l) != {} ==> w.sockets[p.loops[l].socket] < p.loops[l].capacity)
  {
    StructureIn(w, pid);
    SocketsIn(w, pid);
    CountsIn(w, pid);
    WakeupIn(w, pid);
  }

  // ----- Counters and runtimes

  /** The counters are reference counts: they never underflow, and without a borrowing task every future of
      `suspend_on` is dropped, its slot over, its ID sent. */
  lemma CountersCount(w: World, pid: Pid, l: LoopId)
    requires In(w, pid) && l in w.procs[pid].loops
    ensures Shape(w.procs[pid])
    ensures var p := w.procs[pid];
      && p.keepers[l].tasks.running == |Tokens(p.calls, p.tasks, l)|
      && p.keepers[l].tasks.borrowing == |Borrowers(p.calls, p.tasks, l)|
      && 0 <= p.keepers[l].tasks.borrowing <= p.keepers[l].tasks.running
      && (p.keepers[l].tasks.borrowing == 0 ==>
            forall id | id in p.calls && p.calls[id].loop == l && p.calls[id].borrowing && p.pc != Registered(id) ::
              Sent(p.tasks[id].phase) && p.slots[id] != Running)
  {
    StructureIn(w, pid);
    SlotsIn(w, pid);
    CountsIn(w, pid);
    var p := w.procs[pid];
    SubsetSize(Borrowers(p.calls, p.tasks, l), Tokens(p.calls, p.tasks, l));
    if p.keepers[l].tasks.borrowing == 0 {
      assert Borrowers(p.calls, p.tasks, l) == {};
      forall id | id in p.calls && p.calls[id].loop == l && p.calls[id].borrowing && p.pc != Registered(id)
        ensures Sent(p.tasks[id].phase) && p.slots[id] != Running
      {
        assert id !in Borrowers(p.calls, p.tasks, l);
        assert SlotOk(p.tasks[id], p.slots[id]);
      }
    }
  }

  /** An owned runtime is in exactly one place; parked, it still runs a future. */
  lemma RuntimeInOnePlace(w: World, pid: Pid, l: LoopId)
    requires In(w, pid) && l in Own(pid, w.procs[pid].loops)
    ensures Shape(w.procs[pid])
    ensures var p := w.procs[pid];
      && AsNat(p.keepers[l].runtime == Some(l)) + AsNat(p.keepers[l].tasks.release == Some(l))
           + AsNat(p.pc == Dropping(l, Some(l))) + |Releasers(p.calls, p.tasks, l)| + p.released[l]
         == AsNat(p.loops[l].ownsRuntime)
      && (p.keepers[l].tasks.release == Some(l) ==> p.keepers[l].tasks.running > 0)
  {
    StructureIn(w, pid);
    RuntimesIn(w, pid);
  }

  lemma NoTokens(p: Proc, l: LoopId, id: Id)
    requires PlacesOk(p.pc, p.tasks, p.callers) && PcOk(p) && id in p.calls && id in p.tasks
    requires |Tokens(p.calls, p.tasks, l)| == 0 && p.calls[id].loop == l && p.current != Some(l)
    ensures p.tasks[id].phase.Releasing? || p.tasks[id].phase.Ended?
  {
    assert id !in Tokens(p.calls, p.tasks, l);
  }

  /** No future is cancelled: a runtime is dropped, by anyone, only once all its tasks are over; none can start any more. */
  lemma RuntimeOutlivesFutures(w: World, pid: Pid, l: LoopId)
    requires In(w, pid) && l in Own(pid, w.procs[pid].loops)
    requires var p := w.procs[pid];
      p.released[l] > 0 || p.pc == Dropping(l, Some(l)) || Releasers(p.calls, p.tasks, l) != {}
    ensures Shape(w.procs[pid])
    ensures var p := w.procs[pid];
      && p.current != Some(l)
      && forall id | id in p.calls && p.calls[id].loop == l :: p.tasks[id].phase.Releasing? || p.tasks[id].phase.Ended?
  {
    StructureIn(w, pid);
    CountsIn(w, pid);
    RuntimesIn(w, pid);
    var p := w.procs[pid];
    assert RuntimeOk(l, p.loops[l].ownsRuntime, p.current, p.pc, p.keepers[l], Releasers(p.calls, p.tasks, l), p.released[l]);
    forall id | id in p.calls && p.calls[id].loop == l
      ensures p.tasks[id].phase.Releasing? || p.tasks[id].phase.Ended?
    {
      NoTokens(p, l, id);
    }
  }

  /** After `shutdown` and the last task, the runtime was released exactly once. */
  lemma RuntimeReleasedOnce(w: World, pid: Pid, l: LoopId)
    requires In(w, pid) && ShutDown(w.procs[pid], l) && w.procs[pid].loops[l].ownsRuntime
    requires var p := w.procs[pid];
      forall id | id in p.calls && id in p.tasks && p.calls[id].loop == l :: p.tasks[id].phase.Ended?
    ensures w.procs[pid].released[l] == 1
  {
    StructureIn(w, pid);
    CountsIn(w, pid);
    RuntimesIn(w, pid);
    var p := w.procs[pid];
    assert l in Own(p.pid, p.loops);
    assert RuntimeOk(l, true, p.current, p.pc, p.keepers[l], Releasers(p.calls, p.tasks, l), p.released[l]);
    assert p.keepers[l].tasks.running == |Tokens(p.calls, p.tasks, l)|;
    assert forall id :: id !in Tokens(p.calls, p.tasks, l);
    assert Tokens(p.calls, p.tasks, l) == {};
    assert forall id :: id !in Releasers(p.calls, p.tasks, l);
    assert Releasers(p.calls, p.tasks, l) == {};
  }

  // ----- Results

  /** The result is the caller's own: the value its future produced, or PANICKED only if it panicked; it is moved out once. */
  lemma ResultIsOwn(w: World, pid: Pid, id: Id)
    requires In(w, pid) && KnownCall(w.procs[pid], id) && w.procs[pid].callers[id].Left?
    ensures var p, exit := w.procs[pid], w.procs[pid].callers[id].exit;
      && (exit.Returned? ==> p.tasks[id].outcome == Some(Produced(exit.value)))
      && (exit.FuturePanicked? ==> p.tasks[id].outcome == Some(Panic))
      && (p.slots[id] == Taken <==> exit.Returned? || exit.FuturePanicked?)
      && (OwnCall(p, id) && p.calls[id].borrowing ==> !FutureAlive(p.tasks[id].phase))
  {
    StructureIn(w, pid);
    SlotsIn(w, pid);
    BorrowsIn(w, pid);
    var p := w.procs[pid];
    assert ResultOk(p.tasks[id], p.slots[id], p.callers[id]);
    if OwnCall(p, id) {
      assert p.calls[id].loop in Own(p.pid, p.loops);
    }
  }

  // ----- Blocking

  /** A thread asleep in `Slot::wait` still has a running slot, or a `notify_all` to come; one asleep in
      `wait_borrowing` still has a borrowing task. */
  lemma SleepersAreNotified(w: World, pid: Pid)
    requires In(w, pid)
    ensures var p := w.procs[pid];
      && (forall id :: p.pc == SlotWaiting(id, true) ==>
            id in p.slots && id in p.tasks && (p.slots[id] == Running || WillNotify(p.tasks[id].phase)))
      && (forall l :: p.pc == BorrowWaiting(l, true) ==> Borrowers(p.calls, p.tasks, l) != {})
  {
    StructureIn(w, pid);
    SlotsIn(w, pid);
    CountsIn(w, pid);
  }

  /** `Slot::wait` returns at once: its lock is free, and it is over. */
  predicate ReadyNow(p: Proc, id: Id)
    requires id in p.tasks && id in p.slots
  {
    !Locked(p.tasks[id].phase) && p.slots[id] != Running
  }

  /** After the hand-over, nothing blocks: a collected caller, and a caller of `suspend_on` whose loop was shut down,
      finds its slot over, and its lock free. */
  lemma NoBlockingAfterHandover(w: World, pid: Pid, id: Id)
    requires In(w, pid) && id in w.procs[pid].calls
    ensures Shape(w.procs[pid])
    ensures var p := w.procs[pid];
      && (id in p.collected || id in p.toResume || p.callers[id] == Waiting(Handed) ==> ReadyNow(p, id))
      && (p.callers[id] == Waiting(Handed) ==> p.pc == SlotWaiting(id, false))
      && (ShutDown(p, p.calls[id].loop) && p.calls[id].borrowing ==> ReadyNow(p, id))
  {
    StructureIn(w, pid);
    SlotsIn(w, pid);
    FatesIn(w, pid);
    var p := w.procs[pid];
    if ShutDown(p, p.calls[id].loop) {
      NoFutureBorrowsIn(w, pid, id);
    }
    assert SlotOk(p.tasks[id], p.slots[id]);
  }

  // ----- IDs

  /** Every ID ever spawned has exactly one fate; it is collected at most once, after its slot left Running. */
  lemma OneFate(w: World, pid: Pid, id: Id)
    requires In(w, pid) && id in w.procs[pid].calls
    ensures Shape(w.procs[pid])
    ensures var p := w.procs[pid];
      && AsNat(StillRegistered(p.calls, p.suspensions, id)) + AsNat(id in p.collected) + AsNat(id in p.unregistered)
           + AsNat(id in p.abandoned) == 1
      && Distinct(p.collected)
      && (id in p.collected ==> p.slots[id] != Running)
  {
    StructureIn(w, pid);
    SlotsIn(w, pid);
    FatesIn(w, pid);
    assert SlotOk(w.procs[pid].tasks[id], w.procs[pid].slots[id]);
  }
}
