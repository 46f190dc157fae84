/** What a step leaves alone: newer loops, other processes, and what was already decided. */
module Isolation {
  import opened Basics
  import opened Slots
  import opened States
  import opened Steps
  import opened Invariant
  import opened Worlds
  import opened Theorems
  import opened KeepsStructure
  import Progress

  // ----- Generations

  /** Nothing of the loop `l` changed. */
  ghost predicate LoopUntouched(s: State, s': State, l: LoopId) {
    && s'.p.suspensions == s.p.suspensions && s'.p.current == s.p.current
    && l in s.p.channels && l in s'.p.channels && s'.p.channels[l] == s.p.channels[l]
    && l in s.p.flags && l in s'.p.flags && s'.p.flags[l] == s.p.flags[l]
    && l in s.p.keepers && l in s'.p.keepers && s'.p.keepers[l] == s.p.keepers[l]
    && l in s.p.loops && s.p.loops[l].socket in s.sockets && s.p.loops[l].socket in s'.sockets
    && s'.sockets[s.p.loops[l].socket] == s.sockets[s.p.loops[l].socket]
  }

  lemma WorkStaysAway(s: State, id: Id, outcome: Outcome, l: LoopId)
    requires CanWork(s, id) && KnownLoop(s.p, l) && l != s.p.calls[id].loop
    requires s.p.loops[l].socket in s.sockets && s.p.loops[l].socket != s.p.loops[s.p.calls[id].loop].socket
    ensures LoopUntouched(s, DoWork(s, id, outcome), l)
  {
  }

  /** An old task's sends, notifications and decrements reach its own loop only. */
  lemma OldTasksStayAway(w: World, pid: Pid, id: Id, outcome: Outcome, l: LoopId)
    requires In(w, pid) && CanWork(At(w, pid), id) && l in Own(pid, w.procs[pid].loops) && l != w.procs[pid].calls[id].loop
    ensures LoopUntouched(At(w, pid), DoWork(At(w, pid), id, outcome), l)
  {
    StructureIn(w, pid);
    SocketsIn(w, pid);
    assert w.procs[pid].calls[id].loop in Own(pid, w.procs[pid].loops);
    WorkStaysAway(At(w, pid), id, outcome, l);
  }

  /** A caller of a loop that was shut down unregisters itself from no newer loop. */
  lemma OldCallersStayAway(w: World, pid: Pid)
    requires In(w, pid) && CanUnregister(At(w, pid)) && w.procs[pid].pc.id in w.procs[pid].calls
    requires w.procs[pid].current != Some(w.procs[pid].calls[w.procs[pid].pc.id].loop)
    ensures var p, p' := w.procs[pid], DoUnregister(At(w, pid)).p;
      p'.suspensions == p.suspensions && p'.unregistered == p.unregistered
  {
    StructureIn(w, pid);
    RegistryIn(w, pid);
    var p, id := w.procs[pid], w.procs[pid].pc.id;
    assert forall l | l in p.suspensions && id in p.suspensions[l] :: p.calls[id].loop == l;
    assert !Has(p, id);
  }

  /** Calls are never forgotten nor changed. */
  ghost predicate CallsKept(p: Proc, p': Proc) {
    && p.nextId <= p'.nextId
    && forall id | id in p.calls :: id in p'.calls && p'.calls[id] == p.calls[id]
  }

  lemma SpawnKeepsCalls(s: State, step: Step)
    requires OuterEnabled(s, step) && Shape(s.p) && step.Spawn?
    ensures CallsKept(s.p, ApplyOuter(s, step).p)
    ensures forall id | id in ApplyOuter(s, step).p.calls && id !in s.p.calls ::
        id == s.p.nextId < ApplyOuter(s, step).p.nextId
  {
  }

  lemma OuterKeepsCalls(s: State, step: Step)
    requires OuterEnabled(s, step) && !step.Spawn?
    ensures ApplyOuter(s, step).p.calls == s.p.calls && ApplyOuter(s, step).p.nextId == s.p.nextId
  {
  }

  lemma StepKeepsCalls(s: State, step: Step)
    requires StructureInv(s) && Enabled(s, step)
    ensures CallsKept(s.p, Apply(s, step).p)
    ensures forall id | id in Apply(s, step).p.calls && id !in s.p.calls ::
        id == s.p.nextId < Apply(s, step).p.nextId && step.Spawn?
  {
    if step.Work? {
      WorkFrame(s, step.id, step.outcome);
    } else if step.Spawn? {
      SpawnKeepsCalls(s, step);
    } else if Outer(step) {
      OuterKeepsCalls(s, step);
    } else {
      InnerFrame(s, step);
    }
  }

  /** A step gives a call at most an ID that no call of the process ever had. */
  lemma IdsNeverRepeat(w: World, pid: Pid, step: Step)
    requires In(w, pid) && Enabled(At(w, pid), step)
    ensures var p, p' := w.procs[pid], Apply(At(w, pid), step).p;
      && CallsKept(p, p')
      && forall id | id in p'.calls && id !in p.calls :: id == p.nextId < p'.nextId && step.Spawn?
  {
    StructureIn(w, pid);
    StepKeepsCalls(At(w, pid), step);
  }

  // ----- Forks

  /** What one process does changes neither another process, nor the sockets of its loops: so the other's wakeups survive. */
  lemma OthersUndisturbed(w: World, pid: Pid, step: Step, q: Pid)
    requires In(w, pid) && WorldEnabled(w, Local(pid, step)) && q in w.procs && q != pid
    ensures var w' := WorldApply(w, Local(pid, step));
      && w'.procs[q] == w.procs[q]
      && forall k | k in OwnSockets(w.procs[q]) :: k in w.sockets && k in w'.sockets && w'.sockets[k] == w.sockets[k]
  {
    ReachableApart(w, pid, q);
    Footprint(At(w, pid), step);
  }

  lemma WorkSocketKeys(s: State, id: Id, outcome: Outcome)
    requires CanWork(s, id)
    ensures DoWork(s, id, outcome).sockets.Keys == s.sockets.Keys
  {
  }

  lemma ReadSocketKeys(s: State)
    requires CanRead(s)
    ensures DoReadNext(s).sockets.Keys == s.sockets.Keys
  {
  }

  lemma StillSockets(s: State, step: Step)
    requires Enabled(s, step) && !step.Init? && !step.Work? && !step.Read?
    ensures Apply(s, step).sockets == s.sockets
  {
    if Outer(step) {
      OuterFrame(s, step);
    } else {
      InnerFrame(s, step);
    }
  }

  lemma SocketKeys(s: State, step: Step)
    requires Enabled(s, step) && !step.Init?
    ensures Apply(s, step).sockets.Keys == s.sockets.Keys
  {
    if step.Work? {
      WorkSocketKeys(s, step.id, step.outcome);
    } else if step.Read? {
      ReadSocketKeys(s);
    } else {
      StillSockets(s, step);
    }
  }

  lemma NoLoopNoEffect(s: State, step: Step)
    requires Own(s.p.pid, s.p.loops) == {} && Enabled(s, step) && !step.Init?
    ensures Apply(s, step).sockets == s.sockets && !step.Work?
    ensures step.Wakeup? || step.Drain? || step.Spawn? ==> Apply(s, step) == s
    ensures step.Shutdown? ==> Apply(s, step).p == s.p.(current := None)
  {
    assert forall l | l in s.p.loops :: l !in Own(s.p.pid, s.p.loops);
    assert OwnSockets(s.p) == {};
    Footprint(s, step);
    SocketKeys(s, step);
  }

  /** A process that has no loop of its own changes no socket at all, whatever it does but `init`; a loop it inherited
      does nothing for it, and runs no task. */
  lemma ForkedEntryPoints(w: World, pid: Pid, step: Step)
    requires In(w, pid) && WorldEnabled(w, Local(pid, step)) && !step.Init?
    requires Own(pid, w.procs[pid].loops) == {}
    ensures var w' := WorldApply(w, Local(pid, step));
      && w'.sockets == w.sockets && !step.Work?
      && (step.Wakeup? || step.Drain? || step.Spawn? ==> w' == w)
      && (step.Shutdown? ==> w'.procs[pid] == w.procs[pid].(current := None))
  {
    ReachableApart(w, pid, pid);
    var s := At(w, pid);
    NoLoopNoEffect(s, step);
    assert Apply(s, step) == s ==> w.procs[pid := s.p] == w.procs;
  }

  /** A usable loop runs its futures on a runtime that this very process created. */
  lemma RuntimeOfThisProcess(w: World, pid: Pid)
    requires In(w, pid) && Usable(w.procs[pid])
    ensures w.procs[pid].loops[w.procs[pid].current.value].runtimePid == pid
  {
    SocketsIn(w, pid);
  }

  // ----- What was decided stays decided

  /** Slots move from Running to Completed or Panicked, then to Taken. */
  predicate Forward(slot: SlotState, slot': SlotState) {
    || slot' == slot
    || (slot == Running && (slot'.Completed? || slot'.Panicked?))
    || ((slot.Completed? || slot.Panicked?) && slot' == Taken)
  }

  ghost predicate Grows(p: Proc, p': Proc) {
    && (forall id | id in p.slots :: id in p'.slots && Forward(p.slots[id], p'.slots[id]))
    && p.collected <= p'.collected && p.unregistered <= p'.unregistered && p.abandoned <= p'.abandoned
    && p.released <= p'.released
  }

  lemma OuterGrows(s: State, step: Step)
    requires OuterEnabled(s, step) && StructureInv(s)
    ensures Grows(s.p, ApplyOuter(s, step).p)
  {
  }

  lemma CollectGrows(s: State, step: Step)
    requires InnerEnabled(s, step) && Collects(step)
    ensures Grows(s.p, ApplyInner(s, step).p)
  {
    match step
    case Receive =>
      if ReceiveEnds(s.p) {
      }
    case Collect =>
      if CollectEnds(s.p) {
      }
    case Read =>
      if Readable(s) {
      }
    case _ =>
  }

  lemma SuspendGrows(s: State, step: Step)
    requires InnerEnabled(s, step) && Suspends(step)
    ensures Grows(s.p, ApplyInner(s, step).p)
  {
  }

  lemma TakeGrows(s: State)
    requires CanCheckSlot(s) && s.p.slots[s.p.pc.id] != Running
    ensures Grows(s.p, DoTake(s).p)
  {
  }

  lemma WaitGrows(s: State, step: Step)
    requires InnerEnabled(s, step) && !Collects(step) && !Suspends(step) && !step.CheckSlot?
    ensures Grows(s.p, ApplyInner(s, step).p)
  {
  }

  lemma WorkGrows(s: State, id: Id, outcome: Outcome)
    requires CanWork(s, id) && SlotsOk(s.p.tasks, s.p.slots)
    ensures Grows(s.p, DoWork(s, id, outcome).p)
  {
    assert SlotOk(s.p.tasks[id], s.p.slots[id]);
  }

  lemma StepGrows(s: State, step: Step)
    requires StructureInv(s) && SlotsOk(s.p.tasks, s.p.slots) && Enabled(s, step)
    ensures Grows(s.p, Apply(s, step).p)
  {
    if step.Work? {
      WorkGrows(s, step.id, step.outcome);
    } else if Outer(step) {
      OuterGrows(s, step);
    } else if Collects(step) {
      CollectGrows(s, step);
    } else if Suspends(step) {
      SuspendGrows(s, step);
    } else if step.CheckSlot? {
      if s.p.slots[s.p.pc.id] != Running {
        TakeGrows(s);
      }
    } else {
      WaitGrows(s, step);
    }
  }

  /** No step takes back a result, a collection, an unregistration, or a release. */
  lemma DecisionsStay(w: World, pid: Pid, step: Step)
    requires In(w, pid) && Enabled(At(w, pid), step)
    ensures Grows(w.procs[pid], Apply(At(w, pid), step).p)
  {
    StructureIn(w, pid);
    SlotsIn(w, pid);
    StepGrows(At(w, pid), step);
  }

  // ----- Where results come from

  /** The slots and the outcomes are as they were, but for those of `id`. */
  ghost predicate OnlySlotOf(p: Proc, p': Proc, id: Id) {
    && (forall i | i in p.slots && i != id :: i in p'.slots && p'.slots[i] == p.slots[i])
    && (forall i | i in p.tasks && i != id :: i in p'.tasks && p'.tasks[i].outcome == p.tasks[i].outcome)
  }

  ghost predicate SameResults(p: Proc, p': Proc) {
    && (forall i | i in p.slots :: i in p'.slots && p'.slots[i] == p.slots[i])
    && (forall i | i in p.tasks :: i in p'.tasks && p'.tasks[i].outcome == p.tasks[i].outcome)
  }

  lemma SpawnResults(s: State, f: Fiber, borrowing: bool)
    requires Shape(s.p) && Usable(s.p)
    ensures SameResults(s.p, DoSpawn(s, f, borrowing).p)
  {
    assert s.p.nextId !in s.p.calls;
  }

  lemma OuterResults(s: State, step: Step)
    requires OuterEnabled(s, step) && Shape(s.p)
    ensures SameResults(s.p, ApplyOuter(s, step).p)
  {
    if step.Spawn? && Usable(s.p) {
      SpawnResults(s, step.fiber, step.borrowing);
    }
  }

  lemma CollectResults(s: State, step: Step)
    requires InnerEnabled(s, step) && Collects(step)
    ensures SameResults(s.p, ApplyInner(s, step).p)
  {
    if step.Receive? {
      if ReceiveEnds(s.p) {
      }
    } else if step.Collect? {
      if CollectEnds(s.p) {
      }
    } else if step.Read? {
      if Readable(s) {
      }
    }
  }

  lemma SuspendResults(s: State, step: Step)
    requires InnerEnabled(s, step) && Suspends(step)
    ensures SameResults(s.p, ApplyInner(s, step).p)
  {
  }

  lemma WaitResults(s: State, step: Step)
    requires InnerEnabled(s, step) && !Collects(step) && !Suspends(step) && !step.CheckSlot?
    ensures SameResults(s.p, ApplyInner(s, step).p)
  {
  }

  lemma CheckSlotResults(s: State)
    requires CanCheckSlot(s)
    ensures OnlySlotOf(s.p, DoCheckSlot(s).p, s.p.pc.id)
    ensures var p, p', id := s.p, DoCheckSlot(s).p, s.p.pc.id;
      && id in p'.slots && id in p'.tasks && p'.tasks[id].outcome == p.tasks[id].outcome
      && p'.slots[id] == if p.slots[id] == Running then Running else Taken
  {
    assert DoCheckSlot(s) == DoSleep(s) || DoCheckSlot(s) == DoTake(s);
  }

  /** What the step of a task on its own slot, and on the outcome of its future, is. */
  predicate Writes(t: Task, t': Task, slot: SlotState, slot': SlotState, outcome: Outcome) {
    && t'.outcome == (if t.phase.Polling? then Some(outcome) else t.outcome)
    && (slot' != slot ==> Locked(t.phase) && Locked(t'.phase))
  }

  lemma LockWrites(s: State, id: Id, outcome: Outcome)
    requires CanWork(s, id) && Locking(s.p.tasks[id].phase)
    ensures var p, p' := s.p, DoWork(s, id, outcome).p;
      id in p'.tasks && id in p'.slots && Writes(p.tasks[id], p'.tasks[id], p.slots[id], p'.slots[id], outcome)
  {
  }

  lemma EarlyWrites(s: State, id: Id, outcome: Outcome)
    requires CanWork(s, id) && Early(s.p.tasks[id].phase) && !Locking(s.p.tasks[id].phase)
    ensures var p, p' := s.p, DoWork(s, id, outcome).p;
      id in p'.tasks && id in p'.slots && Writes(p.tasks[id], p'.tasks[id], p.slots[id], p'.slots[id], outcome)
  {
  }

  lemma LateWrites(s: State, id: Id, outcome: Outcome)
    requires CanWork(s, id) && !Early(s.p.tasks[id].phase)
    ensures var p, p' := s.p, DoWork(s, id, outcome).p;
      id in p'.tasks && id in p'.slots && Writes(p.tasks[id], p'.tasks[id], p.slots[id], p'.slots[id], outcome)
  {
  }

  lemma WorkOnOwnSlot(s: State, id: Id, outcome: Outcome)
    requires CanWork(s, id)
    ensures var slots' := DoWork(s, id, outcome).p.slots; id in slots' && slots' == s.p.slots[id := slots'[id]]
  {
    var slots' := DoWork(s, id, outcome).p.slots;
    if s.p.tasks[id].phase.Storing? || s.p.tasks[id].phase.Closing? {
      assert slots' == s.p.slots[id := slots'[id]];
    } else {
      assert slots' == s.p.slots;
    }
  }

  lemma WorkResults(s: State, id: Id, outcome: Outcome)
    requires CanWork(s, id)
    ensures OnlySlotOf(s.p, DoWork(s, id, outcome).p, id)
    ensures var p, p' := s.p, DoWork(s, id, outcome).p;
      id in p'.tasks && id in p'.slots && Writes(p.tasks[id], p'.tasks[id], p.slots[id], p'.slots[id], outcome)
  {
    WorkOnOwnSlot(s, id, outcome);
    Progress.WorkLowersRank(s, id, outcome);
    if Locking(s.p.tasks[id].phase) {
      LockWrites(s, id, outcome);
    } else if Early(s.p.tasks[id].phase) {
      EarlyWrites(s, id, outcome);
    } else {
      LateWrites(s, id, outcome);
    }
  }

  lemma StepResults(s: State, step: Step)
    requires Shape(s.p) && Enabled(s, step) && !step.Work? && !step.CheckSlot?
    ensures SameResults(s.p, Apply(s, step).p)
  {
    if Outer(step) {
      OuterResults(s, step);
    } else if Collects(step) {
      CollectResults(s, step);
    } else if Suspends(step) {
      SuspendResults(s, step);
    } else {
      WaitResults(s, step);
    }
  }

  /** The outcome of a call is what its future ended with, when its task polled it, and nothing else. */
  lemma OutcomesAreGiven(w: World, pid: Pid, step: Step, id: Id)
    requires In(w, pid) && Enabled(At(w, pid), step) && id in w.procs[pid].tasks
    ensures var t, tasks' := w.procs[pid].tasks[id], Apply(At(w, pid), step).p.tasks;
      && id in tasks'
      && tasks'[id].outcome == if step.Work? && step.id == id && t.phase.Polling? then Some(step.outcome) else t.outcome
  {
    StructureIn(w, pid);
    if step.Work? {
      WorkResults(At(w, pid), step.id, step.outcome);
    } else if step.CheckSlot? {
      CheckSlotResults(At(w, pid));
    } else {
      StepResults(At(w, pid), step);
    }
  }

  /** A slot changes only under its lock: held by its own task, or free for PHP, which waits in `Slot::wait`. */
  lemma SlotsUnderLock(w: World, pid: Pid, step: Step, id: Id)
    requires In(w, pid) && Enabled(At(w, pid), step) && id in w.procs[pid].slots
    ensures var p, p' := w.procs[pid], Apply(At(w, pid), step).p;
      && id in p.tasks && id in p'.slots && id in p'.tasks
      && (p'.slots[id] != p.slots[id] ==>
            if step.Work? then step.id == id && Locked(p.tasks[id].phase) && Locked(p'.tasks[id].phase)
            else p.pc.SlotWaiting? && p.pc.id == id && !Locked(p.tasks[id].phase))
  {
    StructureIn(w, pid);
    if step.Work? {
      WorkResults(At(w, pid), step.id, step.outcome);
    } else if step.CheckSlot? {
      CheckSlotResults(At(w, pid));
    } else {
      StepResults(At(w, pid), step);
    }
  }

  // ----- Calls pending across a fork

  /** A call whose future runs in another process, if it runs. */
  predicate Inherited(p: Proc, id: Id) {
    KnownCall(p, id) && p.calls[id].loop in p.loops && p.loops[p.calls[id].loop].pid != p.pid
  }

  /** While PHP code runs, in a child or not, the pending calls are off the stack: it can interrupt them, or resume them. */
  lemma PendingOffStack(w: World, pid: Pid, id: Id)
    requires In(w, pid) && w.procs[pid].pc.Idle? && id in w.procs[pid].callers && FrameAlive(w.procs[pid].callers[id])
    ensures CanInterrupt(At(w, pid), id)
    ensures Enabled(At(w, pid), ForeignResume(id)) || CanContinue(At(w, pid), id)
    ensures w.procs[pid].current == None ==> CanFree(At(w, pid), id)
  {
    StructureIn(w, pid);
  }

  /** Interrupted in the child, it unwinds in three steps of the PHP thread, without waiting. */
  lemma InterruptedChildUnwinds(w: World, child: Pid, id: Id, exit: bool)
    requires In(w, child) && CanInterrupt(At(w, child), id) && Inherited(w.procs[child], id)
    ensures var s := At(w, child);
      var s1 := DoInterrupt(s, id, exit);
      CanUnregister(s1) &&
      var s2 := DoUnregister(s1);
      CanReturn(s2) &&
      var s3 := DoReturn(s2);
      && s3.p.callers[id] == Left(if s.p.calls[id].borrowing then PendingAcrossFork else if exit then Exited else Threw)
      && s3.p.pc == Idle && s3.sockets == w.sockets && s3.p.slots == s.p.slots
  {
    StructureIn(w, child);
  }

  /** The slot is not over, or its lock is held. */
  predicate Unready(p: Proc, id: Id)
    requires KnownCall(p, id)
  {
    p.slots[id] == Running || Locked(p.tasks[id].phase)
  }

  /** The child waits for a future that only runs in the parent, or for a lock that only the parent releases. */
  predicate Hung(w: World, pid: Pid, id: Id) {
    pid in w.procs && Inherited(w.procs[pid], id) && w.procs[pid].pc.SlotWaiting? && w.procs[pid].pc.id == id
    && Unready(w.procs[pid], id)
  }

  lemma TakesOwn(s: State, id: Id)
    requires SlotInv(s) && CanContinue(s, id) && !Unready(s.p, id)
    ensures var s' := DoContinue(s, id);
      CanCheckSlot(s') &&
      var p := DoTake(s').p;
      && p.pc == Idle && p.tasks[id].outcome.Some?
      && p.callers[id] == Left(ExitOf(p.tasks[id].outcome.value))
  {
    assert SlotOk(s.p.tasks[id], s.p.slots[id]) && ResultOk(s.p.tasks[id], s.p.slots[id], s.p.callers[id]);
  }

  /** Resumed in the child, it waits forever if, and only if, its slot is Running, or locked; else it returns its own result
      at once. */
  lemma ResumedChild(w: World, child: Pid, id: Id)
    requires In(w, child) && CanContinue(At(w, child), id) && Inherited(w.procs[child], id)
    ensures var s' := DoContinue(At(w, child), id);
      && WorldApply(w, Local(child, Continue(id))) == World(w.procs[child := s'.p], s'.sockets)
      && (Hung(World(w.procs[child := s'.p], s'.sockets), child, id) <==> Unready(w.procs[child], id))
      && (!Unready(w.procs[child], id) ==>
            && CanCheckSlot(s')
            && var p := DoTake(s').p;
               && p.pc == Idle && p.tasks[id].outcome.Some?
               && p.callers[id] == Left(ExitOf(p.tasks[id].outcome.value)))
  {
    StructureIn(w, child);
    SlotsIn(w, child);
    if !Unready(w.procs[child], id) {
      TakesOwn(At(w, child), id);
    }
  }

  lemma HungOnSlot(s: State, step: Step, id: Id)
    requires Enabled(s, step) && !step.Work? && Inherited(s.p, id) && s.p.pc.SlotWaiting? && s.p.pc.id == id && Unready(s.p, id)
    ensures step.CheckSlot? || step.WakeSpuriously?
    ensures exists asleep :: Apply(s, step) == s.(p := s.p.(pc := SlotWaiting(id, asleep)))
  {
    if step.CheckSlot? {
      assert Apply(s, step) == DoSleep(s);
    }
  }

  lemma HungLocally(s: State, step: Step, id: Id)
    requires Enabled(s, step) && Inherited(s.p, id) && s.p.pc.SlotWaiting? && s.p.pc.id == id && Unready(s.p, id)
    ensures var p' := Apply(s, step).p;
      Inherited(p', id) && p'.pc.SlotWaiting? && p'.pc.id == id && Unready(p', id)
  {
    if step.Work? {
      WorkFrame(s, step.id, step.outcome);
      Progress.WorkLowersRank(s, step.id, step.outcome);
      Progress.WorkKeepsPlace(s, step.id, step.outcome);
      WorkOnOwnSlot(s, step.id, step.outcome);
    } else {
      HungOnSlot(s, step, id);
    }
  }

  lemma HungStep(w: World, w': World, pid: Pid, id: Id)
    requires Hung(w, pid, id) && WorldNext(w, w')
    ensures Hung(w', pid, id)
  {
    var step :| WorldEnabled(w, step) && w' == WorldApply(w, step);
    if step.Local? && step.pid == pid {
      HungLocally(At(w, pid), step.step, id);
    }
  }

  /** One world after another. */
  ghost predicate Chain(ws: seq<World>) {
    ws != [] && forall i :: 0 <= i < |ws| - 1 ==> WorldNext(ws[i], ws[i + 1])
  }

  /** No run, of any length and of any processes, ends the wait. */
  lemma HungForever(ws: seq<World>, pid: Pid, id: Id)
    requires Chain(ws) && Hung(ws[0], pid, id)
    ensures Hung(ws[|ws| - 1], pid, id)
  {
    forall w, w' | Hung(w, pid, id) && WorldNext(w, w')
      ensures Hung(w', pid, id)
    {
      HungStep(w, w', pid, id);
    }
    Always(ws, WorldNext, w => Hung(w, pid, id));
  }

  // The slot of a call inherited across a fork: whether it is Running was decided by the fork.

  lemma InheritedStep(s: State, step: Step, id: Id)
    requires StructureInv(s) && Enabled(s, step) && Inherited(s.p, id)
    ensures Inherited(Apply(s, step).p, id)
  {
    StepFrame(s, step);
    if step.Work? {
      WorkFrame(s, step.id, step.outcome);
    }
    StepKeepsCalls(s, step);
    StepKeepsStructure(s, step);
  }

  lemma RunningWork(s: State, work: Id, outcome: Outcome, id: Id)
    requires CanWork(s, work) && Inherited(s.p, id) && s.p.slots[id] == Running
    ensures id in DoWork(s, work, outcome).p.slots && DoWork(s, work, outcome).p.slots[id] == Running
  {
    WorkOnOwnSlot(s, work, outcome);
  }

  lemma RunningOuter(s: State, step: Step, id: Id)
    requires OuterEnabled(s, step) && id in s.p.slots && s.p.slots[id] == Running
    ensures id in ApplyOuter(s, step).p.slots && ApplyOuter(s, step).p.slots[id] == Running
  {
  }

  lemma RunningSuspend(s: State, step: Step, id: Id)
    requires InnerEnabled(s, step) && Suspends(step) && id in s.p.slots && s.p.slots[id] == Running
    ensures id in ApplyInner(s, step).p.slots && ApplyInner(s, step).p.slots[id] == Running
  {
  }

  lemma RunningCollect(s: State, step: Step, id: Id)
    requires InnerEnabled(s, step) && Collects(step) && id in s.p.slots && s.p.slots[id] == Running
    ensures id in ApplyInner(s, step).p.slots && ApplyInner(s, step).p.slots[id] == Running
  {
  }

  lemma RunningCheck(s: State, id: Id)
    requires CanCheckSlot(s) && s.p.slots[s.p.pc.id] != Running && id in s.p.slots && s.p.slots[id] == Running
    ensures id in DoTake(s).p.slots && DoTake(s).p.slots[id] == Running
  {
  }

  lemma RunningWait(s: State, step: Step, id: Id)
    requires InnerEnabled(s, step) && !Suspends(step) && !Collects(step) && !step.CheckSlot?
    requires id in s.p.slots && s.p.slots[id] == Running
    ensures id in ApplyInner(s, step).p.slots && ApplyInner(s, step).p.slots[id] == Running
  {
  }

  lemma RunningStays(s: State, step: Step, id: Id)
    requires Enabled(s, step) && Inherited(s.p, id) && s.p.slots[id] == Running
    ensures id in Apply(s, step).p.slots && Apply(s, step).p.slots[id] == Running
  {
    if step.Work? {
      RunningWork(s, step.id, step.outcome, id);
    } else if Outer(step) {
      RunningOuter(s, step, id);
    } else if Suspends(step) {
      RunningSuspend(s, step, id);
    } else if Collects(step) {
      RunningCollect(s, step, id);
    } else if step.CheckSlot? {
      if s.p.slots[s.p.pc.id] != Running {
        RunningCheck(s, id);
      }
    } else {
      RunningWait(s, step, id);
    }
  }

  lemma OverStays(s: State, step: Step, id: Id)
    requires StructureInv(s) && SlotsOk(s.p.tasks, s.p.slots) && Enabled(s, step) && id in s.p.slots && s.p.slots[id] != Running
    ensures id in Apply(s, step).p.slots && Apply(s, step).p.slots[id] != Running
  {
    StepGrows(s, step);
  }

  lemma OuterMovesNoTask(s: State, step: Step)
    requires OuterEnabled(s, step) && !step.Spawn?
    ensures ApplyOuter(s, step).p.tasks == s.p.tasks
  {
  }

  lemma CollectMovesNoTask(s: State, step: Step)
    requires InnerEnabled(s, step) && Collects(step)
    ensures ApplyInner(s, step).p.tasks == s.p.tasks
  {
    if step.Receive? {
      if ReceiveEnds(s.p) {
      }
    } else if step.Collect? {
      if CollectEnds(s.p) {
      }
    } else if step.Read? {
      if Readable(s) {
      }
    }
  }

  lemma SuspendMovesNoTask(s: State, step: Step)
    requires InnerEnabled(s, step) && Suspends(step) && !step.Start? && !step.Launch?
    ensures ApplyInner(s, step).p.tasks == s.p.tasks
  {
  }

  lemma TakeMovesNoTask(s: State)
    requires CanCheckSlot(s)
    ensures DoTake(s).p.tasks == s.p.tasks
  {
  }

  lemma CheckSlotMovesNoTask(s: State)
    requires CanCheckSlot(s)
    ensures DoCheckSlot(s).p.tasks == s.p.tasks
  {
    TakeMovesNoTask(s);
    assert DoCheckSlot(s) == DoSleep(s) || DoCheckSlot(s) == DoTake(s);
  }

  lemma WaitMovesNoTask(s: State, step: Step)
    requires InnerEnabled(s, step) && !Collects(step) && !Suspends(step) && !step.CheckSlot?
    ensures ApplyInner(s, step).p.tasks == s.p.tasks
  {
  }

  lemma PhaseStays(s: State, step: Step, id: Id)
    requires StructureInv(s) && Enabled(s, step) && Inherited(s.p, id)
    ensures id in Apply(s, step).p.tasks && Apply(s, step).p.tasks[id] == s.p.tasks[id]
  {
    if step.Work? {
      Progress.WorkLowersRank(s, step.id, step.outcome);
    } else if Outer(step) {
      if !step.Spawn? {
        OuterMovesNoTask(s, step);
      }
    } else if Collects(step) {
      CollectMovesNoTask(s, step);
    } else if step.CheckSlot? {
      CheckSlotMovesNoTask(s);
    } else if !Suspends(step) {
      WaitMovesNoTask(s, step);
    } else if !step.Start? && !step.Launch? {
      SuspendMovesNoTask(s, step);
    }
  }

  lemma FateLocal(s: State, step: Step, id: Id)
    requires StructureInv(s) && SlotsOk(s.p.tasks, s.p.slots) && Enabled(s, step) && Inherited(s.p, id)
    ensures Inherited(Apply(s, step).p, id) && (Unready(Apply(s, step).p, id) <==> Unready(s.p, id))
  {
    InheritedStep(s, step, id);
    PhaseStays(s, step, id);
    if s.p.slots[id] == Running {
      RunningStays(s, step, id);
    } else {
      OverStays(s, step, id);
    }
  }

  lemma InvThere(w: World, pid: Pid)
    requires WorldInv(w) && pid in w.procs
    ensures StructureInv(At(w, pid)) && SlotsOk(w.procs[pid].tasks, w.procs[pid].slots)
  {
    assert Inv(State(w.procs[pid], w.sockets));
  }

  lemma FateStep(w: World, w': World, pid: Pid, id: Id)
    requires pid in w.procs && StructureInv(At(w, pid)) && SlotsOk(w.procs[pid].tasks, w.procs[pid].slots)
    requires Inherited(w.procs[pid], id) && WorldNext(w, w')
    ensures pid in w'.procs && Inherited(w'.procs[pid], id)
    ensures Unready(w'.procs[pid], id) <==> Unready(w.procs[pid], id)
  {
    var step :| WorldEnabled(w, step) && w' == WorldApply(w, step);
    if step.Local? && step.pid == pid {
      FateLocal(At(w, pid), step.step, id);
    }
  }

  /** The slot of an inherited call, ready or not. */
  ghost predicate Decided(w: World, pid: Pid, id: Id, unready: bool) {
    WorldInv(w) && pid in w.procs && Inherited(w.procs[pid], id) && Unready(w.procs[pid], id) == unready
  }

  lemma DecidedStep(w: World, w': World, pid: Pid, id: Id, unready: bool)
    requires Decided(w, pid, id, unready) && WorldNext(w, w')
    ensures Decided(w', pid, id, unready)
  {
    NextKeepsInv(w, w');
    InvThere(w, pid);
    FateStep(w, w', pid, id);
  }

  /** So, whatever happened since the fork, a pending call that is resumed in the child hangs if, and only if, its slot was
      Running, or its lock held by a worker, when the process forked. */
  lemma HangsAsForked(ws: seq<World>, child: Pid, id: Id)
    requires Chain(ws) && In(ws[0], child) && Inherited(ws[0].procs[child], id)
    requires In(ws[|ws| - 1], child) && CanContinue(At(ws[|ws| - 1], child), id)
    ensures var w := ws[|ws| - 1];
      Hung(WorldApply(w, Local(child, Continue(id))), child, id) <==> Unready(ws[0].procs[child], id)
  {
    var unready := Unready(ws[0].procs[child], id);
    ReachableInv(ws[0]);
    forall w, w' | Decided(w, child, id, unready) && WorldNext(w, w')
      ensures Decided(w', child, id, unready)
    {
      DecidedStep(w, w', child, id, unready);
    }
    Always(ws, WorldNext, w => Decided(w, child, id, unready));
    ResumedChild(ws[|ws| - 1], child, id);
  }

  lemma LocalNext(w: World, pid: Pid, step: Step) returns (w': World)
    requires pid in w.procs && Enabled(At(w, pid), step)
    ensures WorldNext(w, w') && pid in w'.procs && At(w', pid) == Apply(At(w, pid), step)
    ensures w'.procs == w.procs[pid := w'.procs[pid]]
  {
    assert WorldEnabled(w, Local(pid, step));
    w' := WorldApply(w, Local(pid, step));
  }

  lemma ForkNext(w: World, pid: Pid, child: Pid) returns (w': World)
    requires pid in w.procs && w.procs[pid].pc.Idle? && child !in w.procs
    ensures WorldNext(w, w') && child in w'.procs && At(w', child) == At(w, pid).(p := w.procs[pid].(pid := child))
  {
    assert WorldEnabled(w, Fork(pid, child));
    w' := WorldApply(w, Fork(pid, child));
  }

  lemma ForeignlyResumed(s: State, id: Id)
    requires IdleWith(s, id) && s.p.callers[id].Suspended?
    ensures Enabled(s, ForeignResume(id))
    ensures var s1 := Apply(s, ForeignResume(id));
      && Enabled(s1, Continue(id))
      && Apply(s1, Continue(id)).p == s.p.(callers := s.p.callers[id := Resumable(Foreign)][id := Waiting(Foreign)],
                                           pc := SlotWaiting(id, false))
  {
  }

  /** Only the interruption is guarded: in a forked child, a caller suspended across the fork, resumed there by someone
      else, waits forever if a worker of the parent had not ended its slot at the fork, or not unlocked it. */
  lemma ResumedChildHangs(w: World, pid: Pid, id: Id, child: Pid)
    requires In(w, pid) && w.procs[pid].pc.Idle? && OwnCall(w.procs[pid], id)
    requires w.procs[pid].callers[id].Suspended? && Unready(w.procs[pid], id) && child !in w.procs
    ensures exists w1, w2, w3 :: WorldNext(w, w1) && WorldNext(w1, w2) && WorldNext(w2, w3) && Hung(w3, child, id)
  {
    ReachableApart(w, pid, pid);
    var w1 := ForkNext(w, pid, child);
    ForeignlyResumed(At(w1, child), id);
    var w2 := LocalNext(w1, child, ForeignResume(id));
    var w3 := LocalNext(w2, child, Continue(id));
    assert Hung(w3, child, id);
  }
}
