/** Every step keeps the program counter, the tasks and the callers in agreement, and the loops in their process. */
module KeepsStructure {
  import opened Basics
  import opened States
  import opened Steps
  import opened Invariant

  // ----- Worker threads

  /** The PHP thread is where it was, or awake there. */
  predicate SamePlace(pc: Pc, pc': Pc) {
    || pc' == pc
    || (pc.SlotWaiting? && pc' == SlotWaiting(pc.id, false))
    || (pc.BorrowWaiting? && pc' == BorrowWaiting(pc.loop, false))
  }

  lemma MovePlaces(pc: Pc, pc': Pc, tasks: TaskMap, id: Id, t: Task, callers: map<Id, Caller>)
    requires PlacesOk(pc, tasks, callers) && SamePlace(pc, pc') && id in tasks
    requires !tasks[id].phase.Unstarted? && !tasks[id].phase.Unlaunched? && !t.phase.Unstarted? && !t.phase.Unlaunched?
    ensures PlacesOk(pc', tasks[id := t], callers)
  {
  }

  /** One launched task moves. */
  ghost predicate Moves(s: State, s': State, id: Id) {
    && id in s.p.tasks && SamePlace(s.p.pc, s'.p.pc)
    && !s.p.tasks[id].phase.Unstarted? && !s.p.tasks[id].phase.Unlaunched?
    && s'.p == s.p.(tasks := s'.p.tasks, slots := s'.p.slots, channels := s'.p.channels, flags := s'.p.flags,
                    keepers := s'.p.keepers, pc := s'.p.pc, released := s'.p.released)
    && id in s'.p.tasks && s'.p.tasks == s.p.tasks[id := s'.p.tasks[id]]
    && !s'.p.tasks[id].phase.Unstarted? && !s'.p.tasks[id].phase.Unlaunched?
    && s'.p.slots.Keys == s.p.slots.Keys && s'.p.channels.Keys == s.p.channels.Keys
    && s'.p.flags.Keys == s.p.flags.Keys && s'.p.keepers.Keys == s.p.keepers.Keys
  }

  lemma MoveStructure(s: State, s': State, id: Id)
    requires StructureInv(s) && Moves(s, s', id)
    ensures StructureInv(s')
  {
    MovePlaces(s.p.pc, s'.p.pc, s.p.tasks, id, s'.p.tasks[id], s.p.callers);
  }

  /** Up to the end of its slot. */
  predicate Early(phase: Phase) {
    phase.Polling? || phase.Setting? || phase.Storing? || phase.Stored? || phase.SetNotifying? || phase.Finishing?
    || phase.Closing? || phase.Closed?
  }

  /** About to take, or to release, the lock of the slot. */
  predicate Locking(phase: Phase) {
    phase.Setting? || phase.Stored? || phase.Finishing? || phase.Closed?
  }

  lemma EarlyMoves(s: State, id: Id, outcome: Outcome)
    requires CanWork(s, id) && Early(s.p.tasks[id].phase)
    ensures Moves(s, DoWork(s, id, outcome), id)
  {
  }

  lemma LateMoves(s: State, id: Id, outcome: Outcome)
    requires CanWork(s, id) && !Early(s.p.tasks[id].phase)
    ensures Moves(s, DoWork(s, id, outcome), id)
  {
  }

  lemma WorkStructure(s: State, id: Id, outcome: Outcome)
    requires StructureInv(s) && CanWork(s, id)
    ensures StructureInv(DoWork(s, id, outcome))
  {
    if Early(s.p.tasks[id].phase) {
      EarlyMoves(s, id, outcome);
    } else {
      LateMoves(s, id, outcome);
    }
    MoveStructure(s, DoWork(s, id, outcome), id);
  }

  // ----- The PHP thread

  lemma InitStructure(s: State, owned: bool, l: LoopId, k: Sock, workers: nat, capacity: nat)
    requires StructureInv(s) && CanInit(s, l, k, workers, capacity)
    ensures StructureInv(DoInit(s, owned, l, k, workers, capacity))
  {
  }

  lemma SpawnStructure(s: State, f: Fiber, borrowing: bool)
    requires StructureInv(s) && CanSpawn(s, f) && Usable(s.p)
    ensures StructureInv(DoSpawn(s, f, borrowing))
  {
  }

  predicate Entry(step: Step) {
    step.Wakeup? || step.Drain? || step.Shutdown?
  }

  lemma EntryStructure(s: State, step: Step)
    requires StructureInv(s) && OuterEnabled(s, step) && Entry(step)
    ensures StructureInv(ApplyOuter(s, step))
  {
  }

  lemma ResumeStructure(s: State, step: Step)
    requires StructureInv(s) && OuterEnabled(s, step) && (step.ResumeCall? || step.ForeignResume? || step.Free?)
    ensures StructureInv(ApplyOuter(s, step))
  {
  }

  lemma RunStructure(s: State, step: Step)
    requires StructureInv(s) && OuterEnabled(s, step) && (step.Continue? || step.Interrupt?)
    ensures StructureInv(ApplyOuter(s, step))
  {
  }

  lemma StartStructure(s: State)
    requires StructureInv(s) && CanStart(s)
    ensures StructureInv(DoStart(s))
  {
  }

  lemma LaunchStructure(s: State)
    requires StructureInv(s) && CanLaunch(s)
    ensures StructureInv(DoLaunch(s))
  {
  }

  lemma SuspendStructure(s: State, ok: bool)
    requires StructureInv(s) && CanSuspend(s)
    ensures StructureInv(DoSuspend(s, ok))
  {
  }

  lemma UnregisterStructure(s: State)
    requires StructureInv(s) && CanUnregister(s)
    ensures StructureInv(DoUnregister(s))
  {
  }

  lemma ReturnStructure(s: State)
    requires StructureInv(s) && CanReturn(s)
    ensures StructureInv(DoReturn(s))
  {
  }

  lemma PopStructure(s: State, pc: Pc)
    requires StructureInv(s) && Usable(s.p) && s.p.channels[s.p.current.value].queue != []
    requires (s.p.pc.Receiving? && pc.Receiving?) || (s.p.pc.Collecting? && pc.Collecting?)
    ensures StructureInv(Pop(s, pc))
  {
  }

  lemma ReceiveStructure(s: State, step: Step)
    requires StructureInv(s) && InnerEnabled(s, step) && (step.DeadlinePasses? || step.Receive?)
    ensures StructureInv(ApplyInner(s, step))
  {
    if step.Receive? && !ReceiveEnds(s.p) {
      PopStructure(s, Receiving(Extended(s.p, s.p.pc.ready), s.p.pc.late));
    }
  }

  lemma ReadStructure(s: State, step: Step)
    requires StructureInv(s) && InnerEnabled(s, step) && (step.Read? || step.Rearm?)
    ensures StructureInv(ApplyInner(s, step))
  {
  }

  lemma CollectStructure(s: State)
    requires StructureInv(s) && CanCollect(s)
    ensures StructureInv(DoCollectNext(s))
  {
    if !CollectEnds(s.p) {
      PopStructure(s, Collecting(Extended(s.p, s.p.pc.ready)));
    }
  }

  lemma TakeStructure(s: State)
    requires StructureInv(s) && CanCheckSlot(s)
    ensures StructureInv(DoTake(s))
  {
  }

  lemma DozeStructure(s: State)
    requires StructureInv(s) && CanCheckSlot(s)
    ensures StructureInv(DoSleep(s))
  {
  }

  lemma CheckBorrowingStructure(s: State)
    requires StructureInv(s) && CanCheckBorrowing(s)
    ensures StructureInv(DoCheckBorrowing(s))
  {
  }

  lemma WakeStructure(s: State)
    requires StructureInv(s) && Asleep(s.p.pc)
    ensures StructureInv(DoWakeSpuriously(s))
  {
  }

  lemma ReleaseStructure(s: State)
    requires StructureInv(s) && CanRelease(s)
    ensures StructureInv(DoRelease(s))
  {
  }

  lemma DropRuntimeStructure(s: State)
    requires StructureInv(s) && CanDropRuntime(s)
    ensures StructureInv(DoDropRuntime(s))
  {
  }

  lemma DropLoopStructure(s: State)
    requires StructureInv(s) && CanDropLoop(s)
    ensures StructureInv(DoDropLoop(s))
  {
  }

  lemma InnerStructure(s: State, step: Step)
    requires StructureInv(s) && InnerEnabled(s, step)
    ensures StructureInv(ApplyInner(s, step))
  {
    match step
    case Start => StartStructure(s);
    case Launch => LaunchStructure(s);
    case Suspend(ok) => SuspendStructure(s, ok);
    case Unregister => UnregisterStructure(s);
    case Return => ReturnStructure(s);
    case CheckSlot =>
      DozeStructure(s);
      TakeStructure(s);
    case CheckBorrowing => CheckBorrowingStructure(s);
    case WakeSpuriously => WakeStructure(s);
    case Release => ReleaseStructure(s);
    case DropRuntime => DropRuntimeStructure(s);
    case DropLoop => DropLoopStructure(s);
    case Read => ReadStructure(s, step);
    case Rearm => ReadStructure(s, step);
    case Collect => CollectStructure(s);
    case _ => ReceiveStructure(s, step);
  }

  lemma StepKeepsStructure(s: State, step: Step)
    requires StructureInv(s) && Enabled(s, step)
    ensures StructureInv(Apply(s, step))
  {
    if step.Work? {
      WorkStructure(s, step.id, step.outcome);
    } else if step.Init? {
      if Initializes(s.p, step.owned) {
        InitStructure(s, step.owned, step.loop, step.socket, step.workers, step.capacity);
      }
    } else if step.Spawn? {
      if Usable(s.p) {
        SpawnStructure(s, step.fiber, step.borrowing);
      }
    } else if Entry(step) {
      EntryStructure(s, step);
    } else if step.Continue? || step.Interrupt? {
      RunStructure(s, step);
    } else if Outer(step) {
      ResumeStructure(s, step);
    } else {
      InnerStructure(s, step);
    }
  }

  // ----- One call a fiber

  /** No frame appeared. */
  ghost predicate NoNewFrames(s: State, s': State) {
    && s'.p.calls == s.p.calls && s'.p.callers.Keys == s.p.callers.Keys
    && forall id | id in s.p.callers && FrameAlive(s'.p.callers[id]) :: FrameAlive(s.p.callers[id])
  }

  lemma NoNewFramesKeeps(s: State, s': State)
    requires FibersOk(s.p.calls, s.p.callers) && NoNewFrames(s, s')
    ensures FibersOk(s'.p.calls, s'.p.callers)
  {
  }

  lemma WorkFrames(s: State, id: Id, outcome: Outcome)
    requires CanWork(s, id)
    ensures NoNewFrames(s, DoWork(s, id, outcome))
  {
    if Early(s.p.tasks[id].phase) {
      EarlyMoves(s, id, outcome);
    } else {
      LateMoves(s, id, outcome);
    }
  }

  lemma SpawnFrames(s: State, f: Fiber, borrowing: bool)
    requires StructureInv(s) && FibersOk(s.p.calls, s.p.callers) && CanSpawn(s, f) && Usable(s.p)
    ensures FibersOk(DoSpawn(s, f, borrowing).p.calls, DoSpawn(s, f, borrowing).p.callers)
  {
  }

  lemma EntryFrames(s: State, step: Step)
    requires OuterEnabled(s, step) && (step.Init? || Entry(step))
    ensures NoNewFrames(s, ApplyOuter(s, step))
  {
  }

  lemma ResumeFrames(s: State, step: Step)
    requires OuterEnabled(s, step) && !step.Init? && !step.Spawn? && !Entry(step)
    ensures NoNewFrames(s, ApplyOuter(s, step))
  {
  }

  lemma SuspendFrames(s: State, step: Step)
    requires StructureInv(s) && InnerEnabled(s, step)
    requires step.Start? || step.Launch? || step.Suspend? || step.Unregister? || step.Return?
    ensures NoNewFrames(s, ApplyInner(s, step))
  {
  }

  lemma TakeFrames(s: State)
    requires CanCheckSlot(s)
    ensures NoNewFrames(s, DoTake(s)) && NoNewFrames(s, DoSleep(s))
  {
  }

  lemma CollectFrames(s: State, step: Step)
    requires InnerEnabled(s, step)
    requires step.DeadlinePasses? || step.Receive? || step.Read? || step.Rearm? || step.Collect?
    ensures NoNewFrames(s, ApplyInner(s, step))
  {
    if step.Receive? {
      if ReceiveEnds(s.p) {
      }
    } else if step.Collect? {
      if CollectEnds(s.p) {
      }
    }
  }

  lemma WaitFrames(s: State, step: Step)
    requires InnerEnabled(s, step)
    requires step.CheckBorrowing? || step.WakeSpuriously? || step.Release? || step.DropRuntime? || step.DropLoop?
    ensures NoNewFrames(s, ApplyInner(s, step))
  {
  }

  lemma InnerFrames(s: State, step: Step)
    requires StructureInv(s) && InnerEnabled(s, step)
    ensures NoNewFrames(s, ApplyInner(s, step))
  {
    if step.CheckSlot? {
      TakeFrames(s);
    } else if step.DeadlinePasses? || step.Receive? || step.Read? || step.Rearm? || step.Collect? {
      CollectFrames(s, step);
    } else if step.CheckBorrowing? || step.WakeSpuriously? || step.Release? || step.DropRuntime? || step.DropLoop? {
      WaitFrames(s, step);
    } else {
      SuspendFrames(s, step);
    }
  }

  lemma StepKeepsFibers(s: State, step: Step)
    requires StructureInv(s) && FibersOk(s.p.calls, s.p.callers) && Enabled(s, step)
    ensures FibersOk(Apply(s, step).p.calls, Apply(s, step).p.callers)
  {
    if step.Spawn? {
      if Usable(s.p) {
        SpawnFrames(s, step.fiber, step.borrowing);
      }
    } else {
      if step.Work? {
        WorkFrames(s, step.id, step.outcome);
      } else if step.Init? || Entry(step) {
        EntryFrames(s, step);
      } else if Outer(step) {
        ResumeFrames(s, step);
      } else {
        InnerFrames(s, step);
      }
      NoNewFramesKeeps(s, Apply(s, step));
    }
  }
}
