/** Every step keeps track of where each ID is, and of who may still borrow. */
module KeepsHandover {
  import opened Basics
  import opened Slots
  import opened TaskCounters
  import opened States
  import opened Steps
  import opened Invariant
  import opened KeepsStructure

  // ----- Registered callers and sent IDs

  predicate Shutting(pc: Pc) {
    pc.BorrowWaiting? || pc.ReleasingRuntime? || pc.Dropping?
  }

  predicate SameShutting(pc: Pc, pc': Pc) {
    if Shutting(pc) then Shutting(pc') && pc'.loop == pc.loop else !Shutting(pc')
  }

  /** Neither a caller nor an ID moved. */
  ghost predicate SameRegistry(s: State, s': State) {
    && s'.p.pid == s.p.pid && s'.p.loops == s.p.loops && s'.p.current == s.p.current && s'.p.calls == s.p.calls
    && s'.p.suspensions == s.p.suspensions && s'.p.channels == s.p.channels
    && SameShutting(s.p.pc, s'.p.pc)
    && s'.p.tasks.Keys == s.p.tasks.Keys
    && forall id | id in s.p.tasks :: Sent(s'.p.tasks[id].phase) == Sent(s.p.tasks[id].phase)
  }

  lemma SameRegistryKeeps(s: State, s': State)
    requires RegistryInv(s) && SameRegistry(s, s')
    ensures RegistryInv(s')
  {
  }

  lemma LockRegistry(s: State, id: Id, outcome: Outcome)
    requires CanWork(s, id) && Locking(s.p.tasks[id].phase)
    ensures SameRegistry(s, DoWork(s, id, outcome))
  {
  }

  lemma EarlyRegistry(s: State, id: Id, outcome: Outcome)
    requires CanWork(s, id) && Early(s.p.tasks[id].phase)
    ensures SameRegistry(s, DoWork(s, id, outcome))
  {
    if Locking(s.p.tasks[id].phase) {
      LockRegistry(s, id, outcome);
    }
  }

  lemma LateRegistry(s: State, id: Id, outcome: Outcome)
    requires CanWork(s, id) && !Early(s.p.tasks[id].phase) && !s.p.tasks[id].phase.Sending?
    ensures SameRegistry(s, DoWork(s, id, outcome))
  {
  }

  lemma SendRegistry(s: State, id: Id)
    requires RegistryInv(s) && CanWork(s, id) && s.p.tasks[id].phase.Sending?
    ensures RegistryInv(WorkSend(s, id))
  {
    var l := s.p.calls[id].loop;
    var c, c' := s.p.channels[l], WorkSend(s, id).p.channels[l];
    if c.receiving {
      DistinctAppend(Accepted(c), id);
      assert Accepted(c') == Accepted(c) + [id];
      assert forall i | i in c.queue :: i in c'.queue;
      assert c'.queue[|c.queue|] == id;
    }
  }

  lemma EmptyRegistry(calls: Calls, suspensions: Suspensions, l: LoopId)
    requires RegistryOk(calls, suspensions)
    ensures RegistryOk(calls, suspensions[l := NOBODY])
  {
  }

  lemma InitRegistry(s: State, owned: bool, l: LoopId, k: Sock, workers: nat, capacity: nat)
    requires StructureInv(s) && RegistryInv(s) && CanInit(s, l, k, workers, capacity) && Initializes(s.p, owned)
    ensures RegistryInv(DoInit(s, owned, l, k, workers, capacity))
  {
    var p' := DoInit(s, owned, l, k, workers, capacity).p;
    assert forall m | m in Own(p'.pid, p'.loops) && m != l :: m in Own(s.p.pid, s.p.loops);
    EmptyRegistry(s.p.calls, s.p.suspensions, l);
    assert p'.calls == s.p.calls && p'.suspensions == s.p.suspensions[l := NOBODY];
    assert RegistryOk(p'.calls, p'.suspensions);
  }

  lemma AddRegistered(calls: Calls, suspensions: Suspensions, id: Id, c: Call)
    requires RegistryOk(calls, suspensions) && c.loop in suspensions && id !in calls
    ensures RegistryOk(calls[id := c], suspensions[c.loop := suspensions[c.loop][id := c.fiber]])
  {
  }

  lemma SpawnDelivery(s: State, f: Fiber, borrowing: bool)
    requires StructureInv(s) && RegistryInv(s) && Usable(s.p)
    ensures var p := DoSpawn(s, f, borrowing).p;
      ChannelOk(p.calls, p.tasks, p.channels) && DeliveryOk(p.tasks, p.suspensions, p.channels)
  {
  }

  lemma SpawnRegistry(s: State, f: Fiber, borrowing: bool)
    requires StructureInv(s) && RegistryInv(s) && Usable(s.p) && s.p.pc.Idle?
    ensures RegistryInv(DoSpawn(s, f, borrowing))
  {
    SpawnDelivery(s, f, borrowing);
    AddRegistered(s.p.calls, s.p.suspensions, s.p.nextId, Call(s.p.current.value, borrowing, f));
  }

  lemma ShutdownRegistry(s: State)
    requires StructureInv(s) && RegistryInv(s) && s.p.pc.Idle?
    ensures RegistryInv(DoShutdown(s))
  {
  }

  lemma EnterRegistry(s: State, step: Step)
    requires OuterEnabled(s, step) && (step.Wakeup? || step.Drain?)
    ensures SameRegistry(s, ApplyOuter(s, step))
  {
  }

  lemma CallerRegistry(s: State, step: Step)
    requires OuterEnabled(s, step) && !Entry(step) && !step.Init? && !step.Spawn?
    ensures SameRegistry(s, ApplyOuter(s, step))
  {
  }

  lemma OuterRegistry(s: State, step: Step)
    requires StructureInv(s) && RegistryInv(s) && OuterEnabled(s, step)
    ensures RegistryInv(ApplyOuter(s, step))
  {
    if step.Init? {
      if Initializes(s.p, step.owned) {
        InitRegistry(s, step.owned, step.loop, step.socket, step.workers, step.capacity);
      }
    } else if step.Spawn? {
      if Usable(s.p) {
        SpawnRegistry(s, step.fiber, step.borrowing);
      }
    } else if step.Shutdown? {
      ShutdownRegistry(s);
    } else {
      if Entry(step) {
        EnterRegistry(s, step);
      } else {
        CallerRegistry(s, step);
      }
      SameRegistryKeeps(s, ApplyOuter(s, step));
    }
  }

  lemma UnregisterRegistry(s: State)
    requires RegistryInv(s) && CanUnregister(s)
    ensures RegistryInv(DoUnregister(s))
  {
  }

  /** Receiving an ID takes its caller out of the map. */
  lemma PopRegistry(s: State, pc: Pc)
    requires RegistryInv(s) && Usable(s.p) && s.p.channels[s.p.current.value].queue != []
    requires Ready(s.p.pc) != [] || s.p.pc.Receiving? || s.p.pc.Collecting?
    requires pc.Receiving? || pc.Collecting?
    ensures RegistryInv(Pop(s, pc))
  {
    var l := s.p.current.value;
    var c, c' := s.p.channels[l], Pop(s, pc).p.channels[l];
    assert Accepted(c') == Accepted(c);
  }

  lemma DropLoopRegistry(s: State)
    requires StructureInv(s) && RegistryInv(s) && CanDropLoop(s)
    ensures RegistryInv(DoDropLoop(s))
  {
  }

  /** The steps that move callers or IDs. */
  predicate Unlists(s: State, step: Step)
    requires InnerEnabled(s, step)
  {
    || step.Unregister? || step.DropLoop?
    || (step.Receive? && !ReceiveEnds(s.p)) || (step.Collect? && !CollectEnds(s.p))
  }

  lemma StartRegistry(s: State)
    requires StructureInv(s) && CanStart(s)
    ensures SameRegistry(s, DoStart(s))
  {
  }

  lemma LaunchRegistry(s: State)
    requires StructureInv(s) && CanLaunch(s)
    ensures SameRegistry(s, DoLaunch(s))
  {
  }

  lemma SuspendRegistry(s: State, step: Step)
    requires InnerEnabled(s, step) && (step.Suspend? || step.Return?)
    ensures SameRegistry(s, ApplyInner(s, step))
  {
  }

  lemma CollectRegistry(s: State, step: Step)
    requires InnerEnabled(s, step) && !Unlists(s, step)
    requires step.DeadlinePasses? || step.Receive? || step.Read? || step.Rearm? || step.Collect?
    ensures SameRegistry(s, ApplyInner(s, step))
  {
  }

  lemma CheckSlotRegistry(s: State)
    requires CanCheckSlot(s)
    ensures SameRegistry(s, DoTake(s)) && SameRegistry(s, DoSleep(s))
  {
  }

  lemma WaitRegistry(s: State, step: Step)
    requires InnerEnabled(s, step)
    requires step.CheckBorrowing? || step.WakeSpuriously? || step.Release? || step.DropRuntime?
    ensures SameRegistry(s, ApplyInner(s, step))
  {
  }

  lemma InnerSameRegistry(s: State, step: Step)
    requires StructureInv(s) && InnerEnabled(s, step) && !Unlists(s, step)
    ensures SameRegistry(s, ApplyInner(s, step))
  {
    if step.Start? {
      StartRegistry(s);
    } else if step.Launch? {
      LaunchRegistry(s);
    } else if step.Suspend? || step.Return? {
      SuspendRegistry(s, step);
    } else if step.CheckSlot? {
      CheckSlotRegistry(s);
    } else if step.DeadlinePasses? || step.Receive? || step.Read? || step.Rearm? || step.Collect? {
      CollectRegistry(s, step);
    } else {
      WaitRegistry(s, step);
    }
  }

  lemma InnerRegistry(s: State, step: Step)
    requires StructureInv(s) && RegistryInv(s) && InnerEnabled(s, step)
    ensures RegistryInv(ApplyInner(s, step))
  {
    if !Unlists(s, step) {
      InnerSameRegistry(s, step);
      SameRegistryKeeps(s, ApplyInner(s, step));
    } else if step.Unregister? {
      UnregisterRegistry(s);
    } else if step.DropLoop? {
      DropLoopRegistry(s);
    } else if step.Receive? {
      PopRegistry(s, Receiving(Extended(s.p, s.p.pc.ready), s.p.pc.late));
    } else {
      PopRegistry(s, Collecting(Extended(s.p, s.p.pc.ready)));
    }
  }

  lemma StepKeepsRegistry(s: State, step: Step)
    requires StructureInv(s) && RegistryInv(s) && Enabled(s, step)
    ensures RegistryInv(Apply(s, step))
  {
    if Outer(step) {
      OuterRegistry(s, step);
    } else if !step.Work? {
      InnerRegistry(s, step);
    } else if s.p.tasks[step.id].phase.Sending? {
      SendRegistry(s, step.id);
    } else {
      if Early(s.p.tasks[step.id].phase) {
        EarlyRegistry(s, step.id, step.outcome);
      } else {
        LateRegistry(s, step.id, step.outcome);
      }
      SameRegistryKeeps(s, DoWork(s, step.id, step.outcome));
    }
  }

  // ----- What became of each ID

  predicate HandedOver(c: Caller) {
    c == Resumable(Handed) || c == Waiting(Handed)
  }

  /** No ID changed its fate; a caller was handed over only from a ready list. */
  ghost predicate SameFates(s: State, s': State) {
    && s'.p.calls == s.p.calls && s'.p.suspensions == s.p.suspensions
    && s'.p.collected == s.p.collected && s'.p.unregistered == s.p.unregistered && s'.p.abandoned == s.p.abandoned
    && (forall id | id in Ready(s'.p.pc) || id in s'.p.toResume :: id in Ready(s.p.pc) || id in s.p.toResume)
    && s'.p.tasks.Keys == s.p.tasks.Keys
    && (forall id | id in s.p.tasks && Sent(s.p.tasks[id].phase) :: Sent(s'.p.tasks[id].phase))
    && (forall id | id in s'.p.callers && HandedOver(s'.p.callers[id]) ::
          id in s.p.toResume || (id in s.p.callers && HandedOver(s.p.callers[id])))
  }

  lemma SameFatesKeep(s: State, s': State)
    requires FateInv(s) && SameFates(s, s')
    ensures FateInv(s')
  {
  }

  lemma EarlyFates(s: State, id: Id, outcome: Outcome)
    requires CanWork(s, id) && Early(s.p.tasks[id].phase)
    ensures SameFates(s, DoWork(s, id, outcome))
  {
  }

  lemma LateFates(s: State, id: Id, outcome: Outcome)
    requires CanWork(s, id) && !Early(s.p.tasks[id].phase)
    ensures SameFates(s, DoWork(s, id, outcome))
  {
  }

  lemma InitFates(s: State, owned: bool, l: LoopId, k: Sock, workers: nat, capacity: nat)
    requires StructureInv(s) && FateInv(s) && CanInit(s, l, k, workers, capacity)
    ensures FateInv(DoInit(s, owned, l, k, workers, capacity))
  {
    var p, p' := s.p, DoInit(s, owned, l, k, workers, capacity).p;
    assert forall id :: StillRegistered(p'.calls, p'.suspensions, id) == StillRegistered(p.calls, p.suspensions, id);
  }

  lemma SpawnRegisters(s: State, f: Fiber, borrowing: bool)
    requires StructureInv(s) && RegistryInv(s) && Usable(s.p)
    ensures var p, p', id := s.p, DoSpawn(s, f, borrowing).p, s.p.nextId;
      && !StillRegistered(p.calls, p.suspensions, id) && StillRegistered(p'.calls, p'.suspensions, id)
      && forall i | i != id :: StillRegistered(p'.calls, p'.suspensions, i) == StillRegistered(p.calls, p.suspensions, i)
  {
  }

  lemma SpawnFates(s: State, f: Fiber, borrowing: bool)
    requires StructureInv(s) && RegistryInv(s) && FateInv(s) && Usable(s.p) && s.p.pc.Idle?
    ensures FateInv(DoSpawn(s, f, borrowing))
  {
    SpawnRegisters(s, f, borrowing);
  }

  lemma EntryFates(s: State, step: Step)
    requires OuterEnabled(s, step) && Entry(step)
    ensures SameFates(s, ApplyOuter(s, step))
  {
  }

  lemma ResumeFates(s: State, step: Step)
    requires OuterEnabled(s, step) && (step.ResumeCall? || step.ForeignResume? || step.Free?)
    ensures SameFates(s, ApplyOuter(s, step))
  {
  }

  lemma RunFates(s: State, step: Step)
    requires OuterEnabled(s, step) && (step.Continue? || step.Interrupt?)
    ensures SameFates(s, ApplyOuter(s, step))
  {
  }

  lemma OuterFates(s: State, step: Step)
    requires StructureInv(s) && RegistryInv(s) && FateInv(s) && OuterEnabled(s, step)
    ensures FateInv(ApplyOuter(s, step))
  {
    if step.Init? {
      if Initializes(s.p, step.owned) {
        InitFates(s, step.owned, step.loop, step.socket, step.workers, step.capacity);
      }
    } else if step.Spawn? {
      if Usable(s.p) {
        SpawnFates(s, step.fiber, step.borrowing);
      }
    } else {
      if Entry(step) {
        EntryFates(s, step);
      } else if step.Continue? || step.Interrupt? {
        RunFates(s, step);
      } else {
        ResumeFates(s, step);
      }
      SameFatesKeep(s, ApplyOuter(s, step));
    }
  }

  lemma UnregisterFates(s: State)
    requires RegistryInv(s) && FateInv(s) && CanUnregister(s) && Has(s.p, s.p.pc.id)
    ensures FateInv(DoUnregister(s))
  {
    var p, p', id, l := s.p, DoUnregister(s).p, s.p.pc.id, s.p.current.value;
    assert l in p.suspensions && id in p.suspensions[l] && p.calls[id].loop == l;
    assert StillRegistered(p.calls, p.suspensions, id) && !StillRegistered(p'.calls, p'.suspensions, id);
    assert forall i | i != id :: StillRegistered(p'.calls, p'.suspensions, i) == StillRegistered(p.calls, p.suspensions, i);
  }

  /** A received ID that is registered is collected: for the first time. */
  lemma PopFates(s: State, pc: Pc)
    requires RegistryInv(s) && FateInv(s) && Usable(s.p) && s.p.channels[s.p.current.value].queue != []
    requires Ready(pc) == Extended(s.p, Ready(s.p.pc))
    ensures FateInv(Pop(s, pc))
  {
    var p, p', l := s.p, Pop(s, pc).p, s.p.current.value;
    var id := p.channels[l].queue[0];
    assert id in Accepted(p.channels[l]);
    if id in p.suspensions[l] {
      assert StillRegistered(p.calls, p.suspensions, id) && !StillRegistered(p'.calls, p'.suspensions, id);
      assert id !in p.collected;
      DistinctAppend(p.collected, id);
    }
    assert forall i | i != id :: StillRegistered(p'.calls, p'.suspensions, i) == StillRegistered(p.calls, p.suspensions, i);
  }

  lemma DropLoopFates(s: State)
    requires RegistryInv(s) && FateInv(s) && CanDropLoop(s)
    ensures FateInv(DoDropLoop(s))
  {
    var p, p', l := s.p, DoDropLoop(s).p, s.p.pc.loop;
    forall id
      ensures StillRegistered(p'.calls, p'.suspensions, id) <==>
          StillRegistered(p.calls, p.suspensions, id) && id !in p.suspensions[l]
    {
    }
  }

  lemma StartFates(s: State)
    requires StructureInv(s) && CanStart(s)
    ensures SameFates(s, DoStart(s))
  {
  }

  lemma LaunchFates(s: State)
    requires StructureInv(s) && CanLaunch(s)
    ensures SameFates(s, DoLaunch(s))
  {
  }

  lemma SuspendFates(s: State, step: Step)
    requires InnerEnabled(s, step)
    requires step.Suspend? || step.Return? || (step.Unregister? && !Has(s.p, s.p.pc.id))
    ensures SameFates(s, ApplyInner(s, step))
  {
  }

  lemma CollectSameFates(s: State, step: Step)
    requires InnerEnabled(s, step) && !Unlists(s, step)
    requires step.DeadlinePasses? || step.Receive? || step.Read? || step.Rearm? || step.Collect?
    ensures SameFates(s, ApplyInner(s, step))
  {
  }

  lemma CheckSlotFates(s: State)
    requires CanCheckSlot(s)
    ensures SameFates(s, DoTake(s)) && SameFates(s, DoSleep(s))
  {
  }

  lemma WaitFates(s: State, step: Step)
    requires InnerEnabled(s, step)
    requires step.CheckBorrowing? || step.WakeSpuriously? || step.Release? || step.DropRuntime?
    ensures SameFates(s, ApplyInner(s, step))
  {
  }

  lemma InnerSameFates(s: State, step: Step)
    requires StructureInv(s) && InnerEnabled(s, step) && (step.Unregister? ==> !Has(s.p, s.p.pc.id))
    requires !step.Unregister? ==> !Unlists(s, step)
    ensures SameFates(s, ApplyInner(s, step))
  {
    if step.Start? {
      StartFates(s);
    } else if step.Launch? {
      LaunchFates(s);
    } else if step.Suspend? || step.Return? || step.Unregister? {
      SuspendFates(s, step);
    } else if step.CheckSlot? {
      CheckSlotFates(s);
    } else if step.DeadlinePasses? || step.Receive? || step.Read? || step.Rearm? || step.Collect? {
      CollectSameFates(s, step);
    } else {
      WaitFates(s, step);
    }
  }

  lemma InnerFates(s: State, step: Step)
    requires StructureInv(s) && RegistryInv(s) && FateInv(s) && InnerEnabled(s, step)
    ensures FateInv(ApplyInner(s, step))
  {
    if step.Unregister? && Has(s.p, s.p.pc.id) {
      UnregisterFates(s);
    } else if step.DropLoop? {
      DropLoopFates(s);
    } else if step.Receive? && !ReceiveEnds(s.p) {
      PopFates(s, Receiving(Extended(s.p, s.p.pc.ready), s.p.pc.late));
    } else if step.Collect? && !CollectEnds(s.p) {
      PopFates(s, Collecting(Extended(s.p, s.p.pc.ready)));
    } else {
      InnerSameFates(s, step);
      SameFatesKeep(s, ApplyInner(s, step));
    }
  }

  lemma StepKeepsFates(s: State, step: Step)
    requires StructureInv(s) && RegistryInv(s) && FateInv(s) && Enabled(s, step)
    ensures FateInv(Apply(s, step))
  {
    if Outer(step) {
      OuterFates(s, step);
    } else if !step.Work? {
      InnerFates(s, step);
    } else {
      if Early(s.p.tasks[step.id].phase) {
        EarlyFates(s, step.id, step.outcome);
      } else {
        LateFates(s, step.id, step.outcome);
      }
      SameFatesKeep(s, DoWork(s, step.id, step.outcome));
    }
  }

  // ----- Who may still borrow

  /** Nobody's frame was left, and no future appeared; no loop has more borrowing tasks. */
  ghost predicate SameBorrows(s: State, s': State) {
    && s'.p.pid == s.p.pid && s'.p.loops == s.p.loops && s'.p.current == s.p.current && s'.p.calls == s.p.calls
    && s'.p.tasks.Keys == s.p.tasks.Keys && s'.p.callers.Keys == s.p.callers.Keys && s'.p.keepers.Keys == s.p.keepers.Keys
    && (forall id | id in s.p.tasks && FutureAlive(s'.p.tasks[id].phase) :: FutureAlive(s.p.tasks[id].phase))
    && (forall id | id in s.p.callers && FrameAlive(s.p.callers[id]) :: FrameAlive(s'.p.callers[id]))
    && (forall l | l in s.p.keepers :: s'.p.keepers[l].tasks.borrowing == s.p.keepers[l].tasks.borrowing)
    && (s.p.pc.BorrowWaiting? ==> s'.p.pc.BorrowWaiting? && s'.p.pc.loop == s.p.pc.loop)
  }

  lemma SameBorrowsKeep(s: State, s': State)
    requires BorrowInv(s) && SameBorrows(s, s')
    ensures BorrowInv(s')
  {
  }

  lemma EarlyBorrows(s: State, id: Id, outcome: Outcome)
    requires CanWork(s, id) && Early(s.p.tasks[id].phase)
    ensures SameBorrows(s, DoWork(s, id, outcome))
  {
  }

  lemma LateBorrows(s: State, id: Id, outcome: Outcome)
    requires CanWork(s, id) && !Early(s.p.tasks[id].phase) && !s.p.tasks[id].phase.Ending?
    ensures SameBorrows(s, DoWork(s, id, outcome))
  {
  }

  lemma EndBorrows(s: State, id: Id)
    requires StructureInv(s) && BorrowInv(s) && CountersOk(s.p.calls, s.p.tasks, s.p.keepers)
    requires CanWork(s, id) && s.p.tasks[id].phase.Ending?
    ensures BorrowInv(WorkEnd(s, id))
  {
    if s.p.calls[id].borrowing {
      assert id in Borrowers(s.p.calls, s.p.tasks, s.p.calls[id].loop);
    }
  }

  lemma InitBorrows(s: State, owned: bool, l: LoopId, k: Sock, workers: nat, capacity: nat)
    requires StructureInv(s) && BorrowInv(s) && CanInit(s, l, k, workers, capacity) && Initializes(s.p, owned)
    ensures BorrowInv(DoInit(s, owned, l, k, workers, capacity))
  {
    var p' := DoInit(s, owned, l, k, workers, capacity).p;
    assert forall m | m in Own(p'.pid, p'.loops) && m != l :: m in Own(s.p.pid, s.p.loops);
  }

  lemma SpawnBorrows(s: State, f: Fiber, borrowing: bool)
    requires StructureInv(s) && BorrowInv(s) && Usable(s.p) && s.p.pc.Idle?
    ensures BorrowInv(DoSpawn(s, f, borrowing))
  {
  }

  lemma ShutdownBorrows(s: State)
    requires StructureInv(s) && BorrowInv(s) && s.p.pc.Idle?
    ensures BorrowInv(DoShutdown(s))
  {
  }

  /** Without a borrowing task, no future borrows. */
  lemma NoBorrower(p: Proc, id: Id)
    requires Shape(p) && PlacesOk(p.pc, p.tasks, p.callers) && CountersOk(p.calls, p.tasks, p.keepers)
    requires id in p.calls && !p.pc.Registered? && p.keepers[p.calls[id].loop].tasks.borrowing == 0
    ensures p.calls[id].borrowing ==> !FutureAlive(p.tasks[id].phase)
  {
    assert id !in Borrowers(p.calls, p.tasks, p.calls[id].loop);
  }

  lemma FreeBorrows(s: State, id: Id)
    requires StructureInv(s) && BorrowInv(s) && CountersOk(s.p.calls, s.p.tasks, s.p.keepers) && CanFree(s, id)
    ensures BorrowInv(DoFree(s, id))
  {
    if s.p.calls[id].loop in Own(s.p.pid, s.p.loops) {
      NoBorrower(s.p, id);
    }
  }

  lemma ResumeBorrows(s: State, step: Step)
    requires StructureInv(s) && OuterEnabled(s, step)
    requires step.Wakeup? || step.Drain? || step.ResumeCall? || step.ForeignResume?
    ensures SameBorrows(s, ApplyOuter(s, step))
  {
  }

  lemma RunBorrows(s: State, step: Step)
    requires StructureInv(s) && OuterEnabled(s, step) && (step.Continue? || step.Interrupt?)
    ensures SameBorrows(s, ApplyOuter(s, step))
  {
  }

  lemma OuterBorrows(s: State, step: Step)
    requires StructureInv(s) && BorrowInv(s) && CountersOk(s.p.calls, s.p.tasks, s.p.keepers) && OuterEnabled(s, step)
    ensures BorrowInv(ApplyOuter(s, step))
  {
    if step.Init? {
      if Initializes(s.p, step.owned) {
        InitBorrows(s, step.owned, step.loop, step.socket, step.workers, step.capacity);
      }
    } else if step.Spawn? {
      if Usable(s.p) {
        SpawnBorrows(s, step.fiber, step.borrowing);
      }
    } else if step.Shutdown? {
      ShutdownBorrows(s);
    } else if step.Free? {
      FreeBorrows(s, step.id);
    } else {
      if step.Continue? || step.Interrupt? {
        RunBorrows(s, step);
      } else {
        ResumeBorrows(s, step);
      }
      SameBorrowsKeep(s, ApplyOuter(s, step));
    }
  }

  lemma StartBorrows(s: State)
    requires StructureInv(s) && BorrowInv(s) && CanStart(s)
    ensures BorrowInv(DoStart(s))
  {
  }

  lemma LaunchBorrows(s: State)
    requires StructureInv(s) && CanLaunch(s)
    ensures SameBorrows(s, DoLaunch(s))
  {
  }

  lemma SuspendBorrows(s: State, step: Step)
    requires StructureInv(s) && InnerEnabled(s, step) && (step.Suspend? || step.Unregister?)
    ensures SameBorrows(s, ApplyInner(s, step))
  {
  }

  /** Back in `suspend_on`, in the process of the loop, the frame stays. */
  lemma ReturnBorrows(s: State)
    requires StructureInv(s) && BorrowInv(s) && CanReturn(s)
    ensures BorrowInv(DoReturn(s))
  {
  }

  /** The slot is over: so is the future. */
  lemma TakeBorrows(s: State)
    requires StructureInv(s) && SlotsOk(s.p.tasks, s.p.slots) && BorrowInv(s)
    requires CanCheckSlot(s) && s.p.slots[s.p.pc.id] != Running
    ensures BorrowInv(DoTake(s))
  {
    assert SlotOk(s.p.tasks[s.p.pc.id], s.p.slots[s.p.pc.id]);
  }

  lemma SleepBorrows(s: State)
    requires CanCheckSlot(s)
    ensures SameBorrows(s, DoSleep(s))
  {
  }

  lemma CheckBorrowingBorrows(s: State)
    requires BorrowInv(s) && CountersOk(s.p.calls, s.p.tasks, s.p.keepers) && CanCheckBorrowing(s)
    ensures BorrowInv(DoCheckBorrowing(s))
  {
  }

  lemma CollectBorrows(s: State, step: Step)
    requires InnerEnabled(s, step)
    requires step.DeadlinePasses? || step.Receive? || step.Read? || step.Rearm? || step.Collect?
    ensures SameBorrows(s, ApplyInner(s, step))
  {
    if step.Receive? {
      if ReceiveEnds(s.p) {
      }
    } else if step.Collect? {
      if CollectEnds(s.p) {
      }
    }
  }

  lemma ShutdownSameBorrows(s: State, step: Step)
    requires InnerEnabled(s, step) && (step.WakeSpuriously? || step.Release? || step.DropRuntime? || step.DropLoop?)
    ensures SameBorrows(s, ApplyInner(s, step))
  {
  }

  /** The steps that concern borrowing. */
  predicate OnBorrows(step: Step) {
    step.Start? || step.Return? || step.CheckSlot? || step.CheckBorrowing?
  }

  lemma InnerSameBorrows(s: State, step: Step)
    requires StructureInv(s) && InnerEnabled(s, step) && !OnBorrows(step)
    ensures SameBorrows(s, ApplyInner(s, step))
  {
    if step.Launch? {
      LaunchBorrows(s);
    } else if step.Suspend? || step.Unregister? {
      SuspendBorrows(s, step);
    } else if step.WakeSpuriously? || step.Release? || step.DropRuntime? || step.DropLoop? {
      ShutdownSameBorrows(s, step);
    } else {
      CollectBorrows(s, step);
    }
  }

  lemma InnerBorrows(s: State, step: Step)
    requires StructureInv(s) && BorrowInv(s) && CountersOk(s.p.calls, s.p.tasks, s.p.keepers)
    requires SlotsOk(s.p.tasks, s.p.slots) && InnerEnabled(s, step)
    ensures BorrowInv(ApplyInner(s, step))
  {
    if !OnBorrows(step) {
      InnerSameBorrows(s, step);
      SameBorrowsKeep(s, ApplyInner(s, step));
    } else if step.Start? {
      StartBorrows(s);
    } else if step.Return? {
      ReturnBorrows(s);
    } else if step.CheckBorrowing? {
      CheckBorrowingBorrows(s);
    } else if s.p.slots[s.p.pc.id] == Running {
      SleepBorrows(s);
      SameBorrowsKeep(s, DoSleep(s));
    } else {
      TakeBorrows(s);
    }
  }

  lemma StepKeepsBorrows(s: State, step: Step)
    requires StructureInv(s) && BorrowInv(s) && CountersOk(s.p.calls, s.p.tasks, s.p.keepers)
    requires SlotsOk(s.p.tasks, s.p.slots) && Enabled(s, step)
    ensures BorrowInv(Apply(s, step))
  {
    if Outer(step) {
      OuterBorrows(s, step);
    } else if !step.Work? {
      InnerBorrows(s, step);
    } else if s.p.tasks[step.id].phase.Ending? {
      EndBorrows(s, step.id);
    } else {
      if Early(s.p.tasks[step.id].phase) {
        EarlyBorrows(s, step.id, step.outcome);
      } else {
        LateBorrows(s, step.id, step.outcome);
      }
      SameBorrowsKeep(s, DoWork(s, step.id, step.outcome));
    }
  }
}
