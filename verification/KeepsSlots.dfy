/** Every step keeps the slots in agreement with the tasks and the callers, and sleepers with a notification to come. */
module KeepsSlots {
  import opened Basics
  import opened Slots
  import opened States
  import opened Steps
  import opened Invariant
  import opened KeepsStructure

  // ----- Worker threads

  lemma PollSlots(s: State, id: Id, outcome: Outcome)
    requires SlotInv(s) && CanWork(s, id) && s.p.tasks[id].phase.Polling?
    ensures SlotInv(WorkPoll(s, id, outcome))
  {
  }

  /** Taking and releasing the lock. */
  lemma LockSlots(s: State, id: Id, phase: Phase)
    requires SlotInv(s) && CanWork(s, id)
    requires match s.p.tasks[id].phase
             case Setting => phase == Storing
             case Stored => phase == SetNotifying
             case Finishing => phase == Closing
             case Closed => phase == Sending
             case _ => false
    ensures SlotInv(WorkLock(s, id, phase))
  {
  }

  lemma SetSlots(s: State, id: Id)
    requires SlotInv(s) && CanWork(s, id) && s.p.tasks[id].phase.Storing?
    ensures SlotInv(WorkSet(s, id))
  {
  }

  lemma NotifySetSlots(s: State, id: Id)
    requires SlotInv(s) && CanWork(s, id) && s.p.tasks[id].phase.SetNotifying?
    ensures SlotInv(WorkNotifySet(s, id))
  {
  }

  lemma FinishSlots(s: State, id: Id)
    requires SlotInv(s) && CanWork(s, id) && s.p.tasks[id].phase.Closing?
    ensures SlotInv(WorkFinish(s, id))
  {
  }

  /** A task past its slot moves; its loop's borrowing count drops only with a notification. */
  ghost predicate Past(s: State, s': State, id: Id) {
    && id in s.p.tasks && id in s'.p.tasks && Sent(s'.p.tasks[id].phase)
    && (Sent(s.p.tasks[id].phase) || s.p.tasks[id].phase.Sending?)
    && s'.p.tasks == s.p.tasks[id := s'.p.tasks[id]] && s'.p.tasks[id].outcome == s.p.tasks[id].outcome
    && s'.p.slots == s.p.slots && s'.p.callers == s.p.callers && SamePlace(s.p.pc, s'.p.pc)
    && forall l | l in s.p.keepers :: l in s'.p.keepers &&
         (s'.p.keepers[l].tasks.borrowing == s.p.keepers[l].tasks.borrowing || s'.p.pc != BorrowWaiting(l, true))
  }

  lemma PastSlots(s: State, s': State, id: Id)
    requires SlotInv(s) && Past(s, s', id)
    ensures SlotInv(s')
  {
  }

  lemma LatePast(s: State, id: Id, outcome: Outcome)
    requires CanWork(s, id) && !Early(s.p.tasks[id].phase)
    ensures Past(s, DoWork(s, id, outcome), id)
  {
  }

  lemma WorkSlots(s: State, id: Id, outcome: Outcome)
    requires SlotInv(s) && CanWork(s, id)
    ensures SlotInv(DoWork(s, id, outcome))
  {
    var phase := s.p.tasks[id].phase;
    if phase.Polling? {
      PollSlots(s, id, outcome);
    } else if phase.Setting? {
      LockSlots(s, id, Storing);
    } else if phase.Storing? {
      SetSlots(s, id);
    } else if phase.Stored? {
      LockSlots(s, id, SetNotifying);
    } else if phase.SetNotifying? {
      NotifySetSlots(s, id);
    } else if phase.Finishing? {
      LockSlots(s, id, Closing);
    } else if phase.Closing? {
      FinishSlots(s, id);
    } else if phase.Closed? {
      LockSlots(s, id, Sending);
    } else {
      LatePast(s, id, outcome);
      PastSlots(s, DoWork(s, id, outcome), id);
    }
  }

  // ----- The PHP thread

  /** One of them left with a result. */
  predicate Over(c: Caller, c': Caller) {
    || (c.Left? && (c.exit.Returned? || c.exit.FuturePanicked?))
    || (c'.Left? && (c'.exit.Returned? || c'.exit.FuturePanicked?))
  }

  /** The slots, and what they depend on, are left alone, but for a caller that gets no result; PHP does not go to sleep. */
  ghost predicate Quiet(s: State, s': State) {
    && s'.p.tasks == s.p.tasks && s'.p.slots == s.p.slots && !Asleep(s'.p.pc)
    && forall id | id in s'.p.callers ::
         id in s.p.callers && (s'.p.callers[id] == s.p.callers[id] || !Over(s.p.callers[id], s'.p.callers[id]))
  }

  lemma QuietSlots(s: State, s': State)
    requires SlotInv(s) && Quiet(s, s')
    ensures SlotInv(s')
  {
  }

  lemma EntryQuiet(s: State, step: Step)
    requires OuterEnabled(s, step) && Entry(step)
    ensures Quiet(s, ApplyOuter(s, step))
  {
  }

  lemma ResumeQuiet(s: State, step: Step)
    requires OuterEnabled(s, step) && (step.ResumeCall? || step.ForeignResume? || step.Free?)
    ensures Quiet(s, ApplyOuter(s, step))
  {
  }

  lemma RunQuiet(s: State, step: Step)
    requires StructureInv(s) && OuterEnabled(s, step) && (step.Continue? || step.Interrupt?)
    ensures Quiet(s, ApplyOuter(s, step))
  {
  }

  lemma SpawnSlots(s: State, f: Fiber, borrowing: bool)
    requires StructureInv(s) && SlotInv(s) && CanSpawn(s, f) && Usable(s.p)
    ensures SlotInv(DoSpawn(s, f, borrowing))
  {
  }

  lemma StartSlots(s: State)
    requires StructureInv(s) && SlotInv(s) && CanStart(s)
    ensures SlotInv(DoStart(s))
  {
  }

  lemma LaunchSlots(s: State)
    requires StructureInv(s) && SlotInv(s) && CanLaunch(s)
    ensures SlotInv(DoLaunch(s))
  {
  }

  lemma SuspendQuiet(s: State, step: Step)
    requires StructureInv(s) && InnerEnabled(s, step) && (step.Suspend? || step.Unregister? || step.Return?)
    ensures Quiet(s, ApplyInner(s, step))
  {
  }

  lemma CollectQuiet(s: State, step: Step)
    requires InnerEnabled(s, step)
    requires step.DeadlinePasses? || step.Receive? || step.Read? || step.Rearm? || step.Collect?
    ensures Quiet(s, ApplyInner(s, step))
  {
    match step
    case Receive =>
      if ReceiveEnds(s.p) {
      }
    case Collect =>
      if CollectEnds(s.p) {
      }
    case _ =>
  }

  lemma ShutdownQuiet(s: State, step: Step)
    requires InnerEnabled(s, step) && (step.WakeSpuriously? || step.Release? || step.DropRuntime? || step.DropLoop?)
    ensures Quiet(s, ApplyInner(s, step))
  {
  }

  lemma TakeSlots(s: State)
    requires StructureInv(s) && SlotInv(s) && CanCheckSlot(s) && s.p.slots[s.p.pc.id] != Running
    ensures SlotInv(DoTake(s))
  {
    var id, s' := s.p.pc.id, DoTake(s);
    assert SlotOk(s.p.tasks[id], s.p.slots[id]) && ResultOk(s.p.tasks[id], s.p.slots[id], s.p.callers[id]);
    assert ResultOk(s'.p.tasks[id], s'.p.slots[id], s'.p.callers[id]);
  }

  lemma SleepSlots(s: State)
    requires StructureInv(s) && SlotInv(s) && CanCheckSlot(s) && s.p.slots[s.p.pc.id] == Running
    ensures SlotInv(DoSleep(s))
  {
  }

  lemma CheckBorrowingSlots(s: State)
    requires SlotInv(s) && CanCheckBorrowing(s)
    ensures SlotInv(DoCheckBorrowing(s))
  {
  }

  /** The steps that concern slots. */
  predicate OnSlots(step: Step) {
    step.Start? || step.Launch? || step.CheckSlot? || step.CheckBorrowing?
  }

  lemma InnerQuiet(s: State, step: Step)
    requires StructureInv(s) && InnerEnabled(s, step) && !OnSlots(step)
    ensures Quiet(s, ApplyInner(s, step))
  {
    if step.Suspend? || step.Unregister? || step.Return? {
      SuspendQuiet(s, step);
    } else if step.WakeSpuriously? || step.Release? || step.DropRuntime? || step.DropLoop? {
      ShutdownQuiet(s, step);
    } else {
      CollectQuiet(s, step);
    }
  }

  lemma InnerSlots(s: State, step: Step)
    requires StructureInv(s) && SlotInv(s) && InnerEnabled(s, step)
    ensures SlotInv(ApplyInner(s, step))
  {
    if !OnSlots(step) {
      InnerQuiet(s, step);
      QuietSlots(s, ApplyInner(s, step));
    } else if step.Start? {
      StartSlots(s);
    } else if step.Launch? {
      LaunchSlots(s);
    } else if step.CheckBorrowing? {
      CheckBorrowingSlots(s);
    } else if s.p.slots[s.p.pc.id] == Running {
      SleepSlots(s);
    } else {
      TakeSlots(s);
    }
  }

  lemma InitSlots(s: State, owned: bool, l: LoopId, k: Sock, workers: nat, capacity: nat)
    requires SlotInv(s) && CanInit(s, l, k, workers, capacity)
    ensures SlotInv(DoInit(s, owned, l, k, workers, capacity))
  {
  }

  lemma StepKeepsSlots(s: State, step: Step)
    requires StructureInv(s) && SlotInv(s) && Enabled(s, step)
    ensures SlotInv(Apply(s, step))
  {
    if step.Work? {
      WorkSlots(s, step.id, step.outcome);
    } else if step.Init? {
      if Initializes(s.p, step.owned) {
        InitSlots(s, step.owned, step.loop, step.socket, step.workers, step.capacity);
      }
    } else if step.Spawn? {
      if Usable(s.p) {
        SpawnSlots(s, step.fiber, step.borrowing);
      }
    } else if Outer(step) {
      if Entry(step) {
        EntryQuiet(s, step);
      } else if step.Continue? || step.Interrupt? {
        RunQuiet(s, step);
      } else {
        ResumeQuiet(s, step);
      }
      QuietSlots(s, ApplyOuter(s, step));
    } else {
      InnerSlots(s, step);
    }
  }
}
