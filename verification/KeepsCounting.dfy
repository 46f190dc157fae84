/** Every step keeps the counters, the worker threads, the runtimes, the flag and the bytes in agreement. */
module KeepsCounting {
  import opened Basics
  import opened TaskCounters
  import opened States
  import opened Steps
  import opened Invariant
  import opened KeepsStructure

  // ----- Counting tasks

  lemma CountOne(a: set<Id>, b: set<Id>, x: Id)
    requires a - {x} == b - {x}
    ensures |b| == |a| - AsNat(x in a) + AsNat(x in b)
    ensures (x in a <==> x in b) ==> a == b
  {
    assert a == (a - {x}) + if x in a then {x} else {};
    assert b == (b - {x}) + if x in b then {x} else {};
  }

  /** The change of a count when one task of loop `of` goes from `was` to `now`. */
  function Change(of: LoopId, l: LoopId, was: bool, now: bool): int {
    if of != l || was == now then 0 else if now then 1 else -1
  }

  /** When one task moves, the counts change by that task. */
  lemma CountsMove(calls: Calls, tasks: TaskMap, tasks': TaskMap, id: Id)
    requires id in calls && id in tasks && id in tasks' && tasks' == tasks[id := tasks'[id]]
    ensures forall l ::
        |Tokens(calls, tasks', l)| == |Tokens(calls, tasks, l)| +
        Change(calls[id].loop, l, Counted(tasks[id].phase), Counted(tasks'[id].phase))
    ensures forall l ::
        |Borrowers(calls, tasks', l)| == |Borrowers(calls, tasks, l)| +
        if calls[id].borrowing then Change(calls[id].loop, l, Counted(tasks[id].phase), Counted(tasks'[id].phase)) else 0
    ensures forall l ::
        |Busy(calls, tasks', l)| == |Busy(calls, tasks, l)| +
        Change(calls[id].loop, l, Occupying(tasks[id].phase), Occupying(tasks'[id].phase))
    ensures forall l ::
        |Writers(calls, tasks', l)| == |Writers(calls, tasks, l)| +
        Change(calls[id].loop, l, tasks[id].phase.Writing?, tasks'[id].phase.Writing?)
    ensures forall l ::
        |Releasers(calls, tasks', l)| == |Releasers(calls, tasks, l)| +
        Change(calls[id].loop, l, tasks[id].phase.Releasing?, tasks'[id].phase.Releasing?)
  {
    forall l {
      CountOne(Tokens(calls, tasks, l), Tokens(calls, tasks', l), id);
    }
    forall l {
      CountOne(Borrowers(calls, tasks, l), Borrowers(calls, tasks', l), id);
    }
    forall l {
      CountOne(Busy(calls, tasks, l), Busy(calls, tasks', l), id);
    }
    forall l {
      CountOne(Writers(calls, tasks, l), Writers(calls, tasks', l), id);
    }
    forall l {
      CountOne(Releasers(calls, tasks, l), Releasers(calls, tasks', l), id);
    }
  }

  /** A set changes only if the task moves into it, or out of it. */
  lemma SetsMove(calls: Calls, tasks: TaskMap, tasks': TaskMap, id: Id)
    requires id in calls && id in tasks && id in tasks' && tasks' == tasks[id := tasks'[id]]
    ensures forall l :: l != calls[id].loop || tasks[id].phase.Swapping? == tasks'[id].phase.Swapping? ==>
        Swappers(calls, tasks', l) == Swappers(calls, tasks, l)
    ensures forall l :: l != calls[id].loop || tasks[id].phase.Writing? == tasks'[id].phase.Writing? ==>
        Writers(calls, tasks', l) == Writers(calls, tasks, l)
    ensures forall l :: l != calls[id].loop || tasks[id].phase.Releasing? == tasks'[id].phase.Releasing? ==>
        Releasers(calls, tasks', l) == Releasers(calls, tasks, l)
  {
  }

  lemma WritersAreBusy(calls: Calls, tasks: TaskMap, l: LoopId)
    ensures |Writers(calls, tasks, l)| <= |Busy(calls, tasks, l)|
  {
    assert forall id | id in Writers(calls, tasks, l) :: id in Busy(calls, tasks, l);
    SubsetSize(Writers(calls, tasks, l), Busy(calls, tasks, l));
  }

  // ----- Counters and threads

  /** Nothing that is counted moved. */
  ghost predicate SameCounts(s: State, s': State) {
    && s'.p.loops == s.p.loops && s'.p.calls == s.p.calls && s'.p.tasks == s.p.tasks && s'.p.keepers.Keys == s.p.keepers.Keys
    && forall l | l in s.p.keepers ::
         && s'.p.keepers[l].tasks.running == s.p.keepers[l].tasks.running
         && s'.p.keepers[l].tasks.borrowing == s.p.keepers[l].tasks.borrowing
  }

  lemma SameCountsKeep(s: State, s': State)
    requires CountInv(s) && SameCounts(s, s')
    ensures CountInv(s')
  {
  }

  lemma MoveWorkers(s: State, id: Id, t: Task)
    requires WorkersOk(s.p.loops, s.p.calls, s.p.tasks) && OwnCall(s.p, id)
    requires Occupying(t.phase) ==>
        Occupying(s.p.tasks[id].phase) ||
        |Busy(s.p.calls, s.p.tasks, s.p.calls[id].loop)| < s.p.loops[s.p.calls[id].loop].workers
    ensures WorkersOk(s.p.loops, s.p.calls, s.p.tasks[id := t])
  {
    CountsMove(s.p.calls, s.p.tasks, s.p.tasks[id := t], id);
  }

  lemma MoveCounters(s: State, id: Id, t: Task)
    requires CountersOk(s.p.calls, s.p.tasks, s.p.keepers) && OwnCall(s.p, id)
    requires Counted(t.phase) == Counted(s.p.tasks[id].phase)
    ensures CountersOk(s.p.calls, s.p.tasks[id := t], s.p.keepers)
  {
    CountsMove(s.p.calls, s.p.tasks, s.p.tasks[id := t], id);
  }

  /** One task moves: it does not start, nor end. */
  ghost predicate Runs(s: State, s': State, id: Id) {
    && OwnCall(s.p, id) && s'.p.loops == s.p.loops && s'.p.calls == s.p.calls && s'.p.keepers == s.p.keepers
    && id in s'.p.tasks && s'.p.tasks == s.p.tasks[id := s'.p.tasks[id]]
    && Counted(s'.p.tasks[id].phase) == Counted(s.p.tasks[id].phase)
    && (Occupying(s'.p.tasks[id].phase) ==>
          Occupying(s.p.tasks[id].phase) ||
          |Busy(s.p.calls, s.p.tasks, s.p.calls[id].loop)| < s.p.loops[s.p.calls[id].loop].workers)
  }

  lemma RunsCount(s: State, s': State, id: Id)
    requires CountInv(s) && Runs(s, s', id)
    ensures CountInv(s')
  {
    MoveWorkers(s, id, s'.p.tasks[id]);
    MoveCounters(s, id, s'.p.tasks[id]);
  }

  lemma LockRuns(s: State, id: Id, outcome: Outcome)
    requires CanWork(s, id) && Locking(s.p.tasks[id].phase)
    ensures Runs(s, DoWork(s, id, outcome), id)
  {
  }

  lemma EarlyRuns(s: State, id: Id, outcome: Outcome)
    requires CanWork(s, id) && Early(s.p.tasks[id].phase)
    ensures Runs(s, DoWork(s, id, outcome), id)
  {
    if Locking(s.p.tasks[id].phase) {
      LockRuns(s, id, outcome);
    }
  }

  lemma LateRuns(s: State, id: Id, outcome: Outcome)
    requires CanWork(s, id) && !Early(s.p.tasks[id].phase) && !s.p.tasks[id].phase.Ending?
    ensures Runs(s, DoWork(s, id, outcome), id)
  {
  }

  lemma EndCount(s: State, id: Id)
    requires CountInv(s) && CanWork(s, id) && s.p.tasks[id].phase.Ending?
    ensures CountInv(WorkEnd(s, id))
  {
    var p, p' := s.p, WorkEnd(s, id).p;
    MoveWorkers(s, id, p'.tasks[id]);
    CountsMove(p.calls, p.tasks, p'.tasks, id);
  }

  lemma StartCount(s: State)
    requires StructureInv(s) && CountInv(s) && CanStart(s)
    ensures CountInv(DoStart(s))
  {
    var p, p', id := s.p, DoStart(s).p, s.p.pc.id;
    MoveWorkers(s, id, p'.tasks[id]);
    CountsMove(p.calls, p.tasks, p'.tasks, id);
  }

  lemma LaunchRuns(s: State)
    requires StructureInv(s) && CanLaunch(s)
    ensures Runs(s, DoLaunch(s), s.p.pc.id)
  {
  }

  /** A call that was just registered is in none of the sets. */
  lemma SpawnSets(p: Proc, id: Id, c: Call)
    requires id !in p.calls && id !in p.tasks
    ensures var calls, tasks := p.calls[id := c], p.tasks[id := Task(Unstarted, None)];
      && (forall l :: Tokens(calls, tasks, l) == Tokens(p.calls, p.tasks, l))
      && (forall l :: Borrowers(calls, tasks, l) == Borrowers(p.calls, p.tasks, l))
      && (forall l :: Busy(calls, tasks, l) == Busy(p.calls, p.tasks, l))
      && (forall l :: Swappers(calls, tasks, l) == Swappers(p.calls, p.tasks, l))
      && (forall l :: Writers(calls, tasks, l) == Writers(p.calls, p.tasks, l))
      && (forall l :: Releasers(calls, tasks, l) == Releasers(p.calls, p.tasks, l))
  {
  }

  lemma SpawnCount(s: State, f: Fiber, borrowing: bool)
    requires Shape(s.p) && CountInv(s) && Usable(s.p)
    ensures CountInv(DoSpawn(s, f, borrowing))
  {
    SpawnSets(s.p, s.p.nextId, Call(s.p.current.value, borrowing, f));
  }

  /** A new loop has no tasks. */
  lemma NoCalls(p: Proc, l: LoopId)
    requires Shape(p) && l !in p.loops
    ensures Tokens(p.calls, p.tasks, l) == {} && Borrowers(p.calls, p.tasks, l) == {} && Busy(p.calls, p.tasks, l) == {}
    ensures Writers(p.calls, p.tasks, l) == {} && Releasers(p.calls, p.tasks, l) == {}
  {
    assert forall id | id in p.calls :: p.calls[id].loop in p.loops;
  }

  lemma InitCount(s: State, owned: bool, l: LoopId, k: Sock, workers: nat, capacity: nat)
    requires StructureInv(s) && CountInv(s) && CanInit(s, l, k, workers, capacity)
    ensures CountInv(DoInit(s, owned, l, k, workers, capacity))
  {
    NoCalls(s.p, l);
  }

  lemma EntryCounts(s: State, step: Step)
    requires OuterEnabled(s, step) && Entry(step)
    ensures SameCounts(s, ApplyOuter(s, step))
  {
  }

  lemma CallerCounts(s: State, step: Step)
    requires OuterEnabled(s, step) && !Entry(step) && !step.Init? && !step.Spawn?
    ensures SameCounts(s, ApplyOuter(s, step))
  {
  }

  lemma CheckSlotCounts(s: State)
    requires CanCheckSlot(s)
    ensures SameCounts(s, DoTake(s)) && SameCounts(s, DoSleep(s))
  {
  }

  lemma SuspendCounts(s: State, step: Step)
    requires InnerEnabled(s, step) && (step.Suspend? || step.Unregister? || step.Return?)
    ensures SameCounts(s, ApplyInner(s, step))
  {
  }

  lemma CollectCounts(s: State, step: Step)
    requires InnerEnabled(s, step)
    requires step.DeadlinePasses? || step.Receive? || step.Read? || step.Rearm? || step.Collect?
    ensures SameCounts(s, ApplyInner(s, step))
  {
    if step.Receive? {
      if ReceiveEnds(s.p) {
      }
    } else if step.Collect? {
      if CollectEnds(s.p) {
      }
    }
  }

  lemma ShutdownCounts(s: State, step: Step)
    requires InnerEnabled(s, step)
    requires step.CheckBorrowing? || step.WakeSpuriously? || step.Release? || step.DropRuntime? || step.DropLoop?
    ensures SameCounts(s, ApplyInner(s, step))
  {
  }

  lemma InnerSameCounts(s: State, step: Step)
    requires InnerEnabled(s, step) && !step.Start? && !step.Launch?
    ensures SameCounts(s, ApplyInner(s, step))
  {
    if step.CheckSlot? {
      CheckSlotCounts(s);
    } else if step.Suspend? || step.Unregister? || step.Return? {
      SuspendCounts(s, step);
    } else if step.DeadlinePasses? || step.Receive? || step.Read? || step.Rearm? || step.Collect? {
      CollectCounts(s, step);
    } else {
      ShutdownCounts(s, step);
    }
  }

  lemma WorkCount(s: State, id: Id, outcome: Outcome)
    requires CountInv(s) && CanWork(s, id)
    ensures CountInv(DoWork(s, id, outcome))
  {
    if s.p.tasks[id].phase.Ending? {
      EndCount(s, id);
    } else {
      if Early(s.p.tasks[id].phase) {
        EarlyRuns(s, id, outcome);
      } else {
        LateRuns(s, id, outcome);
      }
      RunsCount(s, DoWork(s, id, outcome), id);
    }
  }

  lemma OuterCount(s: State, step: Step)
    requires StructureInv(s) && CountInv(s) && OuterEnabled(s, step)
    ensures CountInv(ApplyOuter(s, step))
  {
    if step.Init? {
      if Initializes(s.p, step.owned) {
        InitCount(s, step.owned, step.loop, step.socket, step.workers, step.capacity);
      }
    } else if step.Spawn? {
      if Usable(s.p) {
        SpawnCount(s, step.fiber, step.borrowing);
      }
    } else {
      if Entry(step) {
        EntryCounts(s, step);
      } else {
        CallerCounts(s, step);
      }
      SameCountsKeep(s, ApplyOuter(s, step));
    }
  }

  lemma StepKeepsCount(s: State, step: Step)
    requires StructureInv(s) && CountInv(s) && Enabled(s, step)
    ensures CountInv(Apply(s, step))
  {
    if step.Work? {
      WorkCount(s, step.id, step.outcome);
    } else if Outer(step) {
      OuterCount(s, step);
    } else if step.Start? {
      StartCount(s);
    } else if step.Launch? {
      LaunchRuns(s);
      RunsCount(s, DoLaunch(s), s.p.pc.id);
    } else {
      InnerSameCounts(s, step);
      SameCountsKeep(s, ApplyInner(s, step));
    }
  }

  // ----- Runtimes

  predicate Unreleased(pc: Pc) {
    pc.BorrowWaiting? || pc.ReleasingRuntime?
  }

  predicate InHands(pc: Pc) {
    pc.Dropping? && pc.runtime.Some?
  }

  /** `shutdown` neither takes nor drops a runtime. */
  predicate SameHands(pc: Pc, pc': Pc) {
    && (Unreleased(pc) <==> Unreleased(pc'))
    && (Unreleased(pc) ==> pc.loop == pc'.loop)
    && (InHands(pc) || InHands(pc') ==> pc' == pc)
  }

  /** No runtime moved. */
  ghost predicate SameRuntimes(s: State, s': State) {
    && s'.p.pid == s.p.pid && s'.p.loops == s.p.loops && s'.p.current == s.p.current && s'.p.calls == s.p.calls
    && s'.p.keepers == s.p.keepers && s'.p.released == s.p.released && SameHands(s.p.pc, s'.p.pc)
    && s'.p.tasks.Keys == s.p.tasks.Keys
    && forall id | id in s.p.tasks :: s'.p.tasks[id].phase.Releasing? || s.p.tasks[id].phase.Releasing? ==>
         s'.p.tasks[id].phase == s.p.tasks[id].phase
  }

  lemma SameReleasers(calls: Calls, tasks: TaskMap, tasks': TaskMap, l: LoopId)
    requires tasks'.Keys == tasks.Keys
    requires forall id | id in tasks :: tasks'[id].phase.Releasing? == tasks[id].phase.Releasing?
    ensures Releasers(calls, tasks', l) == Releasers(calls, tasks, l)
  {
    assert forall id :: id in tasks' <==> id in tasks;
    assert forall id :: id in Releasers(calls, tasks', l) <==> id in Releasers(calls, tasks, l);
  }

  lemma SameRuntimesKeep(s: State, s': State)
    requires RuntimesOk(s.p) && SameRuntimes(s, s')
    ensures RuntimesOk(s'.p)
  {
    forall l
      ensures Releasers(s'.p.calls, s'.p.tasks, l) == Releasers(s.p.calls, s.p.tasks, l)
    {
      SameReleasers(s.p.calls, s.p.tasks, s'.p.tasks, l);
    }
  }

  lemma EarlyRuntimes(s: State, id: Id, outcome: Outcome)
    requires CanWork(s, id) && Early(s.p.tasks[id].phase)
    ensures SameRuntimes(s, DoWork(s, id, outcome))
  {
  }

  lemma LateRuntimes(s: State, id: Id, outcome: Outcome)
    requires CanWork(s, id) && !Early(s.p.tasks[id].phase)
    requires !s.p.tasks[id].phase.Ending? && !s.p.tasks[id].phase.Releasing?
    ensures SameRuntimes(s, DoWork(s, id, outcome))
  {
  }

  /** The last task takes the parked runtime; until then it stays parked. */
  lemma EndRuntimes(s: State, id: Id)
    requires CountersOk(s.p.calls, s.p.tasks, s.p.keepers) && RuntimesOk(s.p)
    requires CanWork(s, id) && s.p.tasks[id].phase.Ending?
    ensures RuntimesOk(WorkEnd(s, id).p)
  {
    var p, p', here := s.p, WorkEnd(s, id).p, s.p.calls[id].loop;
    assert id in Tokens(p.calls, p.tasks, here);
    assert p'.tasks[id].phase.Releasing? ==> id in Releasers(p.calls, p'.tasks, here);
    CountsMove(p.calls, p.tasks, p'.tasks, id);
    SetsMove(p.calls, p.tasks, p'.tasks, id);
  }

  lemma ReleaseInBackgroundRuntimes(s: State, id: Id)
    requires RuntimesOk(s.p) && CanWork(s, id) && s.p.tasks[id].phase.Releasing?
    ensures RuntimesOk(WorkRelease(s, id).p)
  {
    var p, p' := s.p, WorkRelease(s, id).p;
    assert id in Releasers(p.calls, p.tasks, p.calls[id].loop);
    CountsMove(p.calls, p.tasks, p'.tasks, id);
    SetsMove(p.calls, p.tasks, p'.tasks, id);
  }

  lemma StartRuntimes(s: State)
    requires StructureInv(s) && RuntimesOk(s.p) && CanStart(s)
    ensures RuntimesOk(DoStart(s).p)
  {
    SetsMove(s.p.calls, s.p.tasks, DoStart(s).p.tasks, s.p.pc.id);
  }

  lemma LaunchRuntimes(s: State)
    requires StructureInv(s) && CanLaunch(s)
    ensures SameRuntimes(s, DoLaunch(s))
  {
  }

  lemma SpawnRuntimes(s: State, f: Fiber, borrowing: bool)
    requires Shape(s.p) && RuntimesOk(s.p) && s.p.pc.Idle? && Usable(s.p)
    ensures RuntimesOk(DoSpawn(s, f, borrowing).p)
  {
    SpawnSets(s.p, s.p.nextId, Call(s.p.current.value, borrowing, f));
  }

  lemma InitRuntimes(s: State, owned: bool, l: LoopId, k: Sock, workers: nat, capacity: nat)
    requires StructureInv(s) && RuntimesOk(s.p) && CanInit(s, l, k, workers, capacity) && Initializes(s.p, owned)
    ensures RuntimesOk(DoInit(s, owned, l, k, workers, capacity).p)
  {
    NoCalls(s.p, l);
  }

  lemma ShutdownRuntimes(s: State)
    requires StructureInv(s) && RuntimesOk(s.p) && s.p.pc.Idle?
    ensures RuntimesOk(DoShutdown(s).p)
  {
  }

  lemma ResumeRuntimes(s: State, step: Step)
    requires OuterEnabled(s, step)
    requires step.Wakeup? || step.Drain? || step.ResumeCall? || step.ForeignResume? || step.Free?
    ensures SameRuntimes(s, ApplyOuter(s, step))
  {
  }

  lemma RunRuntimes(s: State, step: Step)
    requires OuterEnabled(s, step) && (step.Continue? || step.Interrupt?)
    ensures SameRuntimes(s, ApplyOuter(s, step))
  {
  }

  lemma ReleaseRuntimes(s: State)
    requires StructureInv(s) && CountersOk(s.p.calls, s.p.tasks, s.p.keepers) && RuntimesOk(s.p) && CanRelease(s)
    ensures RuntimesOk(DoRelease(s).p)
  {
  }

  lemma DropRuntimeRuntimes(s: State)
    requires StructureInv(s) && RuntimesOk(s.p) && CanDropRuntime(s)
    ensures RuntimesOk(DoDropRuntime(s).p)
  {
  }

  lemma CheckSlotRuntimes(s: State)
    requires CanCheckSlot(s)
    ensures SameRuntimes(s, DoTake(s)) && SameRuntimes(s, DoSleep(s))
  {
  }

  lemma SuspendRuntimes(s: State, step: Step)
    requires InnerEnabled(s, step) && (step.Suspend? || step.Unregister? || step.Return?)
    ensures SameRuntimes(s, ApplyInner(s, step))
  {
  }

  lemma CollectRuntimes(s: State, step: Step)
    requires InnerEnabled(s, step)
    requires step.DeadlinePasses? || step.Receive? || step.Read? || step.Rearm? || step.Collect?
    ensures SameRuntimes(s, ApplyInner(s, step))
  {
    if step.Receive? {
      if ReceiveEnds(s.p) {
      }
    } else if step.Collect? {
      if CollectEnds(s.p) {
      }
    }
  }

  lemma WaitRuntimes(s: State, step: Step)
    requires InnerEnabled(s, step) && (step.CheckBorrowing? || step.WakeSpuriously? || step.DropLoop?)
    ensures SameRuntimes(s, ApplyInner(s, step))
  {
  }

  /** The steps that move runtimes, or count tasks. */
  predicate OnRuntimes(step: Step) {
    step.Start? || step.Release? || step.DropRuntime?
  }

  lemma InnerSameRuntimes(s: State, step: Step)
    requires StructureInv(s) && InnerEnabled(s, step) && !OnRuntimes(step)
    ensures SameRuntimes(s, ApplyInner(s, step))
  {
    if step.Launch? {
      LaunchRuntimes(s);
    } else if step.CheckSlot? {
      CheckSlotRuntimes(s);
    } else if step.Suspend? || step.Unregister? || step.Return? {
      SuspendRuntimes(s, step);
    } else if step.DeadlinePasses? || step.Receive? || step.Read? || step.Rearm? || step.Collect? {
      CollectRuntimes(s, step);
    } else {
      WaitRuntimes(s, step);
    }
  }

  lemma InnerRuntimes(s: State, step: Step)
    requires StructureInv(s) && CountersOk(s.p.calls, s.p.tasks, s.p.keepers) && RuntimesOk(s.p) && InnerEnabled(s, step)
    ensures RuntimesOk(ApplyInner(s, step).p)
  {
    if !OnRuntimes(step) {
      InnerSameRuntimes(s, step);
      SameRuntimesKeep(s, ApplyInner(s, step));
    } else if step.Start? {
      StartRuntimes(s);
    } else if step.Release? {
      ReleaseRuntimes(s);
    } else {
      DropRuntimeRuntimes(s);
    }
  }

  lemma OuterRuntimes(s: State, step: Step)
    requires StructureInv(s) && RuntimesOk(s.p) && OuterEnabled(s, step)
    ensures RuntimesOk(ApplyOuter(s, step).p)
  {
    if step.Init? {
      if Initializes(s.p, step.owned) {
        InitRuntimes(s, step.owned, step.loop, step.socket, step.workers, step.capacity);
      }
    } else if step.Spawn? {
      if Usable(s.p) {
        SpawnRuntimes(s, step.fiber, step.borrowing);
      }
    } else if step.Shutdown? {
      ShutdownRuntimes(s);
    } else {
      if step.Continue? || step.Interrupt? {
        RunRuntimes(s, step);
      } else {
        ResumeRuntimes(s, step);
      }
      SameRuntimesKeep(s, ApplyOuter(s, step));
    }
  }

  lemma WorkRuntimes(s: State, id: Id, outcome: Outcome)
    requires CountersOk(s.p.calls, s.p.tasks, s.p.keepers) && RuntimesOk(s.p) && CanWork(s, id)
    ensures RuntimesOk(DoWork(s, id, outcome).p)
  {
    if s.p.tasks[id].phase.Ending? {
      EndRuntimes(s, id);
    } else if s.p.tasks[id].phase.Releasing? {
      ReleaseInBackgroundRuntimes(s, id);
    } else {
      if Early(s.p.tasks[id].phase) {
        EarlyRuntimes(s, id, outcome);
      } else {
        LateRuntimes(s, id, outcome);
      }
      SameRuntimesKeep(s, DoWork(s, id, outcome));
    }
  }

  lemma StepKeepsRuntimes(s: State, step: Step)
    requires StructureInv(s) && CountersOk(s.p.calls, s.p.tasks, s.p.keepers) && RuntimesOk(s.p) && Enabled(s, step)
    ensures RuntimesOk(Apply(s, step).p)
  {
    if step.Work? {
      WorkRuntimes(s, step.id, step.outcome);
    } else if Outer(step) {
      OuterRuntimes(s, step);
    } else {
      InnerRuntimes(s, step);
    }
  }

  // ----- The flag and the bytes

  /** No step into, or out of, the parts of the wakeup sequence that the invariant mentions. */
  predicate SameStage(pc: Pc, pc': Pc) {
    (pc.Collecting? <==> pc'.Collecting?) && (pc.Rearming? <==> pc'.Rearming?) && (pc.Draining? ==> pc'.Draining?)
  }

  /** The wakeup protocol is where it was. */
  ghost predicate SameWakeup(s: State, s': State) {
    && s'.p.pid == s.p.pid && s'.p.loops == s.p.loops && s'.p.current == s.p.current && s'.p.calls == s.p.calls
    && s'.p.channels == s.p.channels && s'.p.flags == s.p.flags && s'.sockets == s.sockets
    && SameStage(s.p.pc, s'.p.pc) && s'.p.tasks.Keys == s.p.tasks.Keys
    && forall id | id in s.p.tasks ::
         && s'.p.tasks[id].phase.Swapping? == s.p.tasks[id].phase.Swapping?
         && s'.p.tasks[id].phase.Writing? == s.p.tasks[id].phase.Writing?
  }

  lemma SameSets(calls: Calls, tasks: TaskMap, tasks': TaskMap, l: LoopId)
    requires tasks'.Keys == tasks.Keys
    requires forall id | id in tasks ::
        tasks'[id].phase.Swapping? == tasks[id].phase.Swapping? && tasks'[id].phase.Writing? == tasks[id].phase.Writing?
    ensures Swappers(calls, tasks', l) == Swappers(calls, tasks, l) && Writers(calls, tasks', l) == Writers(calls, tasks, l)
  {
    assert forall id :: id in tasks' <==> id in tasks;
    assert forall id :: id in Swappers(calls, tasks', l) <==> id in Swappers(calls, tasks, l);
    assert forall id :: id in Writers(calls, tasks', l) <==> id in Writers(calls, tasks, l);
  }

  lemma SameWakeupKeeps(s: State, s': State)
    requires WakeupInv(s) && SameWakeup(s, s')
    ensures WakeupInv(s')
  {
    forall l
      ensures Swappers(s'.p.calls, s'.p.tasks, l) == Swappers(s.p.calls, s.p.tasks, l)
      ensures Writers(s'.p.calls, s'.p.tasks, l) == Writers(s.p.calls, s.p.tasks, l)
    {
      SameSets(s.p.calls, s.p.tasks, s'.p.tasks, l);
    }
  }

  lemma EarlyWakeup(s: State, id: Id, outcome: Outcome)
    requires CanWork(s, id) && Early(s.p.tasks[id].phase)
    ensures SameWakeup(s, DoWork(s, id, outcome))
  {
  }

  lemma LateWakeup(s: State, id: Id, outcome: Outcome)
    requires CanWork(s, id) && (s.p.tasks[id].phase.Ending? || s.p.tasks[id].phase.Releasing?)
    ensures SameWakeup(s, DoWork(s, id, outcome))
  {
  }

  /** Before the ID can be collected, its task is about to set the flag. */
  lemma SendWakeup(s: State, id: Id)
    requires WakeupInv(s) && CanWork(s, id) && s.p.tasks[id].phase.Sending?
    ensures WakeupInv(WorkSend(s, id))
  {
    var p, p' := s.p, WorkSend(s, id).p;
    assert id in Swappers(p.calls, p'.tasks, p.calls[id].loop);
    SetsMove(p.calls, p.tasks, p'.tasks, id);
  }

  /** The swap that sets the flag is followed by a write: a byte is in flight. */
  lemma SwapWakeup(s: State, id: Id)
    requires SocketInv(s) && WakeupInv(s) && CanWork(s, id) && s.p.tasks[id].phase.Swapping?
    ensures WakeupInv(WorkSwap(s, id))
  {
    var p, p', here := s.p, WorkSwap(s, id).p, s.p.calls[id].loop;
    assert !p.flags[here].pending ==> id in Writers(p.calls, p'.tasks, here);
    CountsMove(p.calls, p.tasks, p'.tasks, id);
    SetsMove(p.calls, p.tasks, p'.tasks, id);
  }

  /** The write turns a byte in flight into a byte in the socket: there is room for it. */
  lemma WriteWakeup(s: State, id: Id)
    requires SocketInv(s) && WorkersOk(s.p.loops, s.p.calls, s.p.tasks) && WakeupInv(s)
    requires CanWork(s, id) && s.p.tasks[id].phase.Writing?
    ensures WakeupInv(WorkWrite(s, id))
  {
    var p, p' := s.p, WorkWrite(s, id).p;
    assert id in Writers(p.calls, p.tasks, p.calls[id].loop);
    CountsMove(p.calls, p.tasks, p'.tasks, id);
    SetsMove(p.calls, p.tasks, p'.tasks, id);
  }

  lemma WorkWakeup(s: State, id: Id, outcome: Outcome)
    requires SocketInv(s) && WorkersOk(s.p.loops, s.p.calls, s.p.tasks) && WakeupInv(s) && CanWork(s, id)
    ensures WakeupInv(DoWork(s, id, outcome))
  {
    if s.p.tasks[id].phase.Sending? {
      SendWakeup(s, id);
    } else if s.p.tasks[id].phase.Swapping? {
      SwapWakeup(s, id);
    } else if s.p.tasks[id].phase.Writing? {
      WriteWakeup(s, id);
    } else {
      if Early(s.p.tasks[id].phase) {
        EarlyWakeup(s, id, outcome);
      } else {
        LateWakeup(s, id, outcome);
      }
      SameWakeupKeeps(s, DoWork(s, id, outcome));
    }
  }

  lemma InitWakeup(s: State, owned: bool, l: LoopId, k: Sock, workers: nat, capacity: nat)
    requires StructureInv(s) && SocketInv(s) && WakeupInv(s) && CanInit(s, l, k, workers, capacity) && Initializes(s.p, owned)
    ensures WakeupInv(DoInit(s, owned, l, k, workers, capacity))
  {
    NoCalls(s.p, l);
  }

  lemma SpawnWakeup(s: State, f: Fiber, borrowing: bool)
    requires StructureInv(s) && WakeupInv(s) && s.p.pc.Idle? && Usable(s.p)
    ensures WakeupInv(DoSpawn(s, f, borrowing))
  {
    SpawnSets(s.p, s.p.nextId, Call(s.p.current.value, borrowing, f));
  }

  lemma ShutdownWakeup(s: State)
    requires WakeupInv(s) && s.p.pc.Idle?
    ensures WakeupInv(DoShutdown(s))
  {
  }

  lemma ResumeWakeup(s: State, step: Step)
    requires StructureInv(s) && OuterEnabled(s, step)
    requires step.Wakeup? || step.Drain? || step.ResumeCall? || step.ForeignResume? || step.Free?
    ensures SameWakeup(s, ApplyOuter(s, step))
  {
  }

  lemma RunWakeup(s: State, step: Step)
    requires OuterEnabled(s, step) && (step.Continue? || step.Interrupt?)
    ensures SameWakeup(s, ApplyOuter(s, step))
  {
  }

  lemma OuterWakeup(s: State, step: Step)
    requires StructureInv(s) && SocketInv(s) && WakeupInv(s) && OuterEnabled(s, step)
    ensures WakeupInv(ApplyOuter(s, step))
  {
    if step.Init? {
      if Initializes(s.p, step.owned) {
        InitWakeup(s, step.owned, step.loop, step.socket, step.workers, step.capacity);
      }
    } else if step.Spawn? {
      if Usable(s.p) {
        SpawnWakeup(s, step.fiber, step.borrowing);
      }
    } else if step.Shutdown? {
      ShutdownWakeup(s);
    } else {
      if step.Continue? || step.Interrupt? {
        RunWakeup(s, step);
      } else {
        ResumeWakeup(s, step);
      }
      SameWakeupKeeps(s, ApplyOuter(s, step));
    }
  }

  lemma PopWakeup(s: State, pc: Pc)
    requires WakeupInv(s) && Usable(s.p) && s.p.channels[s.p.current.value].queue != []
    requires (s.p.pc.Receiving? && pc.Receiving?) || (s.p.pc.Collecting? && pc.Collecting?)
    ensures WakeupInv(Pop(s, pc))
  {
  }

  lemma ReadWakeup(s: State)
    requires SocketInv(s) && WakeupInv(s) && CanRead(s) && Readable(s)
    ensures WakeupInv(DoRead(s))
  {
  }

  /** The writes in flight straddle this drain. */
  lemma ReadNothingWakeup(s: State)
    requires WorkersOk(s.p.loops, s.p.calls, s.p.tasks) && WakeupInv(s) && StructureInv(s) && CanRead(s) && !Readable(s)
    ensures WakeupInv(DoReadNothing(s))
  {
    WritersAreBusy(s.p.calls, s.p.tasks, s.p.current.value);
  }

  lemma RearmWakeup(s: State)
    requires StructureInv(s) && WakeupInv(s) && CanRearm(s)
    ensures WakeupInv(DoRearm(s))
  {
  }

  lemma StopCollectingWakeup(s: State)
    requires WakeupInv(s) && CanCollect(s) && CollectEnds(s.p)
    ensures WakeupInv(DoStopCollecting(s))
  {
  }

  lemma ReceiveWakeup(s: State)
    requires StructureInv(s) && CanReceive(s)
    ensures SameWakeup(s, DoStopReceiving(s))
  {
  }

  lemma CollectingWakeup(s: State, step: Step)
    requires StructureInv(s) && SocketInv(s) && WorkersOk(s.p.loops, s.p.calls, s.p.tasks) && WakeupInv(s)
    requires InnerEnabled(s, step) && (step.Receive? || step.Read? || step.Rearm? || step.Collect?)
    ensures WakeupInv(ApplyInner(s, step))
  {
    if step.Receive? {
      if ReceiveEnds(s.p) {
        ReceiveWakeup(s);
        SameWakeupKeeps(s, DoStopReceiving(s));
      } else {
        PopWakeup(s, Receiving(Extended(s.p, s.p.pc.ready), s.p.pc.late));
      }
    } else if step.Read? {
      if Readable(s) {
        ReadWakeup(s);
      } else {
        ReadNothingWakeup(s);
      }
    } else if step.Rearm? {
      RearmWakeup(s);
    } else if CollectEnds(s.p) {
      StopCollectingWakeup(s);
    } else {
      PopWakeup(s, Collecting(Extended(s.p, s.p.pc.ready)));
    }
  }

  lemma DropLoopWakeup(s: State)
    requires WakeupInv(s) && CanDropLoop(s)
    ensures WakeupInv(DoDropLoop(s))
  {
  }

  lemma LaunchWakeup(s: State, step: Step)
    requires StructureInv(s) && InnerEnabled(s, step) && (step.Start? || step.Launch?)
    ensures SameWakeup(s, ApplyInner(s, step))
  {
  }

  lemma CheckSlotWakeup(s: State)
    requires CanCheckSlot(s)
    ensures SameWakeup(s, DoTake(s)) && SameWakeup(s, DoSleep(s))
  {
  }

  lemma SuspendWakeup(s: State, step: Step)
    requires InnerEnabled(s, step)
    requires step.Suspend? || step.Unregister? || step.Return? || step.DeadlinePasses?
    ensures SameWakeup(s, ApplyInner(s, step))
  {
  }

  lemma WaitWakeup(s: State, step: Step)
    requires InnerEnabled(s, step)
    requires step.CheckBorrowing? || step.WakeSpuriously? || step.Release? || step.DropRuntime?
    ensures SameWakeup(s, ApplyInner(s, step))
  {
  }

  /** The steps of the wakeup protocol. */
  predicate OnWakeup(step: Step) {
    step.Receive? || step.Read? || step.Rearm? || step.Collect?
  }

  lemma InnerSameWakeup(s: State, step: Step)
    requires StructureInv(s) && InnerEnabled(s, step) && !OnWakeup(step) && !step.DropLoop?
    ensures SameWakeup(s, ApplyInner(s, step))
  {
    if step.Start? || step.Launch? {
      LaunchWakeup(s, step);
    } else if step.CheckBorrowing? || step.WakeSpuriously? || step.Release? || step.DropRuntime? {
      WaitWakeup(s, step);
    } else if step.CheckSlot? {
      CheckSlotWakeup(s);
    } else {
      SuspendWakeup(s, step);
    }
  }

  lemma InnerWakeup(s: State, step: Step)
    requires StructureInv(s) && SocketInv(s) && WorkersOk(s.p.loops, s.p.calls, s.p.tasks) && WakeupInv(s)
    requires InnerEnabled(s, step)
    ensures WakeupInv(ApplyInner(s, step))
  {
    if OnWakeup(step) {
      CollectingWakeup(s, step);
    } else if step.DropLoop? {
      DropLoopWakeup(s);
    } else {
      InnerSameWakeup(s, step);
      SameWakeupKeeps(s, ApplyInner(s, step));
    }
  }

  lemma StepKeepsWakeup(s: State, step: Step)
    requires StructureInv(s) && SocketInv(s) && WorkersOk(s.p.loops, s.p.calls, s.p.tasks) && WakeupInv(s) && Enabled(s, step)
    ensures WakeupInv(Apply(s, step))
  {
    if step.Work? {
      WorkWakeup(s, step.id, step.outcome);
    } else if Outer(step) {
      OuterWakeup(s, step);
    } else {
      InnerWakeup(s, step);
    }
  }
}
