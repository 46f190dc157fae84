/** A caller that leaves `suspend` without having been resumed is not registered any more: nothing resumes it later. */
module Unlisted {
  import opened Basics
  import opened States
  import opened Steps
  import opened Invariant
  import opened KeepsStructure
  import opened Worlds
  import opened Theorems
  import opened Progress

  /** It could not suspend, or was interrupted: it left, or waits for its future. */
  predicate Unresumed(c: Caller) {
    || (c.Left? && !c.exit.Returned? && !c.exit.FuturePanicked?)
    || (c.Waiting? && (c.why.Unsuspended? || c.why.Interrupted?))
  }

  predicate Listed(p: Proc, id: Id) {
    StillRegistered(p.calls, p.suspensions, id)
  }

  /** A loop that PHP code can still use, or whose callers `shutdown` drops. */
  predicate Counts(p: Proc, l: LoopId) {
    p.current == Some(l) || (l in p.loops && p.loops[l].pid == p.pid)
  }

  /** Past `suspensions.remove(&id)`. */
  predicate Removed(pc: Pc, c: Caller, id: Id) {
    Unresumed(c) || (pc.Unregistered? && pc.id == id)
  }

  ghost predicate UnlistedOk(p: Proc) {
    && (forall id | id in p.calls && id in p.callers ::
          Removed(p.pc, p.callers[id], id) && Counts(p, p.calls[id].loop) ==> !Listed(p, id))
    && (forall id | id in p.callers && p.callers[id].Resumable? :: p.callers[id].wake.Handed? || p.callers[id].wake.Foreign?)
  }

  // ----- Every step keeps it

  /** What it depends on did not grow. */
  ghost predicate Fades(p: Proc, p': Proc) {
    && p'.pid == p.pid && p'.loops == p.loops && p'.calls == p.calls && p'.callers.Keys == p.callers.Keys
    && (p'.current == p.current || p'.current.None?)
    && p'.suspensions.Keys == p.suspensions.Keys
    && (forall l | l in p.suspensions :: p'.suspensions[l].Keys <= p.suspensions[l].Keys)
    && (forall id | id in p.callers ::
          && (Removed(p'.pc, p'.callers[id], id) ==> Removed(p.pc, p.callers[id], id))
          && (p'.callers[id].Resumable? ==>
                p'.callers[id] == p.callers[id] || p'.callers[id].wake.Handed? || p'.callers[id].wake.Foreign?))
  }

  lemma FadesKeeps(p: Proc, p': Proc)
    requires UnlistedOk(p) && Fades(p, p')
    ensures UnlistedOk(p')
  {
    forall id | id in p'.calls && id in p'.callers && Removed(p'.pc, p'.callers[id], id) && Counts(p', p'.calls[id].loop)
      ensures !Listed(p', id)
    {
      assert Removed(p.pc, p.callers[id], id) && Counts(p, p.calls[id].loop);
      assert !Listed(p, id);
    }
  }

  lemma WorkFades(s: State, id: Id, outcome: Outcome)
    requires CanWork(s, id)
    ensures Fades(s.p, DoWork(s, id, outcome).p)
  {
    if Early(s.p.tasks[id].phase) {
      EarlyMoves(s, id, outcome);
    } else {
      LateMoves(s, id, outcome);
    }
  }

  lemma PopFades(s: State, pc: Pc)
    requires StructureInv(s) && Usable(s.p) && s.p.channels[s.p.current.value].queue != [] && !pc.Unregistered?
    ensures Fades(s.p, Pop(s, pc).p)
  {
  }

  lemma CollectFades(s: State, step: Step)
    requires InnerEnabled(s, step) && Collects(step) && StructureInv(s)
    ensures Fades(s.p, ApplyInner(s, step).p)
  {
    if step.Receive? && !ReceiveEnds(s.p) {
      PopFades(s, Receiving(Extended(s.p, s.p.pc.ready), s.p.pc.late));
    } else if step.Collect? && !CollectEnds(s.p) {
      PopFades(s, Collecting(Extended(s.p, s.p.pc.ready)));
    } else if step.Read? {
      if Readable(s) {
      }
    }
  }

  lemma StartFades(s: State, step: Step)
    requires InnerEnabled(s, step) && (step.Start? || step.Launch? || step.Suspend?) && StructureInv(s)
    ensures Fades(s.p, ApplyInner(s, step).p)
  {
  }

  lemma TakeFades(s: State)
    requires CanCheckSlot(s) && StructureInv(s)
    ensures Fades(s.p, DoTake(s).p)
  {
  }

  lemma WaitFades(s: State, step: Step)
    requires InnerEnabled(s, step) && !Collects(step) && !Suspends(step) && !step.CheckSlot? && StructureInv(s)
    ensures Fades(s.p, ApplyInner(s, step).p)
  {
  }

  lemma EntryFades(s: State, step: Step)
    requires OuterEnabled(s, step) && StructureInv(s) && (step.Wakeup? || step.Drain? || step.Shutdown?)
    ensures Fades(s.p, ApplyOuter(s, step).p)
  {
  }

  lemma ResumeFades(s: State, step: Step)
    requires OuterEnabled(s, step) && StructureInv(s) && (step.ResumeCall? || step.ForeignResume?)
    ensures Fades(s.p, ApplyOuter(s, step).p)
  {
  }

  lemma InterruptFades(s: State, step: Step)
    requires OuterEnabled(s, step) && StructureInv(s) && (step.Interrupt? || step.Free?)
    ensures Fades(s.p, ApplyOuter(s, step).p)
  {
  }

  /** Whoever goes on was resumed, by its own `resume` call or by someone else. */
  lemma ContinueFades(s: State, id: Id)
    requires CanContinue(s, id) && UnlistedOk(s.p)
    ensures Fades(s.p, DoContinue(s, id).p)
  {
  }

  lemma InitUnlisted(s: State, step: Step)
    requires StructureInv(s) && UnlistedOk(s.p) && OuterEnabled(s, step) && step.Init?
    ensures UnlistedOk(ApplyOuter(s, step).p)
  {
    assert forall id | id in s.p.calls :: s.p.calls[id].loop in s.p.loops;
  }

  lemma SpawnUnlisted(s: State, f: Fiber, borrowing: bool)
    requires StructureInv(s) && UnlistedOk(s.p) && s.p.pc.Idle? && Usable(s.p)
    ensures UnlistedOk(DoSpawn(s, f, borrowing).p)
  {
    assert s.p.nextId !in s.p.calls;
  }

  /** It removes the ID from the loop of EVENTLOOP; another loop of this process was shut down, and holds nothing. */
  lemma UnregisterUnlisted(s: State)
    requires StructureInv(s) && RegistryInv(s) && UnlistedOk(s.p) && CanUnregister(s)
    ensures UnlistedOk(DoUnregister(s).p)
  {
    var id := s.p.pc.id;
    var l := s.p.calls[id].loop;
    if s.p.current != Some(l) && s.p.loops[l].pid == s.p.pid {
      assert l in Own(s.p.pid, s.p.loops);
      assert s.p.suspensions[l] == NOBODY;
    }
  }

  lemma ReturnUnlisted(s: State)
    requires StructureInv(s) && UnlistedOk(s.p) && CanReturn(s)
    ensures UnlistedOk(DoReturn(s).p)
  {
  }

  lemma OuterUnlisted(s: State, step: Step)
    requires StructureInv(s) && UnlistedOk(s.p) && OuterEnabled(s, step)
    ensures UnlistedOk(ApplyOuter(s, step).p)
  {
    if step.Init? {
      InitUnlisted(s, step);
    } else if step.Spawn? {
      if Usable(s.p) {
        SpawnUnlisted(s, step.fiber, step.borrowing);
      }
    } else {
      if step.Continue? {
        ContinueFades(s, step.id);
      } else if step.Wakeup? || step.Drain? || step.Shutdown? {
        EntryFades(s, step);
      } else if step.Interrupt? || step.Free? {
        InterruptFades(s, step);
      } else {
        ResumeFades(s, step);
      }
      FadesKeeps(s.p, ApplyOuter(s, step).p);
    }
  }

  lemma CheckSlotUnlisted(s: State)
    requires StructureInv(s) && UnlistedOk(s.p) && CanCheckSlot(s)
    ensures UnlistedOk(DoCheckSlot(s).p)
  {
    TakeFades(s);
    FadesKeeps(s.p, DoTake(s).p);
    assert Fades(s.p, DoSleep(s).p);
    FadesKeeps(s.p, DoSleep(s).p);
    assert DoCheckSlot(s) == DoSleep(s) || DoCheckSlot(s) == DoTake(s);
  }

  lemma InnerUnlisted(s: State, step: Step)
    requires StructureInv(s) && RegistryInv(s) && UnlistedOk(s.p) && InnerEnabled(s, step)
    ensures UnlistedOk(ApplyInner(s, step).p)
  {
    if step.Unregister? {
      UnregisterUnlisted(s);
    } else if step.Return? {
      ReturnUnlisted(s);
    } else if step.CheckSlot? {
      CheckSlotUnlisted(s);
    } else {
      if Collects(step) {
        CollectFades(s, step);
      } else if Suspends(step) {
        StartFades(s, step);
      } else {
        WaitFades(s, step);
      }
      FadesKeeps(s.p, ApplyInner(s, step).p);
    }
  }

  lemma StepKeepsUnlisted(s: State, step: Step)
    requires StructureInv(s) && RegistryInv(s) && UnlistedOk(s.p) && Enabled(s, step)
    ensures UnlistedOk(Apply(s, step).p)
  {
    if step.Work? {
      WorkFades(s, step.id, step.outcome);
      FadesKeeps(s.p, DoWork(s, step.id, step.outcome).p);
    } else if Outer(step) {
      OuterUnlisted(s, step);
    } else {
      InnerUnlisted(s, step);
    }
  }

  // ----- Runs

  /** The child owns none of the loops. */
  lemma ForkUnlisted(p: Proc, child: Pid)
    requires UnlistedOk(p) && Inherits(p, child)
    ensures UnlistedOk(p.(pid := child))
  {
    forall id | id in p.calls && id in p.callers && Removed(p.pc, p.callers[id], id)
        && Counts(p.(pid := child), p.calls[id].loop)
      ensures !Listed(p.(pid := child), id)
    {
      assert Counts(p, p.calls[id].loop);
    }
  }

  lemma AlwaysUnlisted(w: World, pid: Pid)
    requires In(w, pid)
    ensures UnlistedOk(w.procs[pid])
  {
    forall s, step | Inv(s) && UnlistedOk(s.p) && Enabled(s, step)
      ensures UnlistedOk(Apply(s, step).p)
    {
      StepKeepsUnlisted(s, step);
    }
    forall p, child | UnlistedOk(p) && Inherits(p, child)
      ensures UnlistedOk(p.(pid := child))
    {
      ForkUnlisted(p, child);
    }
    Everywhere(UnlistedOk, w, pid);
  }

  /** A caller that was not resumed is in `suspensions` no more, neither of the loop of EVENTLOOP, be it inherited, nor of a
      loop of its process. */
  lemma UnresumedUnlisted(w: World, pid: Pid, id: Id)
    requires In(w, pid) && id in w.procs[pid].calls && id in w.procs[pid].callers && Unresumed(w.procs[pid].callers[id])
    ensures var p := w.procs[pid];
      var l := p.calls[id].loop;
      && (p.current.Some? && p.current.value in p.suspensions ==> id !in p.suspensions[p.current.value])
      && (l in p.loops && p.loops[l].pid == pid ==> forall m | m in p.suspensions :: id !in p.suspensions[m])
  {
    StructureIn(w, pid);
    RegistryIn(w, pid);
    AlwaysUnlisted(w, pid);
    var p := w.procs[pid];
    forall m | m in p.suspensions && (p.current == Some(m) || p.loops[p.calls[id].loop].pid == pid)
      ensures id !in p.suspensions[m]
    {
      if id in p.suspensions[m] {
        assert p.calls[id].loop == m;
        assert Counts(p, m) && Listed(p, id);
      }
    }
  }
}
