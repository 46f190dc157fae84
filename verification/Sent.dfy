/** The channel of a loop in use carried, or carries, the ID of each task that sent it, and no other. */
module SentIds {
  import opened Basics
  import opened States
  import opened Steps
  import opened Invariant
  import opened KeepsStructure
  import opened Worlds
  import opened Theorems
  import opened Progress

  ghost predicate SentOk(p: Proc) {
    forall id | id in p.calls && id in p.tasks && p.calls[id].loop in p.channels ::
      Sent(p.tasks[id].phase) && p.channels[p.calls[id].loop].receiving ==> id in Accepted(p.channels[p.calls[id].loop])
  }

  /** A channel only moves on; once closed, it stays as it is. */
  predicate MovesOn(c: Channel, c': Channel) {
    && (c.receiving ==> forall id | id in Accepted(c) :: id in Accepted(c'))
    && (!c.receiving ==> c' == c)
  }

  // ----- Every step keeps it

  /** No task sent, and no channel lost an ID. */
  ghost predicate NoneSent(p: Proc, p': Proc) {
    && p'.calls == p.calls && p'.tasks.Keys == p.tasks.Keys && p'.channels.Keys == p.channels.Keys
    && (forall id | id in p.tasks && Sent(p'.tasks[id].phase) :: Sent(p.tasks[id].phase))
    && (forall l | l in p.channels :: MovesOn(p.channels[l], p'.channels[l]))
  }

  lemma NoneSentKeeps(p: Proc, p': Proc)
    requires SentOk(p) && NoneSent(p, p')
    ensures SentOk(p')
  {
  }

  lemma EarlySends(s: State, id: Id, outcome: Outcome)
    requires CanWork(s, id) && Early(s.p.tasks[id].phase)
    ensures NoneSent(s.p, DoWork(s, id, outcome).p)
  {
    EarlyMoves(s, id, outcome);
    WorkLowersRank(s, id, outcome);
  }

  lemma LateSends(s: State, id: Id, outcome: Outcome)
    requires CanWork(s, id) && !Early(s.p.tasks[id].phase) && !s.p.tasks[id].phase.Sending?
    ensures NoneSent(s.p, DoWork(s, id, outcome).p)
  {
    LateMoves(s, id, outcome);
    WorkLowersRank(s, id, outcome);
  }

  lemma SendSent(s: State, id: Id)
    requires CanWork(s, id) && s.p.tasks[id].phase.Sending? && SentOk(s.p)
    ensures SentOk(WorkSend(s, id).p)
    ensures forall l | l in s.p.channels :: MovesOn(s.p.channels[l], WorkSend(s, id).p.channels[l])
  {
  }

  lemma PopSends(s: State, pc: Pc)
    requires Usable(s.p) && s.p.channels[s.p.current.value].queue != [] && s.p.channels[s.p.current.value].receiving
    ensures NoneSent(s.p, Pop(s, pc).p)
  {
    var c := s.p.channels[s.p.current.value];
    assert c.queue == [c.queue[0]] + c.queue[1..];
  }

  lemma CollectSends(s: State, step: Step)
    requires StructureInv(s) && RegistryInv(s) && InnerEnabled(s, step) && Collects(step)
    ensures NoneSent(s.p, ApplyInner(s, step).p)
  {
    assert Usable(s.p) ==> s.p.current.value in Own(s.p.pid, s.p.loops);
    if step.Receive? && !ReceiveEnds(s.p) {
      PopSends(s, Receiving(Extended(s.p, s.p.pc.ready), s.p.pc.late));
    } else if step.Collect? && !CollectEnds(s.p) {
      PopSends(s, Collecting(Extended(s.p, s.p.pc.ready)));
    } else if step.Read? {
      if Readable(s) {
      }
    }
  }

  lemma LaunchSends(s: State, step: Step)
    requires InnerEnabled(s, step) && (step.Start? || step.Launch?)
    ensures NoneSent(s.p, ApplyInner(s, step).p)
  {
  }

  lemma SuspendSends(s: State, step: Step)
    requires InnerEnabled(s, step) && Suspends(step)
    ensures NoneSent(s.p, ApplyInner(s, step).p)
  {
    if step.Start? || step.Launch? {
      LaunchSends(s, step);
    }
  }

  lemma TakeSends(s: State)
    requires CanCheckSlot(s)
    ensures NoneSent(s.p, DoTake(s).p)
  {
  }

  lemma CheckSlotSends(s: State)
    requires CanCheckSlot(s)
    ensures NoneSent(s.p, DoCheckSlot(s).p)
  {
    TakeSends(s);
    assert DoCheckSlot(s) == DoSleep(s) || DoCheckSlot(s) == DoTake(s);
  }

  lemma WaitSends(s: State, step: Step)
    requires InnerEnabled(s, step) && !Collects(step) && !Suspends(step) && !step.CheckSlot? && !step.DropLoop?
    ensures NoneSent(s.p, ApplyInner(s, step).p)
  {
  }

  lemma DropLoopSends(s: State)
    requires RegistryInv(s) && StructureInv(s) && SentOk(s.p) && CanDropLoop(s)
    ensures SentOk(DoDropLoop(s).p)
    ensures forall l | l in s.p.channels :: MovesOn(s.p.channels[l], DoDropLoop(s).p.channels[l])
  {
    assert s.p.pc.loop in Own(s.p.pid, s.p.loops);
  }

  lemma InitSent(s: State, step: Step)
    requires StructureInv(s) && SentOk(s.p) && OuterEnabled(s, step) && step.Init?
    ensures SentOk(ApplyOuter(s, step).p)
    ensures forall l | l in s.p.channels ::
        l in ApplyOuter(s, step).p.channels && MovesOn(s.p.channels[l], ApplyOuter(s, step).p.channels[l])
  {
    assert forall id | id in s.p.calls :: s.p.calls[id].loop in s.p.loops;
  }

  lemma SpawnSent(s: State, f: Fiber, borrowing: bool)
    requires StructureInv(s) && SentOk(s.p) && Usable(s.p)
    ensures SentOk(DoSpawn(s, f, borrowing).p) && DoSpawn(s, f, borrowing).p.channels == s.p.channels
  {
    assert s.p.nextId !in s.p.calls;
  }

  lemma CallerSends(s: State, step: Step)
    requires OuterEnabled(s, step) && !step.Init? && !step.Spawn?
    ensures NoneSent(s.p, ApplyOuter(s, step).p)
  {
  }

  ghost predicate SentOn(p: Proc, p': Proc) {
    && SentOk(p')
    && forall l | l in p.channels :: l in p'.channels && MovesOn(p.channels[l], p'.channels[l])
  }

  lemma NoneSentOn(p: Proc, p': Proc)
    requires SentOk(p) && NoneSent(p, p')
    ensures SentOn(p, p')
  {
    NoneSentKeeps(p, p');
  }

  lemma WorkSent(s: State, id: Id, outcome: Outcome)
    requires SentOk(s.p) && CanWork(s, id)
    ensures SentOn(s.p, DoWork(s, id, outcome).p)
  {
    if s.p.tasks[id].phase.Sending? {
      SendSent(s, id);
    } else {
      if Early(s.p.tasks[id].phase) {
        EarlySends(s, id, outcome);
      } else {
        LateSends(s, id, outcome);
      }
      NoneSentOn(s.p, DoWork(s, id, outcome).p);
    }
  }

  lemma OuterSent(s: State, step: Step)
    requires StructureInv(s) && SentOk(s.p) && OuterEnabled(s, step)
    ensures SentOn(s.p, ApplyOuter(s, step).p)
  {
    if step.Init? {
      InitSent(s, step);
    } else if step.Spawn? {
      if Usable(s.p) {
        SpawnSent(s, step.fiber, step.borrowing);
      }
    } else {
      CallerSends(s, step);
      NoneSentOn(s.p, ApplyOuter(s, step).p);
    }
  }

  lemma InnerSent(s: State, step: Step)
    requires StructureInv(s) && RegistryInv(s) && SentOk(s.p) && InnerEnabled(s, step)
    ensures SentOn(s.p, ApplyInner(s, step).p)
  {
    if step.DropLoop? {
      DropLoopSends(s);
    } else {
      if Collects(step) {
        CollectSends(s, step);
      } else if Suspends(step) {
        SuspendSends(s, step);
      } else if step.CheckSlot? {
        CheckSlotSends(s);
      } else {
        WaitSends(s, step);
      }
      NoneSentOn(s.p, ApplyInner(s, step).p);
    }
  }

  lemma StepKeepsSent(s: State, step: Step)
    requires StructureInv(s) && RegistryInv(s) && SentOk(s.p) && Enabled(s, step)
    ensures SentOn(s.p, Apply(s, step).p)
  {
    if step.Work? {
      WorkSent(s, step.id, step.outcome);
    } else if Outer(step) {
      OuterSent(s, step);
    } else {
      InnerSent(s, step);
    }
  }

  // ----- Runs

  lemma AlwaysSent(w: World, pid: Pid)
    requires In(w, pid)
    ensures SentOk(w.procs[pid])
  {
    forall s, step | Inv(s) && SentOk(s.p) && Enabled(s, step)
      ensures SentOk(Apply(s, step).p)
    {
      StepKeepsSent(s, step);
    }
    Everywhere(SentOk, w, pid);
  }

  /** Of a loop that receives: an ID was received, or is in the queue, if, and only if, its task sent it; each once. */
  lemma SentIsAccepted(w: World, pid: Pid, l: LoopId)
    requires In(w, pid) && l in w.procs[pid].channels && w.procs[pid].channels[l].receiving
    ensures var p := w.procs[pid];
      && Distinct(Accepted(p.channels[l]))
      && forall id :: id in Accepted(p.channels[l]) <==>
           id in p.calls && id in p.tasks && p.calls[id].loop == l && Sent(p.tasks[id].phase)
  {
    RegistryIn(w, pid);
    AlwaysSent(w, pid);
  }

  /** A channel loses no ID; one that `shutdown` closed does not change any more. */
  lemma ChannelsMoveOn(w: World, pid: Pid, step: Step, l: LoopId)
    requires In(w, pid) && Enabled(At(w, pid), step) && l in w.procs[pid].channels
    ensures l in Apply(At(w, pid), step).p.channels
    ensures MovesOn(w.procs[pid].channels[l], Apply(At(w, pid), step).p.channels[l])
  {
    StructureIn(w, pid);
    RegistryIn(w, pid);
    AlwaysSent(w, pid);
    StepKeepsSent(At(w, pid), step);
  }
}
