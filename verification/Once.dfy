/** Each caller is collected once, and resumed at most once for it. */
module Once {
  import opened Basics
  import opened States
  import opened Steps
  import opened Invariant
  import opened KeepsStructure
  import opened KeepsHandover
  import opened Worlds

  /** Collected, and in no ready list any more. */
  predicate Spent(p: Proc, id: Id) {
    id in p.collected && id !in p.toResume && id !in Ready(p.pc)
  }

  lemma SpentSame(s: State, s': State, id: Id)
    requires SameFates(s, s') && Spent(s.p, id)
    ensures Spent(s'.p, id)
  {
  }

  lemma SpentWork(s: State, work: Id, outcome: Outcome, id: Id)
    requires CanWork(s, work) && Spent(s.p, id)
    ensures Spent(DoWork(s, work, outcome).p, id)
  {
    if Early(s.p.tasks[work].phase) {
      EarlyFates(s, work, outcome);
    } else {
      LateFates(s, work, outcome);
    }
    SpentSame(s, DoWork(s, work, outcome), id);
  }

  lemma SpentEntry(s: State, step: Step, id: Id)
    requires OuterEnabled(s, step) && (step.Init? || step.Spawn?) && Spent(s.p, id)
    ensures Spent(ApplyOuter(s, step).p, id)
  {
  }

  lemma SpentOuter(s: State, step: Step, id: Id)
    requires OuterEnabled(s, step) && Spent(s.p, id)
    ensures Spent(ApplyOuter(s, step).p, id)
  {
    if step.Init? || step.Spawn? {
      SpentEntry(s, step, id);
    } else {
      if Entry(step) {
        EntryFates(s, step);
      } else if step.Continue? || step.Interrupt? {
        RunFates(s, step);
      } else {
        ResumeFates(s, step);
      }
      SpentSame(s, ApplyOuter(s, step), id);
    }
  }

  /** What is received and registered was not collected before. */
  lemma SpentPop(s: State, pc: Pc, id: Id)
    requires RegistryInv(s) && FateInv(s) && Usable(s.p) && s.p.channels[s.p.current.value].queue != []
    requires Ready(pc) == Extended(s.p, Ready(s.p.pc)) && Spent(s.p, id)
    ensures Spent(Pop(s, pc).p, id)
  {
    var l := s.p.current.value;
    var first := s.p.channels[l].queue[0];
    if first in s.p.suspensions[l] {
      assert StillRegistered(s.p.calls, s.p.suspensions, first);
      assert first !in s.p.collected;
    }
  }

  lemma SpentUnlists(s: State, step: Step, id: Id)
    requires InnerEnabled(s, step) && (step.Unregister? || step.DropLoop?) && Spent(s.p, id)
    ensures Spent(ApplyInner(s, step).p, id)
  {
  }

  lemma SpentInner(s: State, step: Step, id: Id)
    requires StructureInv(s) && RegistryInv(s) && FateInv(s) && InnerEnabled(s, step) && Spent(s.p, id)
    ensures Spent(ApplyInner(s, step).p, id)
  {
    if step.Unregister? || step.DropLoop? {
      SpentUnlists(s, step, id);
    } else if step.Receive? && !ReceiveEnds(s.p) {
      SpentPop(s, Receiving(Extended(s.p, s.p.pc.ready), s.p.pc.late), id);
    } else if step.Collect? && !CollectEnds(s.p) {
      SpentPop(s, Collecting(Extended(s.p, s.p.pc.ready)), id);
    } else {
      InnerSameFates(s, step);
      SpentSame(s, ApplyInner(s, step), id);
    }
  }

  lemma SpentStays(s: State, step: Step, id: Id)
    requires StructureInv(s) && RegistryInv(s) && FateInv(s) && Enabled(s, step) && Spent(s.p, id)
    ensures Spent(Apply(s, step).p, id)
  {
    if step.Work? {
      SpentWork(s, step.id, step.outcome, id);
    } else if Outer(step) {
      SpentOuter(s, step, id);
    } else {
      SpentInner(s, step, id);
    }
  }

  lemma ResumeSpends(s: State, id: Id, target: Option<Id>)
    requires FateInv(s) && CanResume(s, id, target)
    ensures Spent(DoResumeCall(s, id, target).p, id)
  {
  }

  // ----- Runs

  ghost predicate SpentIn(w: World, pid: Pid, id: Id) {
    WorldInv(w) && pid in w.procs && Spent(w.procs[pid], id)
  }

  lemma FatesThere(w: World, pid: Pid)
    requires WorldInv(w) && pid in w.procs
    ensures StructureInv(At(w, pid)) && RegistryInv(At(w, pid)) && FateInv(At(w, pid))
  {
    assert Inv(State(w.procs[pid], w.sockets));
  }

  lemma SpentNext(w: World, w': World, pid: Pid, id: Id)
    requires pid in w.procs && StructureInv(At(w, pid)) && RegistryInv(At(w, pid)) && FateInv(At(w, pid))
    requires Spent(w.procs[pid], id) && WorldNext(w, w')
    ensures pid in w'.procs && Spent(w'.procs[pid], id)
  {
    var step :| WorldEnabled(w, step) && w' == WorldApply(w, step);
    if step.Local? && step.pid == pid {
      SpentStays(At(w, pid), step.step, id);
    }
  }

  lemma SpentInStays(w: World, w': World, pid: Pid, id: Id)
    requires SpentIn(w, pid, id) && WorldNext(w, w')
    ensures SpentIn(w', pid, id)
  {
    NextKeepsInv(w, w');
    FatesThere(w, pid);
    SpentNext(w, w', pid, id);
  }

  predicate Resumes(step: WorldStep, pid: Pid, id: Id) {
    step.Local? && step.pid == pid && step.step.ResumeCall? && step.step.id == id
  }

  lemma ResumesSpend(w: World, step: WorldStep, pid: Pid, id: Id)
    requires WorldEnabled(w, step) && Resumes(step, pid, id) && FateInv(At(w, pid))
    ensures pid in WorldApply(w, step).procs && Spent(WorldApply(w, step).procs[pid], id)
  {
    ResumeSpends(At(w, pid), id, step.step.target);
  }

  lemma SpentNotResumed(w: World, step: WorldStep, pid: Pid, id: Id)
    requires pid in w.procs && Spent(w.procs[pid], id) && WorldEnabled(w, step)
    ensures !Resumes(step, pid, id)
  {
  }

  lemma SpentFrom(ws: seq<World>, pid: Pid, id: Id, i: nat, j: nat)
    requires i <= j < |ws| && SpentIn(ws[i], pid, id)
    requires forall k :: 0 <= k < |ws| - 1 ==> WorldNext(ws[k], ws[k + 1])
    ensures SpentIn(ws[j], pid, id)
  {
    forall w, w' | SpentIn(w, pid, id) && WorldNext(w, w')
      ensures SpentIn(w', pid, id)
    {
      SpentInStays(w, w', pid, id);
    }
    Between(ws, WorldNext, w => SpentIn(w, pid, id), i, j);
  }

  lemma SpentAfter(w: World, step: WorldStep, pid: Pid, id: Id)
    requires WorldInv(w) && WorldEnabled(w, step) && Resumes(step, pid, id)
    ensures SpentIn(WorldApply(w, step), pid, id)
  {
    WorldStepKeepsInv(w, step);
    FatesThere(w, pid);
    ResumesSpend(w, step, pid, id);
  }

  lemma SpentThere(w: World, pid: Pid, id: Id)
    requires SpentIn(w, pid, id)
    ensures pid in w.procs && Spent(w.procs[pid], id)
  {
  }

  /** In any run, an ID gets at most one `resume` call of its process. */
  lemma ResumedOnce(ws: seq<World>, steps: seq<WorldStep>, pid: Pid, id: Id, i: nat, j: nat)
    requires Follows(ws, steps) && Initial(ws[0], DrainFirst) && i < j < |steps| && Resumes(steps[i], pid, id)
    ensures !Resumes(steps[j], pid, id)
  {
    FollowsNext(ws, steps);
    RunKeepsInv(ws[..i + 1]);
    assert ws[i + 1] == WorldApply(ws[i], steps[i]);
    SpentAfter(ws[i], steps[i], pid, id);
    SpentFrom(ws, pid, id, i + 1, j);
    SpentThere(ws[j], pid, id);
    SpentNotResumed(ws[j], steps[j], pid, id);
  }
}
