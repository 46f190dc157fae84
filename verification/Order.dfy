/** Why `wakeup` drains the socket before it clears the flag. */
module Orders {
  import opened Basics
  import opened States
  import opened Steps
  import opened Worlds
  import opened Theorems

  /** The flag is set, with nothing in the socket and no write in flight, and PHP is not about to clear it. */
  ghost predicate Stuck(s: State, l: LoopId) {
    && l in s.p.loops && l in s.p.flags && s.p.loops[l].pid == s.p.pid && s.p.loops[l].socket in s.sockets
    && Outside(s.p.pc)
    && s.p.flags[l].pending && s.sockets[s.p.loops[l].socket] == 0 && Writers(s.p.calls, s.p.tasks, l) == {}
    && s.p.tasks.Keys == s.p.calls.Keys && (forall id | id in s.p.calls :: id < s.p.nextId)
    && forall m | m in s.p.loops && m != l && s.p.loops[m].pid == s.p.pid :: s.p.loops[m].socket != s.p.loops[l].socket
  }

  lemma StuckWork(s: State, id: Id, outcome: Outcome, l: LoopId)
    requires Stuck(s, l) && CanWork(s, id)
    ensures Stuck(DoWork(s, id, outcome), l)
  {
    assert id !in Writers(s.p.calls, s.p.tasks, l);
  }

  lemma StuckOuter(s: State, step: Step, l: LoopId)
    requires Stuck(s, l) && OuterEnabled(s, step) && !step.Init? && !step.Spawn? && !step.Wakeup? && !step.Drain?
    ensures Stuck(ApplyOuter(s, step), l)
  {
  }

  lemma StuckInit(s: State, step: Step, l: LoopId)
    requires Stuck(s, l) && OuterEnabled(s, step) && step.Init?
    ensures Stuck(ApplyOuter(s, step), l)
  {
  }

  lemma StuckSpawn(s: State, step: Step, l: LoopId)
    requires Stuck(s, l) && OuterEnabled(s, step) && step.Spawn?
    ensures Stuck(ApplyOuter(s, step), l)
  {
    var p' := ApplyOuter(s, step).p;
    assert forall id :: id in Writers(p'.calls, p'.tasks, l) ==> id in Writers(s.p.calls, s.p.tasks, l);
  }

  lemma StuckSuspend(s: State, step: Step, l: LoopId)
    requires Stuck(s, l) && InnerEnabled(s, step) && Suspends(step)
    ensures Stuck(ApplyInner(s, step), l)
  {
  }

  lemma StuckTake(s: State, l: LoopId)
    requires Stuck(s, l) && CanCheckSlot(s)
    ensures Stuck(DoCheckSlot(s), l)
  {
  }

  lemma StuckInner(s: State, step: Step, l: LoopId)
    requires Stuck(s, l) && InnerEnabled(s, step) && !Suspends(step) && !step.CheckSlot?
    ensures Stuck(ApplyInner(s, step), l)
  {
  }

  lemma StuckStep(s: State, step: Step, l: LoopId)
    requires Stuck(s, l) && Enabled(s, step) && !step.Wakeup? && !step.Drain?
    ensures Stuck(Apply(s, step), l)
  {
    if step.Work? {
      StuckWork(s, step.id, step.outcome, l);
    } else if step.Init? {
      StuckInit(s, step, l);
    } else if step.Spawn? {
      StuckSpawn(s, step, l);
    } else if Outer(step) {
      StuckOuter(s, step, l);
    } else if Suspends(step) {
      StuckSuspend(s, step, l);
    } else if step.CheckSlot? {
      StuckTake(s, l);
    } else {
      StuckInner(s, step, l);
    }
  }

  ghost predicate UncalledNext(s: State, s': State) {
    exists step :: Enabled(s, step) && !step.Wakeup? && !step.Drain? && s' == Apply(s, step)
  }

  /** Steps of one process, except that PHP code calls neither `wakeup` nor `drain`. */
  ghost predicate Uncalled(ss: seq<State>) {
    && ss != []
    && forall i :: 0 <= i < |ss| - 1 ==> UncalledNext(ss[i], ss[i + 1])
  }

  lemma StuckNext(s: State, s': State, l: LoopId)
    requires Stuck(s, l) && UncalledNext(s, s')
    ensures Stuck(s', l)
  {
    var step :| Enabled(s, step) && !step.Wakeup? && !step.Drain? && s' == Apply(s, step);
    StuckStep(s, step, l);
  }

  lemma {:induction false} Stays(ss: seq<State>, stuck: State -> bool)
    requires Uncalled(ss) && stuck(ss[0])
    requires forall s, s' | stuck(s) && UncalledNext(s, s') :: stuck(s')
    ensures stuck(ss[|ss| - 1])
    decreases |ss|
  {
    var n := |ss| - 1;
    if n > 0 {
      Stays(ss[..n], stuck);
    }
  }

  /** A stuck loop is never readable again: whatever tasks run, end, and send, nothing tells PHP to collect. */
  lemma StuckForever(ss: seq<State>, l: LoopId)
    requires Uncalled(ss) && Stuck(ss[0], l)
    ensures Stuck(ss[|ss| - 1], l)
  {
    forall s, s' | Stuck(s, l) && UncalledNext(s, s')
      ensures Stuck(s', l)
    {
      StuckNext(s, s', l);
    }
    Stays(ss, s => Stuck(s, l));
  }

  /** The order of the code excludes that state. */
  lemma NeverStuck(w: World, pid: Pid, l: LoopId)
    requires In(w, pid)
    ensures !Stuck(At(w, pid), l)
  {
    WakeupIn(w, pid);
    if l in w.procs[pid].loops && w.procs[pid].loops[l].pid == pid {
      assert l in Own(pid, w.procs[pid].loops);
    }
  }
}
