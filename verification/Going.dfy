/** What the methods of a process do is done by steps: each is one of them. */
module Going {
  import opened Basics
  import opened Slots
  import opened TaskCounters
  import opened States
  import opened Steps
  import opened Invariant
  import opened Worlds
  import KeepsStructure

  // ----- Runs of one process

  ghost predicate LocalNext(s: State, s': State) {
    exists step :: Enabled(s, step) && s' == Apply(s, step)
  }

  ghost predicate LocalRun(ss: seq<State>) {
    ss != [] && forall i :: 0 <= i < |ss| - 1 ==> LocalNext(ss[i], ss[i + 1])
  }

  ghost predicate Leads(s: State, s': State) {
    exists ss :: LocalRun(ss) && ss[0] == s && ss[|ss| - 1] == s'
  }

  lemma LeadsHere(s: State)
    ensures Leads(s, s)
  {
    assert LocalRun([s]);
  }

  lemma LeadsOn(s: State, t: State, step: Step)
    requires Leads(s, t) && Enabled(t, step)
    ensures Leads(s, Apply(t, step))
  {
    var ss :| LocalRun(ss) && ss[0] == s && ss[|ss| - 1] == t;
    var t' := Apply(t, step);
    assert LocalNext(t, t');
    var ss' := ss + [t'];
    assert LocalRun(ss') && ss'[0] == s && ss'[|ss'| - 1] == t';
  }

  /** A set of states that steps stay in. */
  ghost predicate Onwards(reached: State -> bool) {
    forall s, step | reached(s) && Enabled(s, step) :: reached(Apply(s, step))
  }

  /** The states reached from `s`. */
  lemma LeadsOnwards(s: State)
    ensures Onwards(t => Leads(s, t))
  {
    forall t, step | Leads(s, t) && Enabled(t, step)
      ensures Leads(s, Apply(t, step))
    {
      LeadsOn(s, t, step);
    }
  }

  lemma Goes(reached: State -> bool, s: State, step: Step)
    requires Onwards(reached) && reached(s) && Enabled(s, step)
    ensures reached(Apply(s, step))
  {
  }

  ghost predicate Sound(reached: State -> bool) {
    forall s {:trigger Inv(s)} :: reached(s) ==> Inv(s)
  }

  lemma NextHolds(inv: State -> bool, s: State, s': State)
    requires Onwards(inv) && inv(s) && LocalNext(s, s')
    ensures inv(s')
  {
    var step :| Enabled(s, step) && s' == Apply(s, step);
  }

  lemma {:induction false} RunHolds(inv: State -> bool, ss: seq<State>)
    requires Onwards(inv) && LocalRun(ss) && inv(ss[0])
    ensures inv(ss[|ss| - 1])
    decreases |ss|
  {
    var n := |ss| - 1;
    if n > 0 {
      RunHolds(inv, ss[..n]);
      NextHolds(inv, ss[n - 1], ss[n]);
    }
  }

  lemma InvOnwards()
    ensures Onwards(Inv)
  {
    forall s, step | Inv(s) && Enabled(s, step)
      ensures Inv(Apply(s, step))
    {
      StepKeepsInv(s, step);
    }
  }

  lemma LeadsSound(s: State)
    requires Inv(s)
    ensures Sound(t => Leads(s, t))
  {
    InvOnwards();
    forall t | Leads(s, t)
      ensures Inv(t)
    {
      var ss :| LocalRun(ss) && ss[0] == s && ss[|ss| - 1] == t;
      RunHolds(Inv, ss);
    }
  }

  lemma SocketThere(s: State)
    requires Inv(s) && Usable(s.p)
    ensures s.p.loops[s.p.current.value].socket in s.sockets
  {
    assert s.p.current.value in Own(s.p.pid, s.p.loops);
  }

  // ----- Each of them

  lemma WorkGoes(reached: State -> bool, s: State, id: Id, outcome: Outcome)
    requires Onwards(reached) && reached(s) && CanWork(s, id)
    ensures reached(DoWork(s, id, outcome))
  {
    Goes(reached, s, Step.Work(id, outcome));
  }

  lemma WakeupGoes(reached: State -> bool, s: State)
    requires Onwards(reached) && reached(s) && s.p.pc.Idle? && Usable(s.p)
    ensures reached(DoWakeup(s))
  {
    Goes(reached, s, Step.Wakeup);
  }

  lemma DrainGoes(reached: State -> bool, s: State)
    requires Onwards(reached) && reached(s) && s.p.pc.Idle? && Usable(s.p)
    ensures reached(DoDrain(s))
  {
    Goes(reached, s, Step.Drain);
  }

  lemma ShutdownGoes(reached: State -> bool, s: State)
    requires Onwards(reached) && reached(s) && s.p.pc.Idle?
    ensures reached(DoShutdown(s))
  {
    Goes(reached, s, Step.Shutdown);
  }

  lemma StartGoes(reached: State -> bool, s: State)
    requires Onwards(reached) && reached(s) && CanStart(s)
    ensures reached(DoStart(s))
  {
    Goes(reached, s, Step.Start);
  }

  lemma LaunchGoes(reached: State -> bool, s: State)
    requires Onwards(reached) && reached(s) && CanLaunch(s)
    ensures reached(DoLaunch(s))
  {
    Goes(reached, s, Step.Launch);
  }

  lemma SuspendGoes(reached: State -> bool, s: State, ok: bool)
    requires Onwards(reached) && reached(s) && CanSuspend(s)
    ensures reached(DoSuspend(s, ok))
  {
    Goes(reached, s, Step.Suspend(ok));
  }

  lemma UnregisterGoes(reached: State -> bool, s: State)
    requires Onwards(reached) && reached(s) && CanUnregister(s)
    ensures reached(DoUnregister(s))
  {
    Goes(reached, s, Step.Unregister);
  }

  lemma ReturnGoes(reached: State -> bool, s: State)
    requires Onwards(reached) && reached(s) && CanReturn(s)
    ensures reached(DoReturn(s))
  {
    Goes(reached, s, Step.Return);
  }

  lemma DeadlineGoes(reached: State -> bool, s: State)
    requires Onwards(reached) && reached(s) && s.p.pc.Receiving? && !s.p.pc.late
    ensures reached(DoDeadline(s))
  {
    Goes(reached, s, DeadlinePasses);
  }

  lemma ReceiveGoes(reached: State -> bool, s: State)
    requires Onwards(reached) && reached(s) && CanReceive(s)
    ensures reached(DoReceiveNext(s))
  {
    Goes(reached, s, Step.Receive);
  }

  lemma ReadGoes(reached: State -> bool, s: State)
    requires Onwards(reached) && reached(s) && CanRead(s)
    ensures reached(DoReadNext(s))
  {
    Goes(reached, s, Step.Read);
  }

  lemma RearmGoes(reached: State -> bool, s: State)
    requires Onwards(reached) && reached(s) && CanRearm(s)
    ensures reached(DoRearm(s))
  {
    Goes(reached, s, Step.Rearm);
  }

  lemma CollectGoes(reached: State -> bool, s: State)
    requires Onwards(reached) && reached(s) && CanCollect(s)
    ensures reached(DoCollectNext(s))
  {
    Goes(reached, s, Step.Collect);
  }

  lemma CheckSlotGoes(reached: State -> bool, s: State)
    requires Onwards(reached) && reached(s) && CanCheckSlot(s)
    ensures reached(DoCheckSlot(s))
  {
    Goes(reached, s, Step.CheckSlot);
  }

  lemma CheckBorrowingGoes(reached: State -> bool, s: State)
    requires Onwards(reached) && reached(s) && CanCheckBorrowing(s)
    ensures reached(DoCheckBorrowing(s))
  {
    Goes(reached, s, Step.CheckBorrowing);
  }

  lemma WakeSpuriouslyGoes(reached: State -> bool, s: State)
    requires Onwards(reached) && reached(s) && Asleep(s.p.pc)
    ensures reached(DoWakeSpuriously(s))
  {
    Goes(reached, s, Step.WakeSpuriously);
  }

  lemma ReleaseGoes(reached: State -> bool, s: State)
    requires Onwards(reached) && reached(s) && CanRelease(s)
    ensures reached(DoRelease(s))
  {
    Goes(reached, s, Step.Release);
  }

  lemma DropRuntimeGoes(reached: State -> bool, s: State)
    requires Onwards(reached) && reached(s) && CanDropRuntime(s)
    ensures reached(DoDropRuntime(s))
  {
    Goes(reached, s, Step.DropRuntime);
  }

  lemma DropLoopGoes(reached: State -> bool, s: State)
    requires Onwards(reached) && reached(s) && CanDropLoop(s)
    ensures reached(DoDropLoop(s))
  {
    Goes(reached, s, Step.DropLoop);
  }

  lemma ContinueGoes(reached: State -> bool, s: State, id: Id)
    requires Onwards(reached) && reached(s) && CanContinue(s, id)
    ensures reached(DoContinue(s, id))
  {
    Goes(reached, s, Step.Continue(id));
  }

  lemma InterruptGoes(reached: State -> bool, s: State, id: Id, exit: bool)
    requires Onwards(reached) && reached(s) && CanInterrupt(s, id)
    ensures reached(DoInterrupt(s, id, exit))
  {
    Goes(reached, s, Step.Interrupt(id, exit));
  }

  lemma ResumeGoes(reached: State -> bool, s: State, id: Id, target: Option<Id>)
    requires Onwards(reached) && reached(s) && CanResume(s, id, target)
    ensures reached(DoResumeCall(s, id, target))
  {
    Goes(reached, s, Step.ResumeCall(id, target));
  }

  /** The new fields of `DoInit`. */
  predicate Adds(s: State, s': State, l: LoopId, loop: Loop, shared: Option<Pid>) {
    && s'.p == s.p.(sharedRuntime := s'.p.sharedRuntime, current := s'.p.current, loops := s'.p.loops,
                    suspensions := s'.p.suspensions, channels := s'.p.channels, flags := s'.p.flags,
                    keepers := s'.p.keepers)
    && s'.p.sharedRuntime == shared && s'.p.current == Some(l) && s'.p.loops == s.p.loops[l := loop]
    && s'.p.suspensions == s.p.suspensions[l := NOBODY] && s'.p.channels == s.p.channels[l := Channel([], true, [])]
    && s'.p.flags == s.p.flags[l := Flag(false, 0)]
    && s'.p.keepers == s.p.keepers[l := Keeper(NO_TASKS, if loop.ownsRuntime then Some(l) else None)]
    && s'.sockets == s.sockets[loop.socket := 0]
  }

  lemma InitGoes(reached: State -> bool, s: State, s': State, owned: bool, l: LoopId, k: Sock, workers: nat, capacity: nat)
    requires Onwards(reached) && reached(s) && CanInit(s, l, k, workers, capacity) && Initializes(s.p, owned)
    requires var shared := if owned || s.p.sharedRuntime.Some? then s.p.sharedRuntime else Some(s.p.pid);
      Adds(s, s', l, Loop(s.p.pid, if owned then s.p.pid else shared.value, owned, workers, k, capacity), shared)
    ensures s' == DoInit(s, owned, l, k, workers, capacity) && reached(s')
  {
    Goes(reached, s, Step.Init(owned, l, k, workers, capacity));
  }

  /** The new fields of `DoSpawn`. */
  predicate Registers(p: Proc, p': Proc, f: Fiber, borrowing: bool)
    requires Usable(p)
  {
    var id, l := p.nextId, p.current.value;
    && p' == p.(nextId := p'.nextId, suspensions := p'.suspensions, calls := p'.calls, tasks := p'.tasks, slots := p'.slots,
                callers := p'.callers, pc := p'.pc)
    && p'.nextId == id + 1 && p'.pc == Registered(id)
    && p'.suspensions == p.suspensions[l := p.suspensions[l][id := f]]
    && p'.calls == p.calls[id := Call(l, borrowing, f)] && p'.tasks == p.tasks[id := Task(Unstarted, None)]
    && p'.slots == p.slots[id := Running] && p'.callers == p.callers[id := Spawning]
  }

  lemma SpawnGoes(reached: State -> bool, s: State, s': State, f: Fiber, borrowing: bool)
    requires Onwards(reached) && reached(s) && CanSpawn(s, f) && Usable(s.p)
    requires Registers(s.p, s'.p, f, borrowing) && s'.sockets == s.sockets
    ensures s' == DoSpawn(s, f, borrowing) && reached(s')
  {
    Goes(reached, s, Step.Spawn(f, borrowing));
  }

  lemma SameIdentity(s: State, step: Step)
    requires StructureInv(s) && Enabled(s, step)
    ensures Apply(s, step).p.pid == s.p.pid && Apply(s, step).p.order == DrainFirst
  {
    StepFrame(s, step);
    KeepsStructure.StepKeepsStructure(s, step);
  }

  lemma ForkSound(s: State, child: Pid)
    requires Inv(s) && s.p.pc.Idle? && Own(child, s.p.loops) == {}
    ensures Sound(t => Leads(s.(p := s.p.(pid := child)), t))
  {
    assert s == State(s.p, s.sockets);
    ForkInv(s.p, child, s.sockets);
    LeadsSound(s.(p := s.p.(pid := child)));
  }
}
