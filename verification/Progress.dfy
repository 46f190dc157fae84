/** While the PHP thread sleeps, the tasks run, and they end by waking it up. */
module Progress {
  import opened Basics
  import opened States
  import opened Steps
  import opened Invariant
  import opened Worlds
  import opened Theorems
  import opened KeepsStructure
  import opened KeepsSlots
  import opened KeepsCounting

  /** The steps a task has left. */
  function Rank(phase: Phase): nat {
    match phase
    case Unstarted => 15
    case Unlaunched => 14
    case Polling => 13
    case Setting => 12
    case Storing => 11
    case Stored => 10
    case SetNotifying => 9
    case Finishing => 8
    case Closing => 7
    case Closed => 6
    case Sending => 5
    case Swapping => 4
    case Writing => 3
    case Ending => 2
    case Releasing(_) => 1
    case Ended => 0
  }

  /** The steps that all the tasks have left: the measure. */
  function Remaining(tasks: TaskMap): set<(Id, nat)> {
    set id, n: nat | id in tasks && n < Rank(tasks[id].phase) :: (id, n)
  }

  /** The task `id`, and no other, moves down the ranks. */
  ghost predicate Lower(tasks: TaskMap, tasks': TaskMap, id: Id) {
    id in tasks && id in tasks' && tasks' == tasks[id := tasks'[id]] && Rank(tasks'[id].phase) < Rank(tasks[id].phase)
  }

  lemma SetLowersRank(s: State, id: Id, outcome: Outcome)
    requires CanWork(s, id) && (s.p.tasks[id].phase.Setting? || s.p.tasks[id].phase.Storing? || s.p.tasks[id].phase.Stored?)
    ensures Lower(s.p.tasks, DoWork(s, id, outcome).p.tasks, id)
  {
  }

  lemma EarlyLowersRank(s: State, id: Id, outcome: Outcome)
    requires CanWork(s, id) && Early(s.p.tasks[id].phase)
    ensures Lower(s.p.tasks, DoWork(s, id, outcome).p.tasks, id)
  {
    var phase := s.p.tasks[id].phase;
    if phase.Setting? || phase.Storing? || phase.Stored? {
      SetLowersRank(s, id, outcome);
    }
  }

  lemma NotifyLowersRank(s: State, id: Id, outcome: Outcome)
    requires CanWork(s, id) && (s.p.tasks[id].phase.Sending? || s.p.tasks[id].phase.Swapping? || s.p.tasks[id].phase.Writing?)
    ensures Lower(s.p.tasks, DoWork(s, id, outcome).p.tasks, id)
  {
  }

  lemma LateLowersRank(s: State, id: Id, outcome: Outcome)
    requires CanWork(s, id) && !Early(s.p.tasks[id].phase)
    ensures Lower(s.p.tasks, DoWork(s, id, outcome).p.tasks, id)
  {
    var phase := s.p.tasks[id].phase;
    if phase.Sending? || phase.Swapping? || phase.Writing? {
      NotifyLowersRank(s, id, outcome);
    }
  }

  lemma WorkLowersRank(s: State, id: Id, outcome: Outcome)
    requires CanWork(s, id)
    ensures Lower(s.p.tasks, DoWork(s, id, outcome).p.tasks, id)
  {
    if Early(s.p.tasks[id].phase) {
      EarlyLowersRank(s, id, outcome);
    } else {
      LateLowersRank(s, id, outcome);
    }
  }

  lemma WorkShrinks(s: State, id: Id, outcome: Outcome)
    requires CanWork(s, id)
    ensures Remaining(DoWork(s, id, outcome).p.tasks) < Remaining(s.p.tasks)
    ensures |Remaining(DoWork(s, id, outcome).p.tasks)| < |Remaining(s.p.tasks)|
  {
    WorkLowersRank(s, id, outcome);
    var tasks, tasks' := s.p.tasks, DoWork(s, id, outcome).p.tasks;
    forall e | e in Remaining(tasks')
      ensures e in Remaining(tasks)
    {
      assert e.0 in tasks && e.1 < Rank(tasks'[e.0].phase) <= Rank(tasks[e.0].phase);
    }
    var e := (id, Rank(tasks'[id].phase));
    assert e in Remaining(tasks) && e !in Remaining(tasks');
    SubsetSize(Remaining(tasks'), Remaining(tasks));
  }

  /** PHP sleeps, or waits for the lock of a slot. */
  predicate Blocked(s: State) {
    Asleep(s.p.pc) || (s.p.pc.SlotWaiting? && KnownCall(s.p, s.p.pc.id) && Locked(s.p.tasks[s.p.pc.id].phase))
  }

  /** What the progress of the tasks depends on. */
  ghost predicate Alive(s: State) {
    StructureInv(s) && SocketInv(s) && SlotInv(s) && CountInv(s)
  }

  /** A launched task that is not over can step, or waits for a worker thread that another task keeps, which can. */
  lemma SomeoneWorks(s: State, id: Id) returns (worker: Id)
    requires Alive(s) && OwnCall(s.p, id)
    requires !s.p.tasks[id].phase.Unstarted? && !s.p.tasks[id].phase.Unlaunched? && !s.p.tasks[id].phase.Ended?
    ensures CanWork(s, worker)
  {
    var p, l := s.p, s.p.calls[id].loop;
    assert l in Own(p.pid, p.loops);
    worker := id;
    if p.tasks[id].phase.Polling? && |Busy(p.calls, p.tasks, l)| >= p.loops[l].workers {
      worker := Element(Busy(p.calls, p.tasks, l));
    }
    assert SlotOk(p.tasks[worker], p.slots[worker]);
  }

  /** Whenever PHP blocks on a future of its own process, some task can step. */
  lemma SleepersHaveWorkers(s: State) returns (worker: Id)
    requires Alive(s) && Blocked(s) && (s.p.pc.SlotWaiting? ==> OwnCall(s.p, s.p.pc.id))
    ensures CanWork(s, worker)
  {
    var p := s.p;
    if p.pc.SlotWaiting? {
      assert SlotOk(p.tasks[p.pc.id], p.slots[p.pc.id]);
      worker := SomeoneWorks(s, p.pc.id);
    } else {
      var l := p.pc.loop;
      assert p.keepers[l].tasks.borrowing == |Borrowers(p.calls, p.tasks, l)| > 0;
      var id := Element(Borrowers(p.calls, p.tasks, l));
      worker := SomeoneWorks(s, id);
    }
  }

  ghost predicate WorkNext(s: State, s': State) {
    exists id, o :: CanWork(s, id) && s' == DoWork(s, id, o)
  }

  /** Task steps, one after another: the PHP thread takes none. */
  ghost predicate WorkRun(ss: seq<State>) {
    && ss != []
    && forall i :: 0 <= i < |ss| - 1 ==> WorkNext(ss[i], ss[i + 1])
  }

  ghost predicate SomeCanWork(s: State) {
    exists id :: CanWork(s, id)
  }

  lemma WorkKeepsPlace(s: State, id: Id, outcome: Outcome)
    requires CanWork(s, id)
    ensures var s' := DoWork(s, id, outcome);
      && s'.p.calls == s.p.calls && s'.p.loops == s.p.loops && s'.p.pid == s.p.pid && s'.p.current == s.p.current
      && SamePlace(s.p.pc, s'.p.pc)
  {
    if Early(s.p.tasks[id].phase) {
      EarlyMoves(s, id, outcome);
    } else {
      LateMoves(s, id, outcome);
    }
  }

  ghost predicate SleepsOnOwn(s: State) {
    Blocked(s) ==> s.p.pc.SlotWaiting? ==> s.p.pc.id in s.p.calls && s.p.calls[s.p.pc.id].loop in Own(s.p.pid, s.p.loops)
  }

  ghost predicate AliveOnOwn(s: State) {
    Alive(s) && SleepsOnOwn(s)
  }

  lemma WorkKeepsAlive(s: State, id: Id, outcome: Outcome)
    requires Alive(s) && CanWork(s, id)
    ensures Alive(DoWork(s, id, outcome))
  {
    WorkStructure(s, id, outcome);
    StepKeepsSockets(s, Work(id, outcome));
    WorkSlots(s, id, outcome);
    WorkCount(s, id, outcome);
  }

  lemma WorkKeepsOwn(s: State, id: Id, outcome: Outcome)
    requires SleepsOnOwn(s) && CanWork(s, id)
    ensures SleepsOnOwn(DoWork(s, id, outcome))
  {
    WorkKeepsPlace(s, id, outcome);
    WorkLowersRank(s, id, outcome);
  }

  lemma WorkNextKeeps(s: State, s': State)
    requires WorkNext(s, s') && AliveOnOwn(s)
    ensures AliveOnOwn(s') && |Remaining(s'.p.tasks)| < |Remaining(s.p.tasks)|
  {
    var id, o :| CanWork(s, id) && s' == DoWork(s, id, o);
    WorkKeepsAlive(s, id, o);
    WorkKeepsOwn(s, id, o);
    WorkShrinks(s, id, o);
  }

  /** What every step keeps holds at the end; what every step lowers bounds their number. */
  lemma {:induction false} RunRanks(ss: seq<State>, next: (State, State) -> bool, kept: State -> bool, rank: State -> nat)
    requires ss != [] && kept(ss[0]) && forall i :: 0 <= i < |ss| - 1 ==> next(ss[i], ss[i + 1])
    requires forall s, s' | kept(s) && next(s, s') :: kept(s') && rank(s') < rank(s)
    ensures kept(ss[|ss| - 1]) && |ss| - 1 + rank(ss[|ss| - 1]) <= rank(ss[0])
    decreases |ss|
  {
    var n := |ss| - 1;
    if n > 0 {
      RunRanks(ss[..n], next, kept, rank);
    }
  }

  lemma WorkRunKeeps(ss: seq<State>)
    requires WorkRun(ss) && AliveOnOwn(ss[0])
    ensures AliveOnOwn(ss[|ss| - 1]) && |ss| - 1 + |Remaining(ss[|ss| - 1].p.tasks)| <= |Remaining(ss[0].p.tasks)|
  {
    forall s, s' | AliveOnOwn(s) && WorkNext(s, s')
      ensures AliveOnOwn(s') && |Remaining(s'.p.tasks)| < |Remaining(s.p.tasks)|
    {
      WorkNextKeeps(s, s');
    }
    RunRanks(ss, WorkNext, AliveOnOwn, (s: State) => |Remaining(s.p.tasks)|);
  }

  /** Progress: from a reachable state in which PHP blocks, the tasks take at most as many steps as they have left; and they
      stop only with PHP able to go on. */
  lemma SleepEnds(w: World, pid: Pid, ss: seq<State>)
    requires Reachable(w) && pid in w.procs && WorkRun(ss) && ss[0] == At(w, pid) && SleepsOnOwn(ss[0])
    ensures |ss| - 1 <= |Remaining(ss[0].p.tasks)|
    ensures Blocked(ss[|ss| - 1]) ==> SomeCanWork(ss[|ss| - 1])
  {
    StructureIn(w, pid);
    SocketsIn(w, pid);
    SlotsIn(w, pid);
    CountsIn(w, pid);
    WorkRunKeeps(ss);
    if Blocked(ss[|ss| - 1]) {
      var id := SleepersHaveWorkers(ss[|ss| - 1]);
    }
  }

  // ----- Wakeups come

  predicate StreamReadable(s: State) {
    Usable(s.p) && s.p.loops[s.p.current.value].socket in s.sockets && s.sockets[s.p.loops[s.p.current.value].socket] > 0
  }

  /** What the wakeups depend on. */
  ghost predicate Waking(s: State) {
    StructureInv(s) && SocketInv(s) && CountInv(s) && WakeupInv(s)
  }

  lemma WriteMakesReadable(s: State, id: Id) returns (s': State)
    requires Waking(s) && Usable(s.p) && id in Writers(s.p.calls, s.p.tasks, s.p.current.value)
    ensures WorkNext(s, s') && StreamReadable(s')
  {
    var p, l := s.p, s.p.current.value;
    assert l in Own(p.pid, p.loops);
    assert |Writers(p.calls, p.tasks, l)| > 0;
    s' := DoWork(s, id, Panic);
  }

  lemma SwapMakesWriter(s: State, id: Id) returns (s': State)
    requires Waking(s) && Usable(s.p) && id in Swappers(s.p.calls, s.p.tasks, s.p.current.value)
    requires !s.p.flags[s.p.current.value].pending
    ensures WorkNext(s, s') && Waking(s') && Usable(s'.p) && id in Writers(s'.p.calls, s'.p.tasks, s'.p.current.value)
  {
    s' := DoWork(s, id, Panic);
    WorkStructure(s, id, Panic);
    WorkCount(s, id, Panic);
    WorkWakeup(s, id, Panic);
  }

  lemma WriterOrSwapper(s: State) returns (id: Id, writes: bool)
    requires Waking(s) && Usable(s.p) && s.p.channels[s.p.current.value].receiving
    requires s.p.channels[s.p.current.value].queue != [] && !StreamReadable(s)
    requires !s.p.pc.Draining? && !s.p.pc.Rearming? && !s.p.pc.Collecting?
    ensures writes ==> id in Writers(s.p.calls, s.p.tasks, s.p.current.value)
    ensures !writes ==> id in Swappers(s.p.calls, s.p.tasks, s.p.current.value) && !s.p.flags[s.p.current.value].pending
  {
    var p, l := s.p, s.p.current.value;
    assert l in Own(p.pid, p.loops);
    writes := p.flags[l].pending;
    if writes {
      id := Element(Writers(p.calls, p.tasks, l));
    } else {
      id := Element(Swappers(p.calls, p.tasks, l));
    }
  }

  lemma RunOfTwo(s: State, t: State, u: State) returns (ss: seq<State>)
    requires WorkNext(s, t) && WorkNext(t, u)
    ensures WorkRun(ss) && ss == [s, t, u]
  {
    ss := [s, t, u];
  }

  lemma RunToReadable(s: State) returns (ss: seq<State>)
    requires Waking(s) && Usable(s.p) && s.p.channels[s.p.current.value].receiving
    requires s.p.channels[s.p.current.value].queue != [] && !StreamReadable(s)
    requires !s.p.pc.Draining? && !s.p.pc.Rearming? && !s.p.pc.Collecting?
    ensures WorkRun(ss) && ss[0] == s && |ss| <= 3 && StreamReadable(ss[|ss| - 1])
  {
    var id, writes := WriterOrSwapper(s);
    if writes {
      var s' := WriteMakesReadable(s, id);
      ss := [s, s'];
    } else {
      var s' := SwapMakesWriter(s, id);
      var s'' := WriteMakesReadable(s', id);
      ss := RunOfTwo(s, s', s'');
    }
  }

  /** A completion that waits outside `wakeup` and `drain` is at most two task steps away from making the stream readable. */
  lemma WakeupComes(w: World, pid: Pid)
    requires Reachable(w) && pid in w.procs && Usable(w.procs[pid])
    requires w.procs[pid].channels[w.procs[pid].current.value].queue != []
    requires var pc := w.procs[pid].pc; !pc.Draining? && !pc.Rearming? && !pc.Collecting?
    ensures exists ss :: WorkRun(ss) && ss[0] == At(w, pid) && |ss| <= 3 && StreamReadable(ss[|ss| - 1])
  {
    StructureIn(w, pid);
    SocketsIn(w, pid);
    RegistryIn(w, pid);
    CountsIn(w, pid);
    WakeupIn(w, pid);
    var s := At(w, pid);
    assert s.p.current.value in Own(s.p.pid, s.p.loops);
    var ss := [s];
    if !StreamReadable(s) {
      ss := RunToReadable(s);
    }
    assert WorkRun(ss);
  }
}
