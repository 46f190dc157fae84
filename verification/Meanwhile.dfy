/** What happens meanwhile: what the PHP thread finds, and does not find, changed when tasks ran between two of its steps. */
module Meanwhile {
  import opened Basics
  import opened Slots
  import opened States
  import opened Steps
  import opened Invariant
  import opened Progress
  import opened Gathering
  import opened KeepsStructure
  import opened Worlds
  import Isolation

  /** The memory of the PHP thread is as it was, but for its program counter. */
  predicate SameMemory(p: Proc, p': Proc) {
    p' == p.(tasks := p'.tasks, slots := p'.slots, channels := p'.channels, flags := p'.flags, keepers := p'.keepers,
             pc := p'.pc, released := p'.released)
  }

  predicate SameKeys(s: State, s': State) {
    && s'.p.tasks.Keys == s.p.tasks.Keys && s'.p.slots.Keys == s.p.slots.Keys && s'.p.channels.Keys == s.p.channels.Keys
    && s'.p.flags.Keys == s.p.flags.Keys && s'.p.keepers.Keys == s.p.keepers.Keys && s'.sockets.Keys == s.sockets.Keys
  }

  /** Nothing was received, and tasks sent at most as much as they stepped. */
  ghost predicate OnlySent(c: Channel, c': Channel, tasks: TaskMap, tasks': TaskMap) {
    && c'.received == c.received && c'.receiving == c.receiving && c.queue <= c'.queue
    && |c'.queue| + |Remaining(tasks')| <= |c.queue| + |Remaining(tasks)|
  }

  /** Between two states, tasks ran; the socket was read, or the flag cleared, at most. */
  ghost predicate Unmoved(s: State, s': State) {
    && SameMemory(s.p, s'.p) && SameKeys(s, s') && |Remaining(s'.p.tasks)| <= |Remaining(s.p.tasks)|
    && (forall l | l in s.p.channels :: OnlySent(s.p.channels[l], s'.p.channels[l], s.p.tasks, s'.p.tasks))
    && (forall k | k in s.sockets :: s'.sockets[k] + |Remaining(s'.p.tasks)| <= s.sockets[k] + |Remaining(s.p.tasks)|)
    && (forall id | id in s.p.tasks && (s.p.tasks[id].phase.Unstarted? || s.p.tasks[id].phase.Unlaunched?) ::
          s'.p.tasks[id] == s.p.tasks[id])
    && (forall id | Isolation.Inherited(s.p, id) :: s'.p.tasks[id] == s.p.tasks[id])
    && (forall id | id in s.p.slots && s.p.slots[id] != Running :: s'.p.slots[id] != Running)
  }

  lemma UnmovedOn(s: State, t: State, u: State)
    requires Unmoved(s, t) && Unmoved(t, u)
    ensures Unmoved(s, u)
  {
  }

  lemma LockUnmoved(s: State, id: Id, outcome: Outcome)
    requires CanWork(s, id) && Locking(s.p.tasks[id].phase)
    requires |Remaining(DoWork(s, id, outcome).p.tasks)| < |Remaining(s.p.tasks)|
    ensures Unmoved(s, DoWork(s, id, outcome)) && DoWork(s, id, outcome).p.pc == s.p.pc
  {
  }

  lemma SetUnmoved(s: State, id: Id, outcome: Outcome)
    requires CanWork(s, id) && (s.p.tasks[id].phase.Storing? || s.p.tasks[id].phase.Closing?)
    requires |Remaining(DoWork(s, id, outcome).p.tasks)| < |Remaining(s.p.tasks)|
    ensures Unmoved(s, DoWork(s, id, outcome))
    ensures !Asleep(s.p.pc) ==> DoWork(s, id, outcome).p.pc == s.p.pc
  {
  }

  lemma PollUnmoved(s: State, id: Id, outcome: Outcome)
    requires CanWork(s, id) && (s.p.tasks[id].phase.Polling? || s.p.tasks[id].phase.SetNotifying?)
    requires |Remaining(DoWork(s, id, outcome).p.tasks)| < |Remaining(s.p.tasks)|
    ensures Unmoved(s, DoWork(s, id, outcome))
    ensures !Asleep(s.p.pc) ==> DoWork(s, id, outcome).p.pc == s.p.pc
  {
  }

  lemma EndUnmoved(s: State, id: Id, outcome: Outcome)
    requires CanWork(s, id) && (s.p.tasks[id].phase.Ending? || s.p.tasks[id].phase.Releasing?)
    requires |Remaining(DoWork(s, id, outcome).p.tasks)| < |Remaining(s.p.tasks)|
    ensures Unmoved(s, DoWork(s, id, outcome))
    ensures !Asleep(s.p.pc) ==> DoWork(s, id, outcome).p.pc == s.p.pc
  {
  }

  lemma NotifyUnmoved(s: State, id: Id, outcome: Outcome)
    requires CanWork(s, id) && (s.p.tasks[id].phase.Sending? || s.p.tasks[id].phase.Swapping? || s.p.tasks[id].phase.Writing?)
    requires |Remaining(DoWork(s, id, outcome).p.tasks)| < |Remaining(s.p.tasks)|
    ensures Unmoved(s, DoWork(s, id, outcome)) && DoWork(s, id, outcome).p.pc == s.p.pc
  {
  }

  lemma WorkUnmoved(s: State, id: Id, outcome: Outcome)
    requires CanWork(s, id)
    ensures Unmoved(s, DoWork(s, id, outcome))
    ensures !Asleep(s.p.pc) ==> DoWork(s, id, outcome).p.pc == s.p.pc
  {
    WorkShrinks(s, id, outcome);
    if Locking(s.p.tasks[id].phase) {
      LockUnmoved(s, id, outcome);
    } else if s.p.tasks[id].phase.Storing? || s.p.tasks[id].phase.Closing? {
      SetUnmoved(s, id, outcome);
    } else if s.p.tasks[id].phase.Polling? || s.p.tasks[id].phase.SetNotifying? {
      PollUnmoved(s, id, outcome);
    } else if s.p.tasks[id].phase.Ending? || s.p.tasks[id].phase.Releasing? {
      EndUnmoved(s, id, outcome);
    } else {
      NotifyUnmoved(s, id, outcome);
    }
  }

  lemma ReadUnmoved(s: State)
    requires CanRead(s)
    ensures Unmoved(s, DoReadNext(s))
    ensures Readable(s) ==> DoReadNext(s).p == s.p && CanRead(DoReadNext(s))
    ensures !Readable(s) ==> DoReadNext(s).p.pc == Rearming(s.p.pc.ready) || s.p.order == RearmFirst
  {
  }

  lemma RearmUnmoved(s: State)
    requires CanRearm(s)
    ensures Unmoved(s, DoRearm(s))
  {
  }

  // ----- Collecting

  /** Since `s0`, PHP received `ids` from the channel of `l`, in order, and collected the registered ones. */
  ghost predicate Gathered(s0: State, s: State, l: LoopId, ids: seq<Id>) {
    && l in s0.p.channels && l in s0.p.suspensions && SameKeys(s0, s)
    && s.p == s0.p.(suspensions := s0.p.suspensions[l := Remove(s0.p.suspensions[l], ids)],
                    collected := s0.p.collected + Sift(s0.p.suspensions[l], ids),
                    tasks := s.p.tasks, slots := s.p.slots, channels := s.p.channels, flags := s.p.flags,
                    keepers := s.p.keepers, pc := s.p.pc, released := s.p.released)
    && s.p.channels[l].received == s0.p.channels[l].received + ids
    && s0.p.channels[l].queue <= ids + s.p.channels[l].queue
  }

  lemma GatheredHere(s: State, l: LoopId)
    requires l in s.p.channels && l in s.p.suspensions
    ensures Gathered(s, s, l, [])
  {
    assert Remove(s.p.suspensions[l], []) == s.p.suspensions[l];
    assert s.p.suspensions[l := Remove(s.p.suspensions[l], [])] == s.p.suspensions;
  }

  lemma GatheredUnmoved(s0: State, s: State, t: State, l: LoopId, ids: seq<Id>)
    requires Gathered(s0, s, l, ids) && Unmoved(s, t)
    ensures Gathered(s0, t, l, ids)
  {
    assert OnlySent(s.p.channels[l], t.p.channels[l], s.p.tasks, t.p.tasks);
  }

  lemma GatheredPop(s0: State, s: State, l: LoopId, ids: seq<Id>, pc: Pc)
    requires Gathered(s0, s, l, ids) && Usable(s.p) && s.p.current == Some(l) && s.p.channels[l].queue != []
    ensures Gathered(s0, Pop(s, pc), l, ids + [s.p.channels[l].queue[0]])
  {
    var q := s.p.channels[l].queue;
    SiftOne(s0.p.suspensions[l], ids, q[0]);
    assert ids + q == ids + [q[0]] + q[1..];
    var t := Pop(s, pc);
    assert t.p.suspensions == s0.p.suspensions[l := Remove(s0.p.suspensions[l], ids + [q[0]])];
  }

  /** And left, with all of them in a ready list to be resumed, and the channel just found empty. */
  ghost predicate Collected(s0: State, s: State, l: LoopId, ids: seq<Id>) {
    && Gathered(s0, s.(p := s.p.(toResume := s0.p.toResume)), l, ids)
    && s.p.toResume == s0.p.toResume + (set id | id in Sift(s0.p.suspensions[l], ids))
    && s.p.pc == Idle && s.p.channels[l].queue == []
  }

  lemma CollectedNow(s0: State, s: State, l: LoopId, ids: seq<Id>)
    requires Gathered(s0, s, l, ids) && CanCollect(s) && s.p.current == Some(l) && CollectEnds(s.p)
    requires s.p.pc.ready == Sift(s0.p.suspensions[l], ids)
    ensures Collected(s0, DoStopCollecting(s), l, ids)
  {
  }

  /** One turn of `try_iter`. */
  lemma CollectGathers(s0: State, s: State, l: LoopId, ids: seq<Id>) returns (ids': seq<Id>)
    requires Gathered(s0, s, l, ids) && CanCollect(s) && s.p.current == Some(l)
    requires s.p.pc.ready == Sift(s0.p.suspensions[l], ids)
    ensures ids <= ids'
    ensures var s' := DoCollectNext(s);
      if CollectEnds(s.p) then ids' == ids && Collected(s0, s', l, ids)
      else
        && Gathered(s0, s', l, ids') && CanCollect(s') && s'.p.current == Some(l) && s'.p.tasks == s.p.tasks
        && s'.p.pc.ready == Sift(s0.p.suspensions[l], ids') && |s'.p.channels[l].queue| < |s.p.channels[l].queue|
  {
    if CollectEnds(s.p) {
      ids' := ids;
      CollectedNow(s0, s, l, ids);
    } else {
      var id := s.p.channels[l].queue[0];
      ids' := ids + [id];
      GatheredPop(s0, s, l, ids, Collecting(Extended(s.p, s.p.pc.ready)));
      SiftOne(s0.p.suspensions[l], ids, id);
    }
  }

  /** One turn of the receive loop of `drain`. */
  lemma ReceiveGathers(s0: State, s: State, l: LoopId, ids: seq<Id>) returns (ids': seq<Id>)
    requires Gathered(s0, s, l, ids) && CanReceive(s) && s.p.current == Some(l) && s.p.order == DrainFirst
    requires s.p.pc.ready == Sift(s0.p.suspensions[l], ids) && Wanted(s0.p.suspensions[l], ids)
    ensures Wanted(s0.p.suspensions[l], ids')
    ensures var s' := DoReceiveNext(s);
      && Gathered(s0, s', l, ids') && Usable(s'.p) && s'.p.current == Some(l) && s'.p.tasks == s.p.tasks
      && (ReceiveEnds(s.p) ==> s'.p.pc == Draining(s.p.pc.ready) && ids' == ids)
      && (!ReceiveEnds(s.p) ==>
            s'.p.pc.Receiving? && s'.p.pc.ready == Sift(s0.p.suspensions[l], ids')
            && |s'.p.channels[l].queue| < |s.p.channels[l].queue|)
  {
    ids' := ids;
    if !ReceiveEnds(s.p) {
      var id := s.p.channels[l].queue[0];
      ids' := ids + [id];
      GatheredPop(s0, s, l, ids, Receiving(Extended(s.p, s.p.pc.ready), s.p.pc.late));
      SiftOne(s0.p.suspensions[l], ids, id);
      WantedOne(s0.p.suspensions[l], ids, id);
    }
  }

  /** What ends the receive loop of `drain`: nobody registered, or, after the deadline, an empty channel. */
  predicate Exhausted(s: State, l: LoopId, late: bool) {
    && l in s.p.channels && l in s.p.suspensions
    && ((late && s.p.channels[l].queue == []) || s.p.suspensions[l] == NOBODY)
  }

  lemma DeadlineUnmoved(s: State)
    requires s.p.pc.Receiving? && !s.p.pc.late
    ensures Unmoved(s, DoDeadline(s))
  {
  }

  // ----- Sleeping

  function Awake(pc: Pc): Pc {
    match pc
    case SlotWaiting(id, _) => SlotWaiting(id, false)
    case BorrowWaiting(l, _) => BorrowWaiting(l, false)
    case _ => pc
  }

  lemma WorkWakes(s: State, id: Id, outcome: Outcome)
    requires CanWork(s, id)
    ensures var pc := DoWork(s, id, outcome).p.pc; pc == s.p.pc || pc == Awake(s.p.pc)
  {
    WorkKeepsPlace(s, id, outcome);
  }

  lemma SpuriousUnmoved(s: State)
    requires Asleep(s.p.pc)
    ensures Unmoved(s, DoWakeSpuriously(s)) && DoWakeSpuriously(s).p.pc == Awake(s.p.pc)
  {
  }

  lemma DozeUnmoved(s: State)
    requires CanCheckSlot(s)
    ensures Unmoved(s, DoSleep(s))
  {
  }

  /** Since `s`, the caller of `id` left with its own result, which `Slot::wait` returned. */
  predicate Answers(s: State, s': State, id: Id, value: Option<Value>) {
    && SameMemory(s.p.(callers := s'.p.callers), s'.p) && s'.p.pc == Idle && id in s.p.callers
    && s'.p.callers == s.p.callers[id := Left(if value.Some? then Returned(value.value) else FuturePanicked)]
    && id in s'.p.slots && s'.p.slots[id] == Taken
    && id in s'.p.tasks && s'.p.tasks[id].outcome == Some(if value.Some? then Produced(value.value) else Panic)
  }

  lemma SlotAnswers(s: State)
    requires StructureInv(s) && SlotInv(s) && CanCheckSlot(s) && s.p.slots[s.p.pc.id] != Running
    ensures Answers(s, DoTake(s), s.p.pc.id, Result(s.p.slots[s.p.pc.id]))
  {
    var id := s.p.pc.id;
    assert SlotOk(s.p.tasks[id], s.p.slots[id]) && ResultOk(s.p.tasks[id], s.p.slots[id], s.p.callers[id]);
  }

  lemma AnswersAfter(s: State, t: State, u: State, id: Id, value: Option<Value>)
    requires Unmoved(s, t) && Answers(t, u, id, value)
    ensures Answers(s, u, id, value)
  {
  }

  lemma HandedOver(s: State)
    requires SlotInv(s) && FateInv(s) && s.p.pc.SlotWaiting? && KnownCall(s.p, s.p.pc.id)
    requires s.p.callers[s.p.pc.id] == Waiting(Handed)
    ensures s.p.slots[s.p.pc.id] != Running && !Locked(s.p.tasks[s.p.pc.id].phase)
  {
    assert SlotOk(s.p.tasks[s.p.pc.id], s.p.slots[s.p.pc.id]);
  }

  /** In `Slot::wait`, for a call of this process, or a slot that is over and not locked. */
  predicate CanWait(p: Proc) {
    && p.pc.SlotWaiting? && !p.pc.asleep && KnownCall(p, p.pc.id)
    && (OwnCall(p, p.pc.id) || (Isolation.Inherited(p, p.pc.id) && !Isolation.Unready(p, p.pc.id)))
  }

  lemma WaitsOn(s: State, t: State)
    requires CanWait(s.p) && Unmoved(s, t) && t.p.pc == s.p.pc
    ensures CanWait(t.p)
  {
  }

  // ----- `shutdown`

  lemma CheckBorrowingUnmoved(s: State)
    requires CanCheckBorrowing(s)
    ensures Unmoved(s, DoCheckBorrowing(s))
  {
  }

  lemma ReleaseUnmoved(s: State)
    requires CanRelease(s)
    ensures Unmoved(s, DoRelease(s))
  {
  }

  lemma DropRuntimeUnmoved(s: State)
    requires CanDropRuntime(s)
    ensures Unmoved(s, DoDropRuntime(s))
  {
  }

  /** Since `s`, `shutdown` dropped the loop `l`, with the callers still registered. */
  predicate Dropped(s: State, s': State, l: LoopId) {
    && l in s.p.suspensions && l in s'.p.channels && !s'.p.channels[l].receiving
    && s'.p == s.p.(current := None, suspensions := s.p.suspensions[l := NOBODY],
                    abandoned := s.p.abandoned + s.p.suspensions[l].Keys, tasks := s'.p.tasks, slots := s'.p.slots,
                    channels := s'.p.channels, flags := s'.p.flags, keepers := s'.p.keepers, pc := Idle,
                    released := s'.p.released)
  }

  /** The runtime that the loop owned was released once, or is in the hands of its last task, or is parked while tasks run. */
  predicate LetsGo(p: Proc, l: LoopId) {
    && l in p.loops && l in p.keepers && p.keepers[l].runtime == None
    && AsNat(p.keepers[l].tasks.release.Some?) + |Releasers(p.calls, p.tasks, l)| + p.released[l] == AsNat(p.loops[l].ownsRuntime)
    && (p.keepers[l].tasks.release.Some? ==> p.keepers[l].tasks.running > 0)
  }

  lemma UnmovedPc(s: State, t: State, pc: Pc)
    requires Unmoved(s, t)
    ensures Unmoved(s.(p := s.p.(pc := pc)), t)
  {
  }

  lemma DropsLoop(s: State, t: State)
    requires Unmoved(s.(p := s.p.(current := None)), t) && CanDropLoop(t)
    ensures Dropped(s, DoDropLoop(t), t.p.pc.loop)
  {
  }

  // ----- `spawn`

  /** Since `s`, a call was registered, and its task launched. */
  predicate Spawned(s: State, s': State, f: Fiber, borrowing: bool) {
    && Usable(s.p)
    && var id, l := s.p.nextId, s.p.current.value;
       && SameMemory(s.p.(nextId := id + 1, suspensions := s.p.suspensions[l := s.p.suspensions[l][id := f]],
                          calls := s.p.calls[id := Call(l, borrowing, f)], callers := s.p.callers[id := Spawning]), s'.p)
       && s'.p.pc == Suspending(id) && id in s'.p.tasks && id in s'.p.slots
  }

  // ----- PHP code elsewhere

  /** A caller that is not about to suspend, nor suspended. */
  predicate Settled(c: Caller) {
    !c.Spawning? && !c.Suspended?
  }

  lemma WorkSettled(s: State, work: Id, outcome: Outcome)
    requires CanWork(s, work)
    ensures DoWork(s, work, outcome).p.callers == s.p.callers
  {
    if Early(s.p.tasks[work].phase) {
      EarlyMoves(s, work, outcome);
    } else {
      LateMoves(s, work, outcome);
    }
  }

  lemma SpawnSettled(s: State, f: Fiber, borrowing: bool, id: Id)
    requires StructureInv(s) && Usable(s.p) && id in s.p.callers && Settled(s.p.callers[id])
    ensures id in DoSpawn(s, f, borrowing).p.callers && Settled(DoSpawn(s, f, borrowing).p.callers[id])
  {
    assert s.p.nextId !in s.p.calls;
  }

  lemma OuterSettled(s: State, step: Step, id: Id)
    requires StructureInv(s) && OuterEnabled(s, step) && id in s.p.callers && Settled(s.p.callers[id])
    ensures id in ApplyOuter(s, step).p.callers && Settled(ApplyOuter(s, step).p.callers[id])
  {
    if step.Spawn? && Usable(s.p) {
      SpawnSettled(s, step.fiber, step.borrowing, id);
    }
  }

  lemma SuspendSettled(s: State, step: Step, id: Id)
    requires StructureInv(s) && InnerEnabled(s, step) && Suspends(step) && id in s.p.callers && Settled(s.p.callers[id])
    ensures id in ApplyInner(s, step).p.callers && Settled(ApplyInner(s, step).p.callers[id])
  {
  }

  lemma TakeSettled(s: State, id: Id)
    requires CanCheckSlot(s) && id in s.p.callers && Settled(s.p.callers[id])
    ensures id in DoTake(s).p.callers && Settled(DoTake(s).p.callers[id])
  {
  }

  lemma InnerSettled(s: State, step: Step)
    requires InnerEnabled(s, step) && !Suspends(step) && !step.CheckSlot? && !Collects(step)
    ensures ApplyInner(s, step).p.callers == s.p.callers
  {
  }

  lemma CollectSettled(s: State, step: Step)
    requires InnerEnabled(s, step) && Collects(step)
    ensures ApplyInner(s, step).p.callers == s.p.callers
  {
    if step.Receive? {
      if ReceiveEnds(s.p) {
      }
    } else if step.Collect? {
      if CollectEnds(s.p) {
      }
    }
  }

  /** A call suspends once. */
  lemma SettledStays(s: State, step: Step, id: Id)
    requires StructureInv(s) && Enabled(s, step) && id in s.p.callers && Settled(s.p.callers[id])
    ensures id in Apply(s, step).p.callers && Settled(Apply(s, step).p.callers[id])
  {
    if step.Work? {
      WorkSettled(s, step.id, step.outcome);
    } else if Outer(step) {
      OuterSettled(s, step, id);
    } else if Suspends(step) {
      SuspendSettled(s, step, id);
    } else if Collects(step) {
      CollectSettled(s, step);
    } else if step.CheckSlot? {
      TakeSettled(s, id);
    } else {
      InnerSettled(s, step);
    }
  }

  /** The calls of this process are still its calls; those that are settled still are. */
  ghost predicate Later(s: State, s': State) {
    && s'.p.pid == s.p.pid
    && (forall id | OwnCall(s.p, id) :: OwnCall(s'.p, id) && s'.p.calls[id] == s.p.calls[id])
    && (forall id | id in s.p.callers && Settled(s.p.callers[id]) :: id in s'.p.callers && Settled(s'.p.callers[id]))
  }

  lemma OwnStays(s: State, step: Step, id: Id)
    requires StructureInv(s) && Enabled(s, step) && OwnCall(s.p, id)
    ensures OwnCall(Apply(s, step).p, id) && Apply(s, step).p.calls[id] == s.p.calls[id]
  {
    StepFrame(s, step);
    Isolation.StepKeepsCalls(s, step);
    StepKeepsStructure(s, step);
  }

  lemma StepLater(s: State, step: Step)
    requires StructureInv(s) && Enabled(s, step)
    ensures Later(s, Apply(s, step))
  {
    StepFrame(s, step);
    forall id | OwnCall(s.p, id)
      ensures OwnCall(Apply(s, step).p, id) && Apply(s, step).p.calls[id] == s.p.calls[id]
    {
      OwnStays(s, step, id);
    }
    forall id | id in s.p.callers && Settled(s.p.callers[id])
      ensures id in Apply(s, step).p.callers && Settled(Apply(s, step).p.callers[id])
    {
      SettledStays(s, step, id);
    }
  }

  lemma LaterHere(s: State)
    ensures Later(s, s)
  {
  }

  lemma OuterToResume(s: State, step: Step, id: Id)
    requires OuterEnabled(s, step) && id in s.p.toResume && !(step.ResumeCall? && step.id == id)
    ensures id in ApplyOuter(s, step).p.toResume
  {
  }

  lemma SuspendToResume(s: State, step: Step)
    requires InnerEnabled(s, step) && Suspends(step)
    ensures ApplyInner(s, step).p.toResume == s.p.toResume
  {
  }

  lemma CollectToResume(s: State, step: Step, id: Id)
    requires InnerEnabled(s, step) && Collects(step) && id in s.p.toResume
    ensures id in ApplyInner(s, step).p.toResume
  {
    if step.Receive? {
      if ReceiveEnds(s.p) {
      }
    } else if step.Collect? {
      if CollectEnds(s.p) {
      }
    }
  }

  lemma TakeToResume(s: State)
    requires CanCheckSlot(s)
    ensures DoTake(s).p.toResume == s.p.toResume
  {
  }

  lemma CheckSlotToResume(s: State)
    requires CanCheckSlot(s)
    ensures DoCheckSlot(s).p.toResume == s.p.toResume
  {
    TakeToResume(s);
    assert DoCheckSlot(s) == DoSleep(s) || DoCheckSlot(s) == DoTake(s);
  }

  lemma WaitToResume(s: State, step: Step)
    requires InnerEnabled(s, step) && !Suspends(step) && !Collects(step) && !step.CheckSlot?
    ensures ApplyInner(s, step).p.toResume == s.p.toResume
  {
  }

  /** A `resume` call to come comes, or is still to come. */
  lemma ToResumeStays(s: State, step: Step, id: Id)
    requires Enabled(s, step) && id in s.p.toResume && !(step.ResumeCall? && step.id == id)
    ensures id in Apply(s, step).p.toResume
  {
    if step.Work? {
      if Early(s.p.tasks[step.id].phase) {
        EarlyMoves(s, step.id, step.outcome);
      } else {
        LateMoves(s, step.id, step.outcome);
      }
    } else if Outer(step) {
      OuterToResume(s, step, id);
    } else if Suspends(step) {
      SuspendToResume(s, step);
    } else if Collects(step) {
      CollectToResume(s, step, id);
    } else if step.CheckSlot? {
      CheckSlotToResume(s);
    } else {
      WaitToResume(s, step);
    }
  }

  lemma MineStay(s: State, step: Step, mine: set<Id>)
    requires Enabled(s, step) && mine <= s.p.toResume && !(step.ResumeCall? && step.id in mine)
    ensures mine <= Apply(s, step).p.toResume
  {
    forall id | id in mine
      ensures id in Apply(s, step).p.toResume
    {
      ToResumeStays(s, step, id);
    }
  }

  /** After its `resume` call, a caller is not suspended: its fiber was in no other call. */
  lemma ResumeSettles(s: State, id: Id, target: Option<Id>)
    requires StructureInv(s) && FibersOk(s.p.calls, s.p.callers) && CanResume(s, id, target)
    ensures id in DoResumeCall(s, id, target).p.callers && Settled(DoResumeCall(s, id, target).p.callers[id])
    ensures Later(s, DoResumeCall(s, id, target))
  {
    StepLater(s, ResumeCall(id, target));
  }

  lemma LaterOn(s: State, t: State, u: State)
    requires Later(s, t) && Later(t, u)
    ensures Later(s, u)
  {
  }

  // ----- `resume`

  /** The ready list from `i` on. */
  function ToCome(ready: seq<Id>, i: nat): set<Id> {
    set k | i <= k < |ready| :: ready[k]
  }

  /** The callers of the ready list, from `i` up to `j`, are not suspended any more. */
  predicate AllSettled(callers: map<Id, Caller>, ready: seq<Id>, i: nat, j: nat)
    requires j <= |ready|
  {
    forall k | i <= k < j :: ready[k] in callers && Settled(callers[ready[k]])
  }

  lemma SettledLater(s: State, t: State, id: Id)
    requires Later(s, t) && id in s.p.callers && Settled(s.p.callers[id])
    ensures id in t.p.callers && Settled(t.p.callers[id])
  {
  }

  lemma AllSettledLater(s: State, t: State, ready: seq<Id>, i: nat, j: nat)
    requires j <= |ready| && Later(s, t) && AllSettled(s.p.callers, ready, i, j)
    ensures AllSettled(t.p.callers, ready, i, j)
  {
    forall k | i <= k < j
      ensures ready[k] in t.p.callers && Settled(t.p.callers[ready[k]])
    {
      assert ready[k] in s.p.callers && Settled(s.p.callers[ready[k]]);
      SettledLater(s, t, ready[k]);
    }
  }

  lemma NextToCome(ready: seq<Id>, i: nat)
    requires Distinct(ready) && i < |ready|
    ensures ready[i] in ToCome(ready, i) && ToCome(ready, i + 1) == ToCome(ready, i) - {ready[i]}
  {
  }

  /** The ready list, from `i` up to `j`. */
  function Among(ready: seq<Id>, i: nat, j: nat): set<Id> {
    set k | i <= k < j && k < |ready| :: ready[k]
  }

  /** Some call of the fiber of one of `ids` became resumable; nothing else changed. */
  predicate Resumes(p: Proc, c: Caller, c': Caller, t: Id, ids: set<Id>) {
    && c.Suspended? && c'.Resumable? && t in p.calls
    && exists id :: id in ids && id in p.calls && p.calls[id].fiber == p.calls[t].fiber
  }

  /** Since `s`, nothing but the `resume` calls for `ids`. */
  ghost predicate OnlyResumed(s: State, s': State, ids: set<Id>) {
    && s' == s.(p := s.p.(toResume := s.p.toResume - ids, callers := s'.p.callers))
    && s'.p.callers.Keys == s.p.callers.Keys
    && forall t | t in s.p.callers :: s'.p.callers[t] == s.p.callers[t] || Resumes(s.p, s.p.callers[t], s'.p.callers[t], t, ids)
  }

  lemma OnlyResumedHere(s: State)
    ensures OnlyResumed(s, s, {})
  {
    assert s.p.toResume - {} == s.p.toResume;
  }

  lemma ResumesMore(p: Proc, c: Caller, c': Caller, t: Id, ids: set<Id>, more: set<Id>)
    requires Resumes(p, c, c', t, ids) && ids <= more
    ensures Resumes(p, c, c', t, more)
  {
  }

  lemma OnlyResumedOn(s: State, t: State, u: State, ids: set<Id>, more: set<Id>)
    requires OnlyResumed(s, t, ids) && OnlyResumed(t, u, more)
    ensures OnlyResumed(s, u, ids + more)
  {
    assert s.p.toResume - ids - more == s.p.toResume - (ids + more);
    forall c | c in s.p.callers
      ensures u.p.callers[c] == s.p.callers[c] || Resumes(s.p, s.p.callers[c], u.p.callers[c], c, ids + more)
    {
      if t.p.callers[c] != s.p.callers[c] {
        ResumesMore(s.p, s.p.callers[c], t.p.callers[c], c, ids, ids + more);
      } else if u.p.callers[c] != t.p.callers[c] {
        ResumesMore(t.p, t.p.callers[c], u.p.callers[c], c, more, ids + more);
      }
    }
  }

  lemma ResumeCallOnly(s: State, id: Id, target: Option<Id>)
    requires CanResume(s, id, target)
    ensures OnlyResumed(s, DoResumeCall(s, id, target), {id})
  {
    assert id in {id} && id in s.p.calls;
  }

  lemma AmongOne(ready: seq<Id>, i: nat, j: nat)
    requires i <= j < |ready|
    ensures Among(ready, i, j + 1) == Among(ready, i, j) + {ready[j]}
  {
  }

  lemma CollectedToResume(s0: State, s: State, l: LoopId, ids: seq<Id>)
    requires Collected(s0, s, l, ids)
    ensures Distinct(Sift(s0.p.suspensions[l], ids)) && ToCome(Sift(s0.p.suspensions[l], ids), 0) <= s.p.toResume
  {
    SiftIsExact(s0.p.suspensions[l], ids);
  }

  /** What was in the channel was collected. */
  lemma CollectedAll(s0: State, s: State, l: LoopId, ids: seq<Id>)
    requires Collected(s0, s, l, ids)
    ensures forall id | id in s0.p.channels[l].queue && id in s0.p.suspensions[l] :: id in Sift(s0.p.suspensions[l], ids)
  {
    SiftIsExact(s0.p.suspensions[l], ids);
    assert ids + s.p.channels[l].queue == ids;
  }

  /** The callers whose IDs were in the channel of `l` at `s0`. */
  predicate AllResumed(s0: State, l: LoopId, callers: map<Id, Caller>)
    requires l in s0.p.channels && l in s0.p.suspensions
  {
    forall id | id in s0.p.channels[l].queue && id in s0.p.suspensions[l] :: id in callers && Settled(callers[id])
  }

  lemma ResumedAll(s0: State, s: State, l: LoopId, ids: seq<Id>, callers: map<Id, Caller>)
    requires Collected(s0, s, l, ids)
    requires AllSettled(callers, Sift(s0.p.suspensions[l], ids), 0, |Sift(s0.p.suspensions[l], ids)|)
    ensures AllResumed(s0, l, callers)
  {
    CollectedAll(s0, s, l, ids);
  }

  // ----- The end of `suspend_on` and `try_suspend_on`, without a resumption

  /** Since `p`, the caller of `id` left. */
  predicate Departs(p: Proc, p': Proc, id: Id, how: Ending, blocked: bool) {
    && id in p.calls && id in p.callers && p.calls[id].loop in p.loops && id in p'.callers && p'.callers[id].Left?
    && p'.callers == p.callers[id := p'.callers[id]]
    && var exit, forked := p'.callers[id].exit, p.loops[p.calls[id].loop].pid != p.pid;
       if !p.calls[id].borrowing then
         !blocked && exit == (match how case Failing => SuspendFailed case Exiting => Exited case Throwing => Threw)
       else if forked then
         !blocked && exit == PendingAcrossFork
       else
         && id in p'.tasks && p'.tasks[id].outcome.Some?
         && exit == ExitOf(p'.tasks[id].outcome.value)
  }

  /** The caller of `id` has nothing to do here: it is not off the stack any more, or it is suspended, and not interrupted. */
  predicate StillAway(callers: map<Id, Caller>, id: Id, interrupted: bool) {
    id in callers && (!OffStack(callers[id]) || (!interrupted && callers[id].Suspended?))
  }

  /** How the caller comes back: resumed, or not. */
  function Way(ok: bool, interrupted: bool, exit: bool): Option<Ending> {
    if !ok then Some(Failing) else if interrupted then Some(if exit then Exiting else Throwing) else None
  }

  /** The caller of `id`, a call of this process, left: with the result of its own future, if it was resumed, or if that future
      may borrow from it; else with what interrupted it. */
  predicate Finished(p: Proc, id: Id, how: Option<Ending>) {
    && OwnCall(p, id) && p.callers[id].Left?
    && var exit := p.callers[id].exit;
       if how == None || p.calls[id].borrowing then
         p.tasks[id].outcome.Some? && exit == ExitOf(p.tasks[id].outcome.value)
       else
         exit == match how.value case Failing => SuspendFailed case Exiting => Exited case Throwing => Threw
  }

  /** The loop of EVENTLOOP, if any, does not have the ID. */
  predicate Unlisted(p: Proc, id: Id) {
    p.current.Some? && p.current.value in p.suspensions ==> id !in p.suspensions[p.current.value]
  }
}
