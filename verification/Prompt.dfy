/** How many bytes the socket holds, by the calls of `wakeup` and `drain` that came without a readable stream. */
module Prompts {
  import opened Basics
  import opened States
  import opened Steps
  import opened Invariant
  import opened KeepsStructure
  import opened KeepsCounting
  import opened Worlds
  import opened Progress

  /** Bytes, writes in flight, and the write that a clear flag allows, after `unasked` calls on an unreadable stream: each
      lets one more byte straddle. */
  predicate PromptAt(here: Pc, f: Flag, bytes: nat, writers: nat, unasked: nat) {
    var all := bytes + writers + AsNat(!f.pending);
    && f.straddlers <= unasked
    && if here.Receiving? || here.Draining? then all <= unasked || (bytes >= 1 && all <= unasked + 1)
       else if here.Rearming? then all <= unasked
       else all <= unasked + 1
  }

  /** The program counter, if it is inside the loop `l`. */
  function Here(current: Option<LoopId>, pc: Pc, l: LoopId): Pc {
    if current == Some(l) then pc else Idle
  }

  predicate PromptOk(own: set<LoopId>, current: Option<LoopId>, pc: Pc, loops: map<LoopId, Loop>, calls: Calls, tasks: TaskMap,
                     flags: map<LoopId, Flag>, sockets: map<Sock, nat>, l: LoopId, unasked: nat)
  {
    l in own && l in flags && l in loops && loops[l].socket in sockets ==>
      PromptAt(Here(current, pc, l), flags[l], sockets[loops[l].socket], |Writers(calls, tasks, l)|, unasked)
  }

  predicate PromptInv(s: State, l: LoopId, unasked: nat) {
    PromptOk(Own(s.p.pid, s.p.loops), s.p.current, s.p.pc, s.p.loops, s.p.calls, s.p.tasks, s.p.flags, s.sockets, l, unasked)
  }

  /** PHP code is asked to call `wakeup`, and `drain`, only when the stream is readable. */
  predicate Unasked(s: State, step: Step, l: LoopId) {
    (step.Wakeup? || step.Drain?) && Usable(s.p) && s.p.current == Some(l) && !StreamReadable(s)
  }

  // ----- Every step keeps it

  predicate SameAsk(pc: Pc, pc': Pc) {
    && (pc.Receiving? <==> pc'.Receiving?) && (pc.Draining? <==> pc'.Draining?) && (pc.Rearming? <==> pc'.Rearming?)
  }

  lemma SamePrompt(s: State, s': State, l: LoopId, unasked: nat)
    requires PromptInv(s, l, unasked) && SameWakeup(s, s') && SameAsk(s.p.pc, s'.p.pc)
    ensures PromptInv(s', l, unasked)
  {
    SameSets(s.p.calls, s.p.tasks, s'.p.tasks, l);
  }

  lemma WorkAsk(s: State, id: Id, outcome: Outcome)
    requires CanWork(s, id)
    ensures SameAsk(s.p.pc, DoWork(s, id, outcome).p.pc)
  {
    WorkKeepsPlace(s, id, outcome);
  }

  lemma SendPrompt(s: State, id: Id, l: LoopId, u: nat)
    requires PromptInv(s, l, u) && CanWork(s, id) && s.p.tasks[id].phase.Sending?
    ensures PromptInv(WorkSend(s, id), l, u)
  {
    SetsMove(s.p.calls, s.p.tasks, WorkSend(s, id).p.tasks, id);
  }

  lemma SwapPrompt(s: State, id: Id, l: LoopId, u: nat)
    requires SocketInv(s) && PromptInv(s, l, u) && CanWork(s, id) && s.p.tasks[id].phase.Swapping?
    ensures PromptInv(WorkSwap(s, id), l, u)
  {
    CountsMove(s.p.calls, s.p.tasks, WorkSwap(s, id).p.tasks, id);
  }

  lemma WritePrompt(s: State, id: Id, l: LoopId, u: nat)
    requires SocketInv(s) && PromptInv(s, l, u) && WorkersOk(s.p.loops, s.p.calls, s.p.tasks)
    requires CanWork(s, id) && s.p.tasks[id].phase.Writing?
    ensures PromptInv(WorkWrite(s, id), l, u)
  {
    assert id in Writers(s.p.calls, s.p.tasks, s.p.calls[id].loop);
    CountsMove(s.p.calls, s.p.tasks, WorkWrite(s, id).p.tasks, id);
  }

  lemma WorkPrompt(s: State, id: Id, outcome: Outcome, l: LoopId, u: nat)
    requires SocketInv(s) && WorkersOk(s.p.loops, s.p.calls, s.p.tasks) && PromptInv(s, l, u) && CanWork(s, id)
    ensures PromptInv(DoWork(s, id, outcome), l, u)
  {
    if s.p.tasks[id].phase.Sending? {
      SendPrompt(s, id, l, u);
    } else if s.p.tasks[id].phase.Swapping? {
      SwapPrompt(s, id, l, u);
    } else if s.p.tasks[id].phase.Writing? {
      WritePrompt(s, id, l, u);
    } else {
      if Early(s.p.tasks[id].phase) {
        EarlyWakeup(s, id, outcome);
      } else {
        LateWakeup(s, id, outcome);
      }
      WorkAsk(s, id, outcome);
      SamePrompt(s, DoWork(s, id, outcome), l, u);
    }
  }

  lemma InitPrompt(s: State, step: Step, l: LoopId, u: nat)
    requires StructureInv(s) && SocketInv(s) && PromptInv(s, l, u)
    requires step.Init? && OuterEnabled(s, step) && Initializes(s.p, step.owned)
    ensures PromptInv(ApplyOuter(s, step), l, u)
  {
    NoCalls(s.p, step.loop);
  }

  lemma SpawnPrompt(s: State, f: Fiber, borrowing: bool, l: LoopId, u: nat)
    requires StructureInv(s) && PromptInv(s, l, u) && s.p.pc.Idle? && Usable(s.p)
    ensures PromptInv(DoSpawn(s, f, borrowing), l, u)
  {
    SpawnSets(s.p, s.p.nextId, Call(s.p.current.value, borrowing, f));
  }

  lemma ShutdownPrompt(s: State, l: LoopId, u: nat)
    requires PromptInv(s, l, u) && s.p.pc.Idle?
    ensures PromptInv(DoShutdown(s), l, u)
  {
  }

  lemma EnterPrompt(s: State, step: Step, l: LoopId, u: nat)
    requires PromptInv(s, l, u) && s.p.order == DrainFirst && s.p.pc.Idle? && Usable(s.p) && (step.Wakeup? || step.Drain?)
    ensures PromptInv(ApplyOuter(s, step), l, u + AsNat(Unasked(s, step, l)))
  {
    assert s.p.current.value in Own(s.p.pid, s.p.loops);
  }

  lemma CallerAsk(s: State, step: Step)
    requires OuterEnabled(s, step) && !step.Init? && !step.Spawn? && !Entry(step)
    ensures SameAsk(s.p.pc, ApplyOuter(s, step).p.pc)
  {
  }

  lemma OuterPrompt(s: State, step: Step, l: LoopId, u: nat)
    requires StructureInv(s) && SocketInv(s) && PromptInv(s, l, u) && OuterEnabled(s, step)
    ensures PromptInv(ApplyOuter(s, step), l, u + AsNat(Unasked(s, step, l)))
  {
    if step.Init? {
      if Initializes(s.p, step.owned) {
        InitPrompt(s, step, l, u);
      }
    } else if step.Spawn? {
      if Usable(s.p) {
        SpawnPrompt(s, step.fiber, step.borrowing, l, u);
      }
    } else if step.Shutdown? {
      ShutdownPrompt(s, l, u);
    } else if Entry(step) {
      if Usable(s.p) {
        EnterPrompt(s, step, l, u);
      }
    } else {
      if step.Continue? || step.Interrupt? {
        RunWakeup(s, step);
      } else {
        ResumeWakeup(s, step);
      }
      CallerAsk(s, step);
      SamePrompt(s, ApplyOuter(s, step), l, u);
    }
  }

  lemma PopPrompt(s: State, pc: Pc, l: LoopId, u: nat)
    requires PromptInv(s, l, u) && Usable(s.p) && s.p.channels[s.p.current.value].queue != [] && SameAsk(s.p.pc, pc)
    ensures PromptInv(Pop(s, pc), l, u)
  {
  }

  lemma StopReceivingPrompt(s: State, l: LoopId, u: nat)
    requires PromptInv(s, l, u) && s.p.order == DrainFirst && CanReceive(s)
    ensures PromptInv(DoStopReceiving(s), l, u)
  {
  }

  lemma ReadPrompt(s: State, l: LoopId, u: nat)
    requires SocketInv(s) && PromptInv(s, l, u) && CanRead(s) && Readable(s)
    ensures PromptInv(DoRead(s), l, u)
  {
  }

  /** Nothing straddles. */
  lemma ReadNothingPrompt(s: State, l: LoopId, u: nat)
    requires PromptInv(s, l, u) && s.p.order == DrainFirst && CanRead(s) && !Readable(s)
    ensures PromptInv(DoReadNothing(s), l, u)
  {
    assert s.p.current.value in Own(s.p.pid, s.p.loops);
  }

  lemma RearmPrompt(s: State, l: LoopId, u: nat)
    requires PromptInv(s, l, u) && s.p.order == DrainFirst && CanRearm(s)
    ensures PromptInv(DoRearm(s), l, u)
  {
    assert s.p.current.value in Own(s.p.pid, s.p.loops);
  }

  lemma StopCollectingPrompt(s: State, l: LoopId, u: nat)
    requires PromptInv(s, l, u) && CanCollect(s) && CollectEnds(s.p)
    ensures PromptInv(DoStopCollecting(s), l, u)
  {
  }

  lemma CollectingPrompt(s: State, step: Step, l: LoopId, u: nat)
    requires StructureInv(s) && SocketInv(s) && PromptInv(s, l, u) && InnerEnabled(s, step) && OnWakeup(step)
    ensures PromptInv(ApplyInner(s, step), l, u)
  {
    if step.Receive? {
      if ReceiveEnds(s.p) {
        StopReceivingPrompt(s, l, u);
      } else {
        PopPrompt(s, Receiving(Extended(s.p, s.p.pc.ready), s.p.pc.late), l, u);
      }
    } else if step.Read? {
      if Readable(s) {
        ReadPrompt(s, l, u);
      } else {
        ReadNothingPrompt(s, l, u);
      }
    } else if step.Rearm? {
      RearmPrompt(s, l, u);
    } else if CollectEnds(s.p) {
      StopCollectingPrompt(s, l, u);
    } else {
      PopPrompt(s, Collecting(Extended(s.p, s.p.pc.ready)), l, u);
    }
  }

  lemma DropLoopPrompt(s: State, l: LoopId, u: nat)
    requires PromptInv(s, l, u) && CanDropLoop(s)
    ensures PromptInv(DoDropLoop(s), l, u)
  {
  }

  lemma SuspendAsk(s: State, step: Step)
    requires InnerEnabled(s, step) && (Suspends(step) || step.DeadlinePasses?)
    ensures SameAsk(s.p.pc, ApplyInner(s, step).p.pc)
  {
  }

  lemma WaitAsk(s: State, step: Step)
    requires InnerEnabled(s, step) && !Suspends(step) && !Collects(step) && !step.DropLoop? && !step.CheckSlot?
    ensures SameAsk(s.p.pc, ApplyInner(s, step).p.pc)
  {
  }

  lemma TakeAsk(s: State)
    requires CanCheckSlot(s)
    ensures SameAsk(s.p.pc, DoTake(s).p.pc)
  {
  }

  lemma CheckSlotAsk(s: State)
    requires CanCheckSlot(s)
    ensures SameAsk(s.p.pc, DoCheckSlot(s).p.pc)
  {
    TakeAsk(s);
    assert DoCheckSlot(s) == DoSleep(s) || DoCheckSlot(s) == DoTake(s);
  }

  lemma InnerPrompt(s: State, step: Step, l: LoopId, u: nat)
    requires StructureInv(s) && SocketInv(s) && PromptInv(s, l, u) && InnerEnabled(s, step)
    ensures PromptInv(ApplyInner(s, step), l, u)
  {
    if OnWakeup(step) {
      CollectingPrompt(s, step, l, u);
    } else if step.DropLoop? {
      DropLoopPrompt(s, l, u);
    } else {
      InnerSameWakeup(s, step);
      if Suspends(step) || step.DeadlinePasses? {
        SuspendAsk(s, step);
      } else if step.CheckSlot? {
        CheckSlotAsk(s);
      } else {
        WaitAsk(s, step);
      }
      SamePrompt(s, ApplyInner(s, step), l, u);
    }
  }

  lemma StepKeepsPrompt(s: State, step: Step, l: LoopId, u: nat)
    requires StructureInv(s) && SocketInv(s) && WorkersOk(s.p.loops, s.p.calls, s.p.tasks) && PromptInv(s, l, u)
    requires Enabled(s, step)
    ensures PromptInv(Apply(s, step), l, u + AsNat(Unasked(s, step, l)))
  {
    if step.Work? {
      WorkPrompt(s, step.id, step.outcome, l, u);
    } else if Outer(step) {
      OuterPrompt(s, step, l, u);
    } else {
      InnerPrompt(s, step, l, u);
    }
  }

  // ----- Runs

  predicate UnaskedIn(w: World, step: WorldStep, pid: Pid, l: LoopId) {
    step.Local? && step.pid == pid && pid in w.procs && Unasked(At(w, pid), step.step, l)
  }

  /** The sum of `weight` over the steps of a run. */
  function Total<W, S>(ws: seq<W>, steps: seq<S>, weight: (W, S) -> nat): nat
    requires |ws| == |steps| + 1
    decreases |steps|
  {
    var n := |steps|;
    if n == 0 then 0 else Total(ws[..n], steps[..n - 1], weight) + weight(ws[n - 1], steps[n - 1])
  }

  /** What holds at the start, and of each step with its weight, holds of a run with its total. */
  lemma {:induction false} Totals<W, S>(ws: seq<W>, steps: seq<S>, next: (W, S, W) -> bool, weight: (W, S) -> nat,
                                        inv: (W, nat) -> bool)
    requires |ws| == |steps| + 1 && inv(ws[0], 0) && forall i :: 0 <= i < |steps| ==> next(ws[i], steps[i], ws[i + 1])
    requires forall w, step, w', u: nat | inv(w, u) && next(w, step, w') :: inv(w', u + weight(w, step))
    ensures inv(ws[|steps|], Total(ws, steps, weight))
    decreases |steps|
  {
    var n := |steps|;
    if n > 0 {
      Totals(ws[..n], steps[..n - 1], next, weight, inv);
      assert next(ws[n - 1], steps[n - 1], ws[n - 1 + 1]);
    }
  }

  function UnaskedWeight(pid: Pid, l: LoopId): (World, WorldStep) -> nat {
    (w, step) => AsNat(UnaskedIn(w, step, pid, l))
  }

  /** How many calls of `wakeup` and `drain` came, in a run, on a stream of this loop that was not readable. */
  function UnaskedCount(ws: seq<World>, steps: seq<WorldStep>, pid: Pid, l: LoopId): nat
    requires |ws| == |steps| + 1
  {
    Total(ws, steps, UnaskedWeight(pid, l))
  }

  lemma PromptFrame(p: Proc, sockets: Sockets, sockets': Sockets, l: LoopId, u: nat)
    requires SocketInv(State(p, sockets)) && PromptInv(State(p, sockets), l, u) && Agree(p, sockets, sockets')
    ensures PromptInv(State(p, sockets'), l, u)
  {
    assert forall l | l in Own(p.pid, p.loops) :: p.loops[l].socket in OwnSockets(p);
  }

  /** The invariant, with what it says of process `pid` after `u` such calls. */
  ghost predicate Both(s: State, pid: Pid, l: LoopId, u: nat) {
    Inv(s) && (s.p.pid == pid ==> PromptInv(s, l, u))
  }

  ghost function BothOf(pid: Pid, l: LoopId, u: nat): State -> bool {
    s => Both(s, pid, l, u)
  }

  ghost predicate PromptWorld(w: World, pid: Pid, l: LoopId, u: nat) {
    EachHolds(BothOf(pid, l, u), w.procs, w.sockets) && Apart(w.procs, w.sockets) && PidsKnown(w.procs)
  }

  ghost function PromptOf(pid: Pid, l: LoopId): (World, nat) -> bool {
    (w, u: nat) => PromptWorld(w, pid, l, u)
  }

  lemma PromptIs(w: World, pid: Pid, l: LoopId, u: nat)
    ensures PromptOf(pid, l)(w, u) == PromptWorld(w, pid, l, u)
  {
  }

  lemma BothFramed(pid: Pid, l: LoopId, u: nat)
    ensures Framed(BothOf(pid, l, u))
  {
    forall p, sockets, sockets' | BothOf(pid, l, u)(State(p, sockets)) && Agree(p, sockets, sockets')
      ensures BothOf(pid, l, u)(State(p, sockets'))
    {
      InvFrame(p, sockets, sockets');
      if p.pid == pid {
        PromptFrame(p, sockets, sockets', l, u);
      }
    }
  }

  lemma PromptGrows(s: State, l: LoopId, u: nat, u': nat)
    requires PromptInv(s, l, u) && u <= u'
    ensures PromptInv(s, l, u')
  {
  }

  lemma BothGrows(w: World, pid: Pid, l: LoopId, u: nat, u': nat)
    requires PromptWorld(w, pid, l, u) && u <= u'
    ensures PromptWorld(w, pid, l, u')
  {
    forall q | q in w.procs
      ensures w.procs[q].pid == q && BothOf(pid, l, u')(State(w.procs[q], w.sockets))
    {
      var s := State(w.procs[q], w.sockets);
      assert BothOf(pid, l, u)(s);
      if q == pid {
        PromptGrows(s, l, u, u');
      }
    }
  }

  lemma StepKeepsBoth(s: State, step: Step, pid: Pid, l: LoopId, u: nat, u': nat)
    requires Both(s, pid, l, u) && Enabled(s, step) && u' == u + if s.p.pid == pid then AsNat(Unasked(s, step, l)) else 0
    ensures Both(Apply(s, step), pid, l, u') && OwnSockets(Apply(s, step).p) <= Apply(s, step).sockets.Keys
  {
    StepKeepsInv(s, step);
    StepFrame(s, step);
    if s.p.pid == pid {
      StepKeepsPrompt(s, step, l, u);
    }
    OwnSocketsExist(Apply(s, step));
  }

  lemma LocalKeepsPrompt(w: World, q: Pid, step: Step, pid: Pid, l: LoopId, u: nat, u': nat)
    requires PromptOf(pid, l)(w, u) && WorldEnabled(w, Local(q, step))
    requires u' == u + if q == pid then AsNat(Unasked(At(w, q), step, l)) else 0
    ensures PromptOf(pid, l)(WorldApply(w, Local(q, step)), u')
  {
    PromptIs(w, pid, l, u);
    assert BothOf(pid, l, u)(State(w.procs[q], w.sockets));
    StepKeepsBoth(At(w, q), step, pid, l, u, u');
    BothFramed(pid, l, u');
    BothGrows(w, pid, l, u, u');
    LocalKeeps(BothOf(pid, l, u'), w, q, step);
    PromptIs(WorldApply(w, Local(q, step)), pid, l, u');
  }

  lemma ForkPrompt(p: Proc, child: Pid, sockets: Sockets, pid: Pid, l: LoopId, u: nat)
    requires Both(State(p, sockets), pid, l, u) && p.pc.Idle? && Own(child, p.loops) == {}
    ensures Both(State(p.(pid := child), sockets), pid, l, u)
  {
    ForkInv(p, child, sockets);
  }

  lemma ForkKeepsPrompt(w: World, parent: Pid, child: Pid, pid: Pid, l: LoopId, u: nat)
    requires PromptOf(pid, l)(w, u) && WorldEnabled(w, Fork(parent, child))
    ensures PromptOf(pid, l)(WorldApply(w, Fork(parent, child)), u)
  {
    PromptIs(w, pid, l, u);
    var p := w.procs[parent];
    assert forall l | l in p.loops :: w.procs[parent].loops[l].pid in w.procs;
    assert Own(child, p.loops) == {};
    assert BothOf(pid, l, u)(State(p, w.sockets));
    ForkPrompt(p, child, w.sockets, pid, l, u);
    assert OwnSockets(p.(pid := child)) == {};
    AddOneProcess(BothOf(pid, l, u), w.procs, w.sockets, p.(pid := child));
    PromptIs(WorldApply(w, Fork(parent, child)), pid, l, u);
  }

  type Weight = (World, WorldStep) -> nat

  ghost predicate LocalsKeep(inv: (World, nat) -> bool, weight: Weight) {
    forall w, pid, step, u: nat | inv(w, u) && WorldEnabled(w, Local(pid, step)) ::
      inv(WorldApply(w, Local(pid, step)), u + weight(w, Local(pid, step)))
  }

  ghost predicate ForksKeep(inv: (World, nat) -> bool, weight: Weight) {
    forall w, pid, child, u: nat | inv(w, u) && WorldEnabled(w, Fork(pid, child)) ::
      inv(WorldApply(w, Fork(pid, child)), u + weight(w, Fork(pid, child)))
  }

  ghost predicate Goes(w: World, step: WorldStep, w': World) {
    WorldEnabled(w, step) && w' == WorldApply(w, step)
  }

  lemma EachKeeps(inv: (World, nat) -> bool, weight: Weight, w: World, step: WorldStep, w': World, u: nat)
    requires LocalsKeep(inv, weight) && ForksKeep(inv, weight) && inv(w, u) && Goes(w, step, w')
    ensures inv(w', u + weight(w, step))
  {
    match step
    case Local(pid, step) => assert w' == WorldApply(w, Local(pid, step));
    case Fork(pid, child) => assert w' == WorldApply(w, Fork(pid, child));
  }

  lemma ForkWeighs(w: World, parent: Pid, child: Pid, pid: Pid, l: LoopId)
    ensures UnaskedWeight(pid, l)(w, Fork(parent, child)) == 0
  {
  }

  lemma LocalWeighs(w: World, q: Pid, step: Step, pid: Pid, l: LoopId)
    requires q in w.procs
    ensures UnaskedWeight(pid, l)(w, Local(q, step)) == if q == pid then AsNat(Unasked(At(w, q), step, l)) else 0
  {
  }

  lemma LocalGoes(w: World, q: Pid, step: Step, pid: Pid, l: LoopId, u: nat)
    requires PromptOf(pid, l)(w, u) && WorldEnabled(w, Local(q, step))
    ensures PromptOf(pid, l)(WorldApply(w, Local(q, step)), u + UnaskedWeight(pid, l)(w, Local(q, step)))
  {
    LocalWeighs(w, q, step, pid, l);
    LocalKeepsPrompt(w, q, step, pid, l, u, u + UnaskedWeight(pid, l)(w, Local(q, step)));
  }

  lemma ForkGoes(w: World, parent: Pid, child: Pid, pid: Pid, l: LoopId, u: nat)
    requires PromptOf(pid, l)(w, u) && WorldEnabled(w, Fork(parent, child))
    ensures PromptOf(pid, l)(WorldApply(w, Fork(parent, child)), u + UnaskedWeight(pid, l)(w, Fork(parent, child)))
  {
    ForkWeighs(w, parent, child, pid, l);
    ForkKeepsPrompt(w, parent, child, pid, l, u);
  }

  lemma LocalsGo(pid: Pid, l: LoopId)
    ensures LocalsKeep(PromptOf(pid, l), UnaskedWeight(pid, l))
  {
    forall w, q, step, u: nat | PromptOf(pid, l)(w, u) && WorldEnabled(w, Local(q, step))
      ensures PromptOf(pid, l)(WorldApply(w, Local(q, step)), u + UnaskedWeight(pid, l)(w, Local(q, step)))
    {
      LocalGoes(w, q, step, pid, l, u);
    }
  }

  lemma ForksGo(pid: Pid, l: LoopId)
    ensures ForksKeep(PromptOf(pid, l), UnaskedWeight(pid, l))
  {
    forall w, parent, child, u: nat | PromptOf(pid, l)(w, u) && WorldEnabled(w, Fork(parent, child))
      ensures PromptOf(pid, l)(WorldApply(w, Fork(parent, child)), u + UnaskedWeight(pid, l)(w, Fork(parent, child)))
    {
      ForkGoes(w, parent, child, pid, l, u);
    }
  }

  lemma InitialBoth(first: Pid, sockets: Sockets, pid: Pid, l: LoopId)
    ensures Both(State(InitialProc(first, DrainFirst), sockets), pid, l, 0) && OwnSockets(InitialProc(first, DrainFirst)) == {}
  {
    InitialInv(first, sockets);
  }

  lemma InitialPrompt(w: World, pid: Pid, l: LoopId)
    requires Initial(w, DrainFirst)
    ensures PromptWorld(w, pid, l, 0)
  {
    var first :| first in w.procs && w.procs == map[first := InitialProc(first, DrainFirst)];
    InitialBoth(first, w.sockets, pid, l);
    AddOneProcess(BothOf(pid, l, 0), map[], w.sockets, InitialProc(first, DrainFirst));
    assert w.procs == map[][first := InitialProc(first, DrainFirst)];
  }

  lemma RunKeeps(ws: seq<World>, steps: seq<WorldStep>, inv: (World, nat) -> bool, weight: Weight)
    requires Follows(ws, steps) && inv(ws[0], 0) && LocalsKeep(inv, weight) && ForksKeep(inv, weight)
    ensures inv(ws[|steps|], Total(ws, steps, weight))
  {
    forall w, step, w', u: nat | inv(w, u) && Goes(w, step, w')
      ensures inv(w', u + weight(w, step))
    {
      EachKeeps(inv, weight, w, step, w', u);
    }
    Totals(ws, steps, Goes, weight, inv);
  }

  lemma RunKeepsPrompt(ws: seq<World>, steps: seq<WorldStep>, pid: Pid, l: LoopId)
    requires Follows(ws, steps) && Initial(ws[0], DrainFirst)
    ensures PromptWorld(ws[|steps|], pid, l, UnaskedCount(ws, steps, pid, l))
  {
    InitialPrompt(ws[0], pid, l);
    LocalsGo(pid, l);
    ForksGo(pid, l);
    RunKeeps(ws, steps, PromptOf(pid, l), UnaskedWeight(pid, l));
  }

  /** What the bytes depend on. */
  lemma PromptThere(ws: seq<World>, steps: seq<WorldStep>, pid: Pid, l: LoopId)
    requires Follows(ws, steps) && Initial(ws[0], DrainFirst) && pid in ws[|steps|].procs
    ensures var s := At(ws[|steps|], pid);
      s.p.pid == pid && StructureInv(s) && SocketInv(s) && PromptInv(s, l, UnaskedCount(ws, steps, pid, l))
  {
    RunKeepsPrompt(ws, steps, pid, l);
    assert BothOf(pid, l, UnaskedCount(ws, steps, pid, l))(State(ws[|steps|].procs[pid], ws[|steps|].sockets));
  }

  /** The socket holds at most one byte, writes in flight included, and one more for each call of `wakeup` or `drain` that
      came without a readable stream; and so many writes at most straddle a drain. */
  lemma BytesBound(ws: seq<World>, steps: seq<WorldStep>, pid: Pid, l: LoopId)
    requires Follows(ws, steps) && Initial(ws[0], DrainFirst)
    requires pid in ws[|steps|].procs && l in Own(pid, ws[|steps|].procs[pid].loops)
    ensures var w, p, unasked := ws[|steps|], ws[|steps|].procs[pid], UnaskedCount(ws, steps, pid, l);
      && l in p.flags && p.loops[l].socket in w.sockets
      && w.sockets[p.loops[l].socket] + |Writers(p.calls, p.tasks, l)| <= 1 + unasked
      && p.flags[l].straddlers <= unasked
  {
    PromptThere(ws, steps, pid, l);
  }

  lemma {:induction false} NoWeight<W, S>(ws: seq<W>, steps: seq<S>, weight: (W, S) -> nat)
    requires |ws| == |steps| + 1 && forall i :: 0 <= i < |steps| ==> weight(ws[i], steps[i]) == 0
    ensures Total(ws, steps, weight) == 0
    decreases |steps|
  {
    var n := |steps|;
    if n > 0 {
      NoWeight(ws[..n], steps[..n - 1], weight);
    }
  }

  /** With `wakeup` and `drain` called only when the stream is readable, the socket never holds more than one byte, writes in
      flight included, and no write ever straddles a drain. */
  lemma OneByte(ws: seq<World>, steps: seq<WorldStep>, pid: Pid, l: LoopId)
    requires Follows(ws, steps) && Initial(ws[0], DrainFirst)
    requires forall i :: 0 <= i < |steps| ==> !UnaskedIn(ws[i], steps[i], pid, l)
    requires pid in ws[|steps|].procs && l in Own(pid, ws[|steps|].procs[pid].loops)
    ensures var w, p := ws[|steps|], ws[|steps|].procs[pid];
      && l in p.flags && p.loops[l].socket in w.sockets
      && p.flags[l].straddlers == 0
      && w.sockets[p.loops[l].socket] + |Writers(p.calls, p.tasks, l)| <= 1
  {
    NoWeight(ws, steps, UnaskedWeight(pid, l));
    BytesBound(ws, steps, pid, l);
  }
}
