/** Processes that fork, and share the kernel's sockets; runs of all of them, interleaved in any order. */
module Worlds {
  import opened Basics
  import opened States
  import opened Steps
  import opened Invariant
  import KeepsStructure
  import KeepsSlots
  import KeepsHandover
  import KeepsCounting

  datatype World = World(procs: map<Pid, Proc>, sockets: map<Sock, nat>)

  datatype WorldStep = Local(pid: Pid, step: Step) | Fork(pid: Pid, child: Pid)

  /** What process `pid` sees. */
  function At(w: World, pid: Pid): State
    requires pid in w.procs
  {
    State(w.procs[pid], w.sockets)
  }

  /** PHP code forks: pids are not reused. */
  predicate WorldEnabled(w: World, step: WorldStep) {
    match step
    case Local(pid, step) => pid in w.procs && Enabled(At(w, pid), step)
    case Fork(pid, child) => pid in w.procs && child !in w.procs && w.procs[pid].pc.Idle?
  }

  /** A fork copies the memory and shares the sockets; Tokio's threads stay in the parent. */
  function WorldApply(w: World, step: WorldStep): World
    requires WorldEnabled(w, step)
  {
    match step
    case Local(pid, step) =>
      var s := Apply(At(w, pid), step);
      World(w.procs[pid := s.p], s.sockets)
    case Fork(pid, child) =>
      w.(procs := w.procs[child := w.procs[pid].(pid := child)])
  }

  ghost predicate WorldNext(w: World, w': World) {
    exists step :: WorldEnabled(w, step) && w' == WorldApply(w, step)
  }

  predicate Initial(w: World, order: Order) {
    exists pid | pid in w.procs :: w.procs == map[pid := InitialProc(pid, order)]
  }

  ghost predicate Run(ws: seq<World>, order: Order) {
    && ws != [] && Initial(ws[0], order)
    && forall i :: 0 <= i < |ws| - 1 ==> WorldNext(ws[i], ws[i + 1])
  }

  /** Reached by some run of the code. */
  ghost predicate Reachable(w: World) {
    exists ws :: Run(ws, DrainFirst) && ws[|ws| - 1] == w
  }

  /** The steps of a run. */
  ghost predicate Follows(ws: seq<World>, steps: seq<WorldStep>) {
    && |ws| == |steps| + 1
    && forall i :: 0 <= i < |steps| ==> WorldEnabled(ws[i], steps[i]) && ws[i + 1] == WorldApply(ws[i], steps[i])
  }

  lemma FollowsNext(ws: seq<World>, steps: seq<WorldStep>)
    requires Follows(ws, steps)
    ensures forall k :: 0 <= k < |steps| ==> WorldNext(ws[k], ws[k + 1])
  {
    forall k | 0 <= k < |steps|
      ensures WorldNext(ws[k], ws[k + 1])
    {
      assert WorldEnabled(ws[k], steps[k]);
    }
  }

  // ----- One step of one process

  /** The sockets that the loops of a process itself are about. */
  function OwnSockets(p: Proc): set<Sock> {
    set l | l in Own(p.pid, p.loops) :: p.loops[l].socket
  }

  /** Sockets appear, never disappear; only the process's own, and new ones, change. */
  ghost predicate Touches(s: State, s': State, mine: set<Sock>) {
    && s.sockets.Keys <= s'.sockets.Keys
    && forall k | k in s.sockets && k !in mine :: s'.sockets[k] == s.sockets[k]
  }

  lemma InOwn(p: Proc, l: LoopId)
    requires l in p.loops && p.loops[l].pid == p.pid
    ensures p.loops[l].socket in OwnSockets(p)
  {
    assert l in Own(p.pid, p.loops);
  }

  // What no step changes: the process, and its loops, once they are there.

  predicate SameCalls(p: Proc, p': Proc) {
    p'.pid == p.pid && p'.loops == p.loops && p'.calls == p.calls && p'.nextId == p.nextId
  }

  lemma OuterFrame(s: State, step: Step)
    requires OuterEnabled(s, step) && !step.Init?
    ensures var s' := ApplyOuter(s, step); s'.p.pid == s.p.pid && s'.p.loops == s.p.loops && s'.sockets == s.sockets
  {
  }

  predicate Collects(step: Step) {
    step.DeadlinePasses? || step.Receive? || step.Read? || step.Rearm? || step.Collect?
  }

  predicate Suspends(step: Step) {
    step.Start? || step.Launch? || step.Suspend? || step.Unregister? || step.Return?
  }

  lemma CollectFrame(s: State, step: Step)
    requires InnerEnabled(s, step) && Collects(step)
    ensures var s' := ApplyInner(s, step); SameCalls(s.p, s'.p) && (step.Read? || s'.sockets == s.sockets)
  {
    match step
    case Receive =>
      if ReceiveEnds(s.p) {
      }
    case Collect =>
      if CollectEnds(s.p) {
      }
    case Read =>
      if Readable(s) {
      }
    case _ =>
  }

  lemma SuspendFrame(s: State, step: Step)
    requires InnerEnabled(s, step) && Suspends(step)
    ensures var s' := ApplyInner(s, step); SameCalls(s.p, s'.p) && s'.sockets == s.sockets
  {
  }

  lemma WaitFrame(s: State, step: Step)
    requires InnerEnabled(s, step) && !Collects(step) && !Suspends(step)
    ensures var s' := ApplyInner(s, step); SameCalls(s.p, s'.p) && s'.sockets == s.sockets
  {
  }

  lemma InnerFrame(s: State, step: Step)
    requires InnerEnabled(s, step)
    ensures var s' := ApplyInner(s, step); SameCalls(s.p, s'.p) && (step.Read? || s'.sockets == s.sockets)
  {
    if Collects(step) {
      CollectFrame(s, step);
    } else if Suspends(step) {
      SuspendFrame(s, step);
    } else {
      WaitFrame(s, step);
    }
  }

  lemma WorkFrame(s: State, id: Id, outcome: Outcome)
    requires CanWork(s, id)
    ensures SameCalls(s.p, DoWork(s, id, outcome).p)
  {
  }

  lemma StepFrame(s: State, step: Step)
    requires Enabled(s, step)
    ensures Apply(s, step).p.pid == s.p.pid
    ensures !step.Init? ==> Apply(s, step).p.loops == s.p.loops
    ensures step.Init? ==>
        Apply(s, step).p.loops == s.p.loops ||
        (Apply(s, step).p.loops == s.p.loops[step.loop := Apply(s, step).p.loops[step.loop]]
         && step.loop in Apply(s, step).p.loops && step.loop !in s.p.loops
         && Apply(s, step).p.loops[step.loop].pid == s.p.pid && Apply(s, step).p.loops[step.loop].socket !in s.sockets)
  {
    if step.Work? {
      WorkFrame(s, step.id, step.outcome);
    } else if !Outer(step) {
      InnerFrame(s, step);
    } else if !step.Init? {
      OuterFrame(s, step);
    }
  }

  /** The footprint of a step: whatever PHP code calls, wherever it is called. */
  lemma Footprint(s: State, step: Step)
    requires Enabled(s, step)
    ensures Touches(s, Apply(s, step), OwnSockets(s.p))
  {
    if step.Work? {
      InOwn(s.p, s.p.calls[step.id].loop);
    } else if step.Read? {
      InOwn(s.p, s.p.current.value);
    } else if !Outer(step) {
      InnerFrame(s, step);
    } else if !step.Init? {
      OuterFrame(s, step);
    }
  }

  lemma InitSockets(s: State, owned: bool, l: LoopId, k: Sock, workers: nat, capacity: nat)
    requires SocketInv(s) && CanInit(s, l, k, workers, capacity) && Initializes(s.p, owned)
    ensures SocketInv(DoInit(s, owned, l, k, workers, capacity))
  {
    var p' := DoInit(s, owned, l, k, workers, capacity).p;
    assert forall m | m in Own(p'.pid, p'.loops) && m != l :: m in Own(s.p.pid, s.p.loops);
  }

  lemma StepKeepsSockets(s: State, step: Step)
    requires SocketInv(s) && Enabled(s, step)
    ensures SocketInv(Apply(s, step))
  {
    if step.Init? {
      if Initializes(s.p, step.owned) {
        InitSockets(s, step.owned, step.loop, step.socket, step.workers, step.capacity);
      }
    } else {
      StepFrame(s, step);
      Footprint(s, step);
    }
  }

  lemma StepKeepsInv(s: State, step: Step)
    requires Inv(s) && Enabled(s, step)
    ensures Inv(Apply(s, step))
  {
    KeepsStructure.StepKeepsStructure(s, step);
    KeepsSlots.StepKeepsSlots(s, step);
    KeepsHandover.StepKeepsRegistry(s, step);
    KeepsHandover.StepKeepsFates(s, step);
    KeepsHandover.StepKeepsBorrows(s, step);
    KeepsCounting.StepKeepsCount(s, step);
    KeepsCounting.StepKeepsRuntimes(s, step);
    KeepsCounting.StepKeepsWakeup(s, step);
    KeepsStructure.StepKeepsFibers(s, step);
    StepKeepsSockets(s, step);
  }

  // ----- All the processes

  type Procs = map<Pid, Proc>
  type Sockets = map<Sock, nat>

  /** Every process satisfies `inv`. (A parameter: what follows is about processes side by side, whatever the invariant.) */
  ghost predicate EachHolds(inv: State -> bool, procs: Procs, sockets: Sockets) {
    forall pid | pid in procs :: procs[pid].pid == pid && inv(State(procs[pid], sockets))
  }

  /** No two processes own the same socket. */
  ghost predicate Apart(procs: Procs, sockets: Sockets) {
    && (forall p, q | p in procs && q in procs && p != q :: OwnSockets(procs[p]) !! OwnSockets(procs[q]))
    && (forall p | p in procs :: OwnSockets(procs[p]) <= sockets.Keys)
  }

  ghost predicate PidsKnown(procs: Procs) {
    forall pid, l | pid in procs && l in procs[pid].loops :: procs[pid].loops[l].pid in procs
  }

  ghost predicate WorldInv(w: World) {
    EachHolds(Inv, w.procs, w.sockets) && Apart(w.procs, w.sockets) && PidsKnown(w.procs)
  }

  /** The sockets of `p` did not change. */
  ghost predicate Agree(p: Proc, sockets: Sockets, sockets': Sockets) {
    && sockets.Keys <= sockets'.Keys
    && forall k | k in OwnSockets(p) && k in sockets :: sockets'[k] == sockets[k]
  }

  ghost predicate Framed(inv: State -> bool) {
    forall p, sockets, sockets' :: inv(State(p, sockets)) && Agree(p, sockets, sockets') ==> inv(State(p, sockets'))
  }

  lemma InvFrame(p: Proc, sockets: Sockets, sockets': Sockets)
    requires Inv(State(p, sockets)) && Agree(p, sockets, sockets')
    ensures Inv(State(p, sockets'))
  {
    assert forall l | l in Own(p.pid, p.loops) :: p.loops[l].socket in OwnSockets(p);
  }

  /** A process does not notice what happens to the sockets of others. */
  lemma InvFramed()
    ensures Framed(Inv)
  {
    forall p, sockets, sockets' | Inv(State(p, sockets)) && Agree(p, sockets, sockets')
      ensures Inv(State(p, sockets'))
    {
      InvFrame(p, sockets, sockets');
    }
  }

  lemma OwnSocketsStep(s: State, step: Step)
    requires Enabled(s, step)
    ensures forall k | k in OwnSockets(Apply(s, step).p) :: k in OwnSockets(s.p) || k !in s.sockets
  {
    StepFrame(s, step);
    var p' := Apply(s, step).p;
    forall k | k in OwnSockets(p')
      ensures k in OwnSockets(s.p) || k !in s.sockets
    {
      var l :| l in Own(p'.pid, p'.loops) && p'.loops[l].socket == k;
      if l in s.p.loops {
        InOwn(s.p, l);
      }
    }
  }

  lemma OwnSocketsExist(s: State)
    requires SocketInv(s)
    ensures OwnSockets(s.p) <= s.sockets.Keys
  {
  }

  /** One process steps to `s'`, among the others. */
  lemma ReplaceOne(inv: State -> bool, procs: Procs, sockets: Sockets, pid: Pid, s': State)
    requires Framed(inv) && EachHolds(inv, procs, sockets) && Apart(procs, sockets) && PidsKnown(procs)
    requires pid in procs && s'.p.pid == pid && inv(s') && Touches(State(procs[pid], sockets), s', OwnSockets(procs[pid]))
    requires forall k | k in OwnSockets(s'.p) :: k in s'.sockets && (k in OwnSockets(procs[pid]) || k !in sockets)
    requires forall l | l in s'.p.loops :: s'.p.loops[l].pid in procs
    ensures var procs' := procs[pid := s'.p];
      EachHolds(inv, procs', s'.sockets) && Apart(procs', s'.sockets) && PidsKnown(procs')
  {
    assert s' == State(s'.p, s'.sockets);
    forall q | q in procs && q != pid
      ensures inv(State(procs[q], s'.sockets)) && OwnSockets(procs[q]) !! OwnSockets(s'.p)
    {
      assert OwnSockets(procs[q]) !! OwnSockets(procs[pid]);
      assert Agree(procs[q], sockets, s'.sockets);
    }
  }

  lemma LocalKeeps(inv: State -> bool, w: World, pid: Pid, step: Step)
    requires Framed(inv) && EachHolds(inv, w.procs, w.sockets) && Apart(w.procs, w.sockets) && PidsKnown(w.procs)
    requires WorldEnabled(w, Local(pid, step)) && inv(Apply(At(w, pid), step))
    requires OwnSockets(Apply(At(w, pid), step).p) <= Apply(At(w, pid), step).sockets.Keys
    ensures var w' := WorldApply(w, Local(pid, step));
      EachHolds(inv, w'.procs, w'.sockets) && Apart(w'.procs, w'.sockets) && PidsKnown(w'.procs)
  {
    var s, s' := At(w, pid), Apply(At(w, pid), step);
    StepFrame(s, step);
    Footprint(s, step);
    OwnSocketsStep(s, step);
    ReplaceOne(inv, w.procs, w.sockets, pid, s');
  }

  lemma LocalKeepsWorld(w: World, pid: Pid, step: Step)
    requires WorldInv(w) && WorldEnabled(w, Local(pid, step))
    ensures WorldInv(WorldApply(w, Local(pid, step)))
  {
    StepKeepsInv(At(w, pid), step);
    OwnSocketsExist(Apply(At(w, pid), step));
    InvFramed();
    LocalKeeps(Inv, w, pid, step);
  }

  /** A copy of a process under a new pid owns no loop: those it inherits fail `check_owned`. */
  lemma ForkInv(p: Proc, child: Pid, sockets: Sockets)
    requires Inv(State(p, sockets)) && p.pc.Idle? && Own(child, p.loops) == {}
    ensures Inv(State(p.(pid := child), sockets))
  {
    var s := State(p.(pid := child), sockets);
    assert StructureInv(s) && SocketInv(s) && SlotInv(s);
    assert RegistryInv(s) && FateInv(s) && BorrowInv(s);
    assert CountInv(s) && RuntimesOk(s.p) && WakeupInv(s) && FibersOk(s.p.calls, s.p.callers);
  }

  lemma AddOneProcess(inv: State -> bool, procs: Procs, sockets: Sockets, c: Proc)
    requires EachHolds(inv, procs, sockets) && Apart(procs, sockets) && PidsKnown(procs)
    requires c.pid !in procs && inv(State(c, sockets)) && OwnSockets(c) == {}
    requires forall l | l in c.loops :: c.loops[l].pid in procs
    ensures var procs' := procs[c.pid := c];
      EachHolds(inv, procs', sockets) && Apart(procs', sockets) && PidsKnown(procs')
  {
  }

  lemma ForkKeepsWorld(w: World, pid: Pid, child: Pid)
    requires WorldInv(w) && WorldEnabled(w, Fork(pid, child))
    ensures WorldInv(WorldApply(w, Fork(pid, child)))
  {
    var p := w.procs[pid];
    var c := p.(pid := child);
    assert forall l | l in p.loops :: w.procs[pid].loops[l].pid in w.procs;
    assert Own(child, p.loops) == {};
    ForkInv(p, child, w.sockets);
    assert OwnSockets(c) == {};
    AddOneProcess(Inv, w.procs, w.sockets, c);
  }

  lemma WorldStepKeepsInv(w: World, step: WorldStep)
    requires WorldInv(w) && WorldEnabled(w, step)
    ensures WorldInv(WorldApply(w, step))
  {
    match step
    case Local(pid, step) => LocalKeepsWorld(w, pid, step);
    case Fork(pid, child) => ForkKeepsWorld(w, pid, child);
  }

  lemma InitialWorldInv(w: World)
    requires Initial(w, DrainFirst)
    ensures WorldInv(w)
  {
    var pid :| pid in w.procs && w.procs == map[pid := InitialProc(pid, DrainFirst)];
    InitialInv(pid, w.sockets);
    assert OwnSockets(InitialProc(pid, DrainFirst)) == {};
    AddOneProcess(Inv, map[], w.sockets, InitialProc(pid, DrainFirst));
    assert w.procs == map[][pid := InitialProc(pid, DrainFirst)];
  }

  lemma NextKeepsInv(w: World, w': World)
    requires WorldInv(w) && WorldNext(w, w')
    ensures WorldInv(w')
  {
    var step :| WorldEnabled(w, step) && w' == WorldApply(w, step);
    WorldStepKeepsInv(w, step);
  }

  /** What every step keeps holds from any world of a run on. */
  lemma {:induction false} Between(ws: seq<World>, next: (World, World) -> bool, inv: World -> bool, i: nat, j: nat)
    requires i <= j < |ws| && inv(ws[i])
    requires forall k :: 0 <= k < |ws| - 1 ==> next(ws[k], ws[k + 1])
    requires forall w, w' | inv(w) && next(w, w') :: inv(w')
    ensures inv(ws[j])
  {
    if i < j {
      Between(ws, next, inv, i, j - 1);
      assert next(ws[j - 1], ws[j - 1 + 1]);
    }
  }

  lemma Always(ws: seq<World>, next: (World, World) -> bool, inv: World -> bool)
    requires ws != [] && inv(ws[0])
    requires forall i :: 0 <= i < |ws| - 1 ==> next(ws[i], ws[i + 1])
    requires forall w, w' | inv(w) && next(w, w') :: inv(w')
    ensures inv(ws[|ws| - 1])
  {
    Between(ws, next, inv, 0, |ws| - 1);
  }

  lemma RunKeepsInv(ws: seq<World>)
    requires Run(ws, DrainFirst)
    ensures WorldInv(ws[|ws| - 1])
  {
    InitialWorldInv(ws[0]);
    forall w, w' | WorldInv(w) && WorldNext(w, w')
      ensures WorldInv(w')
    {
      NextKeepsInv(w, w');
    }
    Always(ws, WorldNext, WorldInv);
  }

  /** The invariant holds in every reachable state of every process. */
  lemma ReachableInv(w: World)
    requires Reachable(w)
    ensures WorldInv(w)
    ensures forall pid | pid in w.procs :: w.procs[pid].pid == pid && Inv(At(w, pid))
  {
    var ws :| Run(ws, DrainFirst) && ws[|ws| - 1] == w;
    RunKeepsInv(ws);
  }

  lemma ReachableApart(w: World, pid: Pid, q: Pid)
    requires Reachable(w) && pid in w.procs && q in w.procs
    ensures w.procs[q].pid == q && OwnSockets(w.procs[q]) <= w.sockets.Keys
    ensures pid != q ==> OwnSockets(w.procs[pid]) !! OwnSockets(w.procs[q])
  {
    ReachableInv(w);
  }

  // ----- One process, whatever the others do

  /** No loop of `p` is one of process `child`. */
  predicate Inherits(p: Proc, child: Pid) {
    forall l | l in p.loops :: p.loops[l].pid != child
  }

  /** Its steps keep `ok`, and a fork copies it. */
  ghost predicate Kept(ok: Proc -> bool) {
    && (forall pid :: ok(InitialProc(pid, DrainFirst)))
    && (forall s, step | Inv(s) && ok(s.p) && Enabled(s, step) :: ok(Apply(s, step).p))
    && (forall p, child | ok(p) && Inherits(p, child) :: ok(p.(pid := child)))
  }

  ghost predicate AllOk(ok: Proc -> bool, w: World) {
    forall pid | pid in w.procs :: ok(w.procs[pid])
  }

  ghost predicate OkWorld(ok: Proc -> bool, w: World) {
    WorldInv(w) && AllOk(ok, w)
  }

  lemma OneOk(ok: Proc -> bool, w: World, p: Proc, sockets: Sockets)
    requires AllOk(ok, w) && ok(p)
    ensures AllOk(ok, World(w.procs[p.pid := p], sockets))
  {
  }

  lemma InvOf(w: World, pid: Pid)
    requires WorldInv(w) && pid in w.procs
    ensures w.procs[pid].pid == pid && Inv(At(w, pid))
  {
    assert Inv(State(w.procs[pid], w.sockets));
  }

  lemma LocalKeepsOk(ok: Proc -> bool, w: World, pid: Pid, step: Step)
    requires Kept(ok) && WorldInv(w) && AllOk(ok, w) && WorldEnabled(w, Local(pid, step))
    ensures AllOk(ok, WorldApply(w, Local(pid, step)))
  {
    InvOf(w, pid);
    StepFrame(At(w, pid), step);
    OneOk(ok, w, Apply(At(w, pid), step).p, Apply(At(w, pid), step).sockets);
  }

  lemma ForkKeepsOk(ok: Proc -> bool, w: World, pid: Pid, child: Pid)
    requires Kept(ok) && PidsKnown(w.procs) && AllOk(ok, w) && WorldEnabled(w, Fork(pid, child))
    ensures AllOk(ok, WorldApply(w, Fork(pid, child)))
  {
    assert forall l | l in w.procs[pid].loops :: w.procs[pid].loops[l].pid in w.procs;
    assert Inherits(w.procs[pid], child);
    OneOk(ok, w, w.procs[pid].(pid := child), w.sockets);
  }

  lemma NextKeepsOk(ok: Proc -> bool, w: World, w': World)
    requires Kept(ok) && OkWorld(ok, w) && WorldNext(w, w')
    ensures OkWorld(ok, w')
  {
    NextKeepsInv(w, w');
    var step :| WorldEnabled(w, step) && w' == WorldApply(w, step);
    match step
    case Local(pid, step) => LocalKeepsOk(ok, w, pid, step);
    case Fork(pid, child) => ForkKeepsOk(ok, w, pid, child);
  }

  lemma InitialOk(ok: Proc -> bool, w: World)
    requires Kept(ok) && Initial(w, DrainFirst)
    ensures AllOk(ok, w)
  {
  }

  lemma InitialOkWorld(ok: Proc -> bool, w: World)
    requires Kept(ok) && Initial(w, DrainFirst)
    ensures OkWorld(ok, w)
  {
    InitialWorldInv(w);
    InitialOk(ok, w);
  }

  /** What the steps of a process keep, and a fork copies, holds of every process in every reachable world. */
  lemma Everywhere(ok: Proc -> bool, w: World, pid: Pid)
    requires Kept(ok) && Reachable(w) && pid in w.procs
    ensures ok(w.procs[pid])
  {
    var ws :| Run(ws, DrainFirst) && ws[|ws| - 1] == w;
    InitialOkWorld(ok, ws[0]);
    forall v, v' | OkWorld(ok, v) && WorldNext(v, v')
      ensures OkWorld(ok, v')
    {
      NextKeepsOk(ok, v, v');
    }
    Always(ws, WorldNext, v => OkWorld(ok, v));
  }
}
